/** Interactive resize drags: every motion is applied to a snapshot taken when the drag starts. */
module Resize {
  import opened Sequences
  import opened Monitors
  import opened Pointer

  datatype Extent = Extent(w: int, h: int)

  /**
   What a drag reads and writes: the layout state of the grabbed window's monitor, the window's size
   factor and kind, the size last sent to a floating window, and the snapshots kept in the grab.
   */
  datatype Drag = Drag(
    /** Whether the window's monitor exists; an index may outlive its monitor. */
    present: bool,
    kind: LayoutKind, workW: int, workH: int,
    mfact: real, colFacts: seq<real>,
    cfact: real, floating: bool, sentSize: Option<Extent>,
    start: Option<Spot>, geom: Option<Extent>,
    grabMfact: Option<real>, grabCfact: Option<real>,
    grabColIdx: Option<nat>, grabColFacts: Option<seq<real>>)

  function AtLeastOne(x: int): int {
    if x < 1 then 1 else x
  }

  function Equal(n: nat, frac: real): (r: seq<real>)
    ensures |r| == n && forall i :: 0 <= i < n ==> r[i] == frac
  {
    if n == 0 then [] else Equal(n - 1, frac) + [frac]
  }

  /** The column fractions a drag starts from: those in force, or equal ones for `n` columns. */
  function ColumnSnapshot(existing: seq<real>, n: nat): seq<real> {
    if |existing| == n && n > 0 then existing
    else if n > 0 then Equal(n, 1.0 / n as real)
    else []
  }

  /** `n` tiled windows, the grabbed one at column `col`, and the window's current size. */
  function StartResize(d: Drag, at: Spot, n: nat, col: Option<nat>, geom: Option<Extent>): Drag {
    var snapped :=
      if d.floating then d.(grabMfact := None, grabCfact := None, grabColIdx := None, grabColFacts := None)
      else if !d.present then d.(grabMfact := None, grabColIdx := None, grabColFacts := None, grabCfact := Some(d.cfact))
      else if d.kind == Col then
        d.(grabMfact := None, grabColIdx := col, grabColFacts := Some(ColumnSnapshot(d.colFacts, n)), grabCfact := Some(d.cfact))
      else
        d.(grabMfact := Some(d.mfact), grabColIdx := None, grabColFacts := None, grabCfact := Some(d.cfact));
    snapped.(start := Some(at), geom := geom)
  }

  /** A drag distance as a fraction of the work area. */
  function Share(delta: real, area: int): real
    requires area > 0
  {
    delta / area as real
  }

  /** A size factor scaled by the relative growth of the dragged length. */
  function Scaled(base: real, len: int, delta: real): real
    requires len > 0
  {
    base * (len as real + delta) / len as real
  }

  function SplitBy(d: Drag, delta: real, area: int): real {
    if area > 0
    then Clamp((if d.grabMfact.Some? then d.grabMfact.value else d.mfact) + Share(delta, area), 0.05, 0.95)
    else d.mfact
  }

  function CfactBy(d: Drag, len: int, delta: real): real {
    if len <= 0 then d.cfact
    else Clamp(Scaled(if d.grabCfact.Some? then d.grabCfact.value else 1.0, len, delta), 0.25, 4.0)
  }

  function MinFrac(total: real): real {
    if 0.05 < total / 2.0 then 0.05 else total / 2.0
  }

  /** The clamp bounds of a column drag are in order, so clamping never fails. */
  lemma ColumnBoundsOrdered(left: real, right: real)
    ensures MinFrac(left + right) - left <= right - MinFrac(left + right)
  {
  }

  function MoveBoundary(snap: seq<real>, col: nat, shift: real): (r: seq<real>)
    requires col + 1 < |snap|
  {
    var total := snap[col] + snap[col + 1];
    ColumnBoundsOrdered(snap[col], snap[col + 1]);
    var delta := Clamp(shift, MinFrac(total) - snap[col], snap[col + 1] - MinFrac(total));
    var left := snap[col] + delta;
    snap[col := left][col + 1 := total - left]
  }

  function ColFactsBy(d: Drag, dx: real): seq<real> {
    if d.workW <= 0 || d.grabColIdx.None? || d.grabColFacts.None? then d.colFacts
    else if d.grabColIdx.value + 1 >= |d.grabColFacts.value| then d.colFacts
    else MoveBoundary(d.grabColFacts.value, d.grabColIdx.value, Share(dx, d.workW))
  }

  function Motion(d: Drag, p: Spot): Drag {
    if d.start.None? || d.geom.None? then d
    else
      var dx, dy := p.x - d.start.value.x, p.y - d.start.value.y;
      var geom := d.geom.value;
      if d.floating then
        d.(sentSize := Some(Extent(AtLeastOne(geom.w + Trunc(dx)), AtLeastOne(geom.h + Trunc(dy)))))
      else if !d.present then d
      else
        match d.kind
        case Tile => d.(mfact := SplitBy(d, dx, d.workW), cfact := CfactBy(d, geom.h, dy))
        case Bstack => d.(mfact := SplitBy(d, dy, d.workH), cfact := CfactBy(d, geom.w, dx))
        case CenteredMaster => d.(mfact := SplitBy(d, dx, d.workW), cfact := CfactBy(d, geom.h, dy))
        case Col => d.(colFacts := ColFactsBy(d, dx))
        case Scroll => d.(mfact := SplitBy(d, dx, d.workW))
        case Dwindle => d.(mfact := SplitBy(d, dx, d.workW))
        case Monocle => d
  }

  function Motions(d: Drag, ps: seq<Spot>): Drag {
    if ps == [] then d else Motion(Motions(d, ps[..|ps| - 1]), ps[|ps| - 1])
  }

  function EndResize(d: Drag): Drag {
    d.(start := None, geom := None, grabMfact := None, grabCfact := None, grabColIdx := None, grabColFacts := None)
  }

  // The last motion alone decides.

  /** The extent along which a layout's master split is dragged, when it has one. */
  function SplitArea(d: Drag): int {
    match d.kind
    case Bstack => d.workH
    case Col => 0
    case Monocle => 0
    case _ => d.workW
  }

  /** A motion either does not touch the split or takes it from the snapshot. */
  predicate Anchored(d: Drag) {
    d.start.None? || d.geom.None? || d.floating || !d.present || SplitArea(d) <= 0 || d.grabMfact.Some?
  }

  lemma SplitIgnores(d: Drag, e: Drag, delta: real, area: int)
    requires e.grabMfact == d.grabMfact && ((d.grabMfact.Some? && area > 0) || e.mfact == d.mfact)
    ensures SplitBy(e, delta, area) == SplitBy(d, delta, area)
    ensures area <= 0 ==> SplitBy(d, delta, area) == d.mfact
  {
  }

  lemma CfactIgnores(d: Drag, e: Drag, len: int, delta: real)
    requires e.grabCfact == d.grabCfact && (len > 0 || e.cfact == d.cfact)
    ensures CfactBy(e, len, delta) == CfactBy(d, len, delta)
    ensures len <= 0 ==> CfactBy(d, len, delta) == d.cfact
  {
  }

  lemma ColFactsIgnore(d: Drag, dx: real, dy: real)
    ensures ColFactsBy(d.(colFacts := ColFactsBy(d, dx)), dy) == ColFactsBy(d, dy)
  {
    hide MoveBoundary;
  }

  lemma BothOverride(d: Drag, split: real, area: int, len: int, along: real, split': real, along': real)
    requires area <= 0 || d.grabMfact.Some?
    ensures var e := d.(mfact := SplitBy(d, split, area), cfact := CfactBy(d, len, along));
            && SplitBy(e, split', area) == SplitBy(d, split', area)
            && CfactBy(e, len, along') == CfactBy(d, len, along')
  {
    hide SplitBy, CfactBy;
    var e := d.(mfact := SplitBy(d, split, area), cfact := CfactBy(d, len, along));
    if area <= 0 {
      SplitIgnores(d, d, split, area);
    }
    if len <= 0 {
      CfactIgnores(d, d, len, along);
    }
    SplitIgnores(d, e, split', area);
    CfactIgnores(d, e, len, along');
  }

  lemma SplitOverrides(d: Drag, split: real, area: int, split': real)
    requires area <= 0 || d.grabMfact.Some?
    ensures SplitBy(d.(mfact := SplitBy(d, split, area)), split', area) == SplitBy(d, split', area)
  {
    hide SplitBy;
    if area <= 0 {
      SplitIgnores(d, d, split, area);
    }
    SplitIgnores(d, d.(mfact := SplitBy(d, split, area)), split', area);
  }

  lemma MotionOverrides(d: Drag, p: Spot, q: Spot)
    requires Anchored(d)
    ensures Motion(Motion(d, p), q) == Motion(d, q)
    ensures Anchored(Motion(d, p))
  {
    hide Trunc, SplitBy, CfactBy, ColFactsBy;
    if d.start.Some? && d.geom.Some? && !d.floating && d.present {
      var px, py := p.x - d.start.value.x, p.y - d.start.value.y;
      var qx, qy := q.x - d.start.value.x, q.y - d.start.value.y;
      match d.kind {
        case Tile => BothOverride(d, px, d.workW, d.geom.value.h, py, qx, qy);
        case Bstack => BothOverride(d, py, d.workH, d.geom.value.w, px, qy, qx);
        case CenteredMaster => BothOverride(d, px, d.workW, d.geom.value.h, py, qx, qy);
        case Col => ColFactsIgnore(d, px, qx);
        case Scroll => SplitOverrides(d, px, d.workW, qx);
        case Dwindle => SplitOverrides(d, px, d.workW, qx);
        case Monocle =>
      }
    }
  }

  /** A drag leaves everything as the last of its motions alone would. */
  lemma {:induction false} LastMotionDecides(d: Drag, ps: seq<Spot>)
    requires Anchored(d) && ps != []
    ensures Motions(d, ps) == Motion(d, ps[|ps| - 1])
    ensures Anchored(Motions(d, ps))
  {
    hide Motion, Anchored;
    var n := |ps| - 1;
    if n == 0 {
      assert Motions(d, ps[..n]) == d;
      MotionOverrides(d, ps[0], ps[0]);
    } else {
      LastMotionDecides(d, ps[..n]);
      assert Motions(d, ps) == Motion(Motion(d, ps[n - 1]), ps[n]);
      MotionOverrides(d, ps[n - 1], ps[n]);
      MotionOverrides(Motions(d, ps[..n]), ps[n], ps[n]);
    }
  }

  /** What else happens to the dragged window while the drag goes on: its monitor, its layout, its kind. */
  function Changing(d: Drag, present: bool, kind: LayoutKind, workW: int, workH: int, mfact: real, cfact: real, floating: bool): Drag {
    d.(present := present, kind := kind, workW := workW, workH := workH, mfact := mfact, cfact := cfact, floating := floating)
  }

  /**
   Starting a resize anchors it, and it stays anchored through any change in between exactly when it was
   begun on a tiled window, on a monitor that existed, in a layout other than columns; or when the change
   leaves nothing to compound.
   */
  lemma StartAnchors(d: Drag, at: Spot, n: nat, col: Option<nat>, geom: Option<Extent>,
                     present: bool, kind: LayoutKind, workW: int, workH: int, mfact: real, cfact: real, floating: bool)
    ensures var s := StartResize(d, at, n, col, geom);
            var t := Changing(s, present, kind, workW, workH, mfact, cfact, floating);
            && Anchored(s)
            && (Anchored(t) <==> (!d.floating && d.present && d.kind != Col)
                                 || geom.None? || floating || !present || SplitArea(t) <= 0)
  {
  }

  lemma ShareBack(x: real, area: int, delta: real)
    requires area > 0 && delta == x * area as real
    ensures Share(delta, area) == x
  {
  }

  lemma SplitReaches(d: Drag, area: int, goal: real, delta: real)
    requires area > 0 && d.grabMfact.None? && delta == (goal - d.mfact) * area as real
    ensures SplitBy(d, delta, area) == Clamp(goal, 0.05, 0.95)
  {
    hide Share;
    ShareBack(goal - d.mfact, area, delta);
  }

  function Along(d: Drag, delta: real): Spot
    requires d.start.Some?
  {
    if d.kind == Bstack then Spot(d.start.value.x, d.start.value.y + delta) else Spot(d.start.value.x + delta, d.start.value.y)
  }

  lemma MotionAlong(d: Drag, delta: real)
    requires d.start.Some? && d.geom.Some? && !d.floating && d.present && SplitArea(d) > 0
    ensures Motion(d, Along(d, delta)).mfact == SplitBy(d, delta, SplitArea(d))
  {
    hide CfactBy, SplitBy;
  }

  /**
   The anchor is exactly what it takes.  Without it (a drag begun in the column layout and continued in
   one with a master split) two motions compound: there is a pair the last of which alone does otherwise.
   */
  lemma UnanchoredCompounds(d: Drag)
    requires !Anchored(d)
    ensures exists p, q :: Motion(Motion(d, p), q) != Motion(d, q)
  {
    hide Motion, SplitBy;
    var area := SplitArea(d);
    var stay := Along(d, 0.0);
    var up, down := (2.0 - d.mfact) * area as real, (-2.0 - d.mfact) * area as real;
    SplitReaches(d, area, 2.0, up);
    SplitReaches(d, area, -2.0, down);
    MotionAlong(d, 0.0);
    MotionAlong(d, up);
    MotionAlong(d, down);
    var high, low := Motion(d, Along(d, up)), Motion(d, Along(d, down));
    MotionKeeps(d, Along(d, up));
    MotionKeeps(d, Along(d, down));
    MotionAlong(high, 0.0);
    MotionAlong(low, 0.0);
    StayingClamps(high, area);
    StayingClamps(low, area);
    assert Motion(high, stay).mfact == 0.95 && Motion(low, stay).mfact == 0.05;
  }

  lemma StayingClamps(d: Drag, area: int)
    requires area > 0 && d.grabMfact.None?
    ensures SplitBy(d, 0.0, area) == Clamp(d.mfact, 0.05, 0.95)
  {
    assert Share(0.0, area) == 0.0;
  }

  lemma MotionKeeps(d: Drag, p: Spot)
    ensures var r := Motion(d, p);
            && r.present == d.present && r.kind == d.kind && r.workW == d.workW && r.workH == d.workH && r.floating == d.floating
            && r.start == d.start && r.geom == d.geom && r.grabMfact == d.grabMfact && r.grabCfact == d.grabCfact
            && r.grabColIdx == d.grabColIdx && r.grabColFacts == d.grabColFacts
  {
    hide Trunc, MoveBoundary, SplitBy, CfactBy, ColFactsBy;
  }

  /** A drag keeps the split and the size factor within their documented ranges. */
  lemma MotionInRange(d: Drag, p: Spot)
    ensures 0.05 <= d.mfact <= 0.95 ==> 0.05 <= Motion(d, p).mfact <= 0.95
    ensures 0.25 <= d.cfact <= 4.0 ==> 0.25 <= Motion(d, p).cfact <= 4.0
  {
    hide Trunc, MoveBoundary, Clamp;
  }

  // Column fractions.

  function Sum(xs: seq<real>): real {
    if xs == [] then 0.0 else Sum(xs[..|xs| - 1]) + xs[|xs| - 1]
  }

  lemma {:induction false} SumUpdate(xs: seq<real>, i: nat, v: real)
    requires i < |xs|
    ensures Sum(xs[i := v]) == Sum(xs) - xs[i] + v
  {
    var n := |xs| - 1;
    var ys := xs[i := v];
    if i == n {
      assert ys[..n] == xs[..n];
    } else {
      SumUpdate(xs[..n], i, v);
      assert ys[..n] == xs[..n][i := v];
    }
  }

  lemma {:induction false} SumEqual(n: nat, frac: real)
    ensures Sum(Equal(n, frac)) == n as real * frac
  {
    if n > 0 {
      SumEqual(n - 1, frac);
      var xs := Equal(n, frac);
      assert xs[..n - 1] == Equal(n - 1, frac);
      assert n as real * frac == (n - 1) as real * frac + frac;
    }
  }

  /** No columns yet, or positive fractions of exactly the whole width. */
  ghost predicate Balanced(xs: seq<real>) {
    xs == [] || (Sum(xs) == 1.0 && forall i :: 0 <= i < |xs| ==> xs[i] > 0.0)
  }

  lemma UnitShare(n: nat)
    requires n > 0
    ensures 1.0 / n as real > 0.0 && n as real * (1.0 / n as real) == 1.0
  {
  }

  lemma EqualBalanced(n: nat, frac: real)
    requires n > 0 && frac > 0.0 && n as real * frac == 1.0
    ensures Balanced(Equal(n, frac))
  {
    hide Sum, Equal;
    SumEqual(n, frac);
  }

  lemma SnapshotBalanced(existing: seq<real>, n: nat)
    requires Balanced(existing)
    ensures Balanced(ColumnSnapshot(existing, n))
  {
    hide Sum, Equal;
    if n > 0 {
      UnitShare(n);
      EqualBalanced(n, 1.0 / n as real);
    }
    hide Balanced;
  }

  /**
   Moving a column boundary preserves the total, changes only the two columns beside it, and leaves
   neither below 5% of the width, or below half of what the two had together when that is less.
   */
  lemma BoundaryConserves(snap: seq<real>, col: nat, shift: real)
    requires col + 1 < |snap|
    ensures var r := MoveBoundary(snap, col, shift);
            && |r| == |snap|
            && Sum(r) == Sum(snap)
            && (forall i :: 0 <= i < |snap| && i != col && i != col + 1 ==> r[i] == snap[i])
            && r[col] + r[col + 1] == snap[col] + snap[col + 1]
            && r[col] >= MinFrac(snap[col] + snap[col + 1])
            && r[col + 1] >= MinFrac(snap[col] + snap[col + 1])
  {
    var total := snap[col] + snap[col + 1];
    var left := MoveBoundary(snap, col, shift)[col];
    SumUpdate(snap, col, left);
    SumUpdate(snap[col := left], col + 1, total - left);
  }

  ghost predicate DragBalanced(d: Drag) {
    Balanced(d.colFacts) && (d.grabColFacts.Some? ==> Balanced(d.grabColFacts.value))
  }

  /** Anything that may happen to a monitor's columns: drags, and changes of layout, geometry or window kind. */
  datatype DragEvent =
    | Began(at: Spot, n: nat, col: Option<nat>, geom: Option<Extent>)
    | Moved(p: Spot)
    | Ended
    | Changed(present: bool, kind: LayoutKind, workW: int, workH: int, mfact: real, cfact: real, floating: bool)

  function DragStep(d: Drag, e: DragEvent): Drag {
    match e
    case Began(at, n, col, geom) => StartResize(d, at, n, col, geom)
    case Moved(p) => Motion(d, p)
    case Ended => EndResize(d)
    case Changed(present, kind, workW, workH, mfact, cfact, floating) =>
      Changing(d, present, kind, workW, workH, mfact, cfact, floating)
  }

  function DragRun(d: Drag, events: seq<DragEvent>): Drag {
    if events == [] then d else DragStep(DragRun(d, events[..|events| - 1]), events[|events| - 1])
  }

  lemma MotionBalanced(d: Drag, p: Spot)
    requires DragBalanced(d)
    ensures DragBalanced(Motion(d, p))
  {
    hide Sum, MoveBoundary, Trunc, SplitBy, CfactBy;
    if d.grabColFacts.Some? && d.grabColIdx.Some? && d.grabColIdx.value + 1 < |d.grabColFacts.value|
       && d.start.Some? && d.workW > 0 {
      var snap, col := d.grabColFacts.value, d.grabColIdx.value;
      var shift := Share(p.x - d.start.value.x, d.workW);
      BoundaryConserves(snap, col, shift);
      var r := MoveBoundary(snap, col, shift);
      assert MinFrac(snap[col] + snap[col + 1]) > 0.0;
      assert forall i :: 0 <= i < |r| ==> r[i] > 0.0;
    }
  }

  /** Across every run of drags the column fractions are absent or sum to exactly one. */
  lemma {:induction false} ColumnsStayBalanced(d: Drag, events: seq<DragEvent>)
    requires DragBalanced(d)
    ensures DragBalanced(DragRun(d, events))
  {
    hide Motion, Balanced, ColumnSnapshot;
    if events != [] {
      var n := |events| - 1;
      ColumnsStayBalanced(d, events[..n]);
      var t := DragRun(d, events[..n]);
      match events[n] {
        case Began(at, k, col, geom) => SnapshotBalanced(t.colFacts, k);
        case Moved(p) => MotionBalanced(t, p);
        case _ =>
      }
    }
  }

  // The grab the compositor keeps and updates in place.

  class ResizeGrab {
    var present: bool
    var kind: LayoutKind
    var workW: int
    var workH: int
    var mfact: real
    var colFacts: seq<real>
    var cfact: real
    var floating: bool
    var sentSize: Option<Extent>
    var start: Option<Spot>
    var geom: Option<Extent>
    var grabMfact: Option<real>
    var grabCfact: Option<real>
    var grabColIdx: Option<nat>
    var grabColFacts: Option<seq<real>>

    ghost function Abs(): Drag
      reads this
    {
      Drag(present, kind, workW, workH, mfact, colFacts, cfact, floating, sentSize, start, geom,
           grabMfact, grabCfact, grabColIdx, grabColFacts)
    }

    constructor (present: bool, kind: LayoutKind, workW: int, workH: int, mfact: real, cfact: real, floating: bool)
      ensures Abs() == Drag(present, kind, workW, workH, mfact, [], cfact, floating, None, None, None, None, None, None, None)
      ensures DragBalanced(Abs())
    {
      this.present := present;
      this.kind, this.workW, this.workH, this.mfact, this.cfact, this.floating := kind, workW, workH, mfact, cfact, floating;
      colFacts, sentSize, start, geom := [], None, None, None;
      grabMfact, grabCfact, grabColIdx, grabColFacts := None, None, None, None;
    }

    method Begin(at: Spot, n: nat, col: Option<nat>, size: Option<Extent>)
      modifies this
      ensures Abs() == StartResize(old(Abs()), at, n, col, size)
    {
      hide ColumnSnapshot;
      if floating {
        grabMfact, grabCfact, grabColIdx, grabColFacts := None, None, None, None;
      } else {
        if present && kind == Col {
          grabMfact, grabColIdx := None, col;
          grabColFacts := Some(Columns(n));
        } else {
          grabMfact, grabColIdx, grabColFacts := if present then Some(mfact) else None, None, None;
        }
        grabCfact := Some(cfact);
      }
      start, geom := Some(at), size;
    }

    /** The column fractions in force, or equal ones for the `n` windows there are. */
    function Columns(n: nat): (r: seq<real>)
      reads this
      ensures r == ColumnSnapshot(colFacts, n)
    {
      if |colFacts| == n && n > 0 then colFacts
      else if n > 0 then Equal(n, 1.0 / n as real)
      else []
    }

    method DragSplit(delta: real, area: int)
      modifies this`mfact
      ensures mfact == SplitBy(old(Abs()), delta, area)
    {
      if area > 0 {
        var base := if grabMfact.Some? then grabMfact.value else mfact;
        mfact := Clamp(base + Share(delta, area), 0.05, 0.95);
      }
    }

    method DragCfact(len: int, delta: real)
      modifies this`cfact
      ensures cfact == CfactBy(old(Abs()), len, delta)
    {
      if len <= 0 {
        return;
      }
      var base := if grabCfact.Some? then grabCfact.value else 1.0;
      cfact := Clamp(Scaled(base, len, delta), 0.25, 4.0);
    }

    method DragColumn(dx: real)
      modifies this`colFacts
      ensures colFacts == ColFactsBy(old(Abs()), dx)
    {
      if workW <= 0 || grabColIdx.None? || grabColFacts.None? {
        return;
      }
      var col, snap := grabColIdx.value, grabColFacts.value;
      if col + 1 >= |snap| {
        return;
      }
      var total := snap[col] + snap[col + 1];
      ColumnBoundsOrdered(snap[col], snap[col + 1]);
      var minFrac := if 0.05 < total / 2.0 then 0.05 else total / 2.0;
      var delta := Clamp(Share(dx, workW), minFrac - snap[col], snap[col + 1] - minFrac);
      var newLeft := snap[col] + delta;
      var newRight := total - newLeft;
      colFacts := Redrawn(snap, col, newLeft, newRight);
    }

    /** The fractions with the two columns beside a boundary replaced. */
    method Redrawn(snap: seq<real>, col: nat, newLeft: real, newRight: real) returns (facts: seq<real>)
      requires col + 1 < |snap|
      ensures facts == snap[col := newLeft][col + 1 := newRight]
    {
      ghost var moved := snap[col := newLeft][col + 1 := newRight];
      facts := [];
      for j := 0 to |snap|
        invariant facts == moved[..j]
      {
        facts := facts + [if j == col then newLeft else if j == col + 1 then newRight else snap[j]];
      }
      assert moved[..|snap|] == moved;
    }

    /** The split follows one axis of the drag and the grabbed window's factor the other. */
    method DragBoth(split: real, area: int, len: int, along: real)
      modifies this`mfact, this`cfact
      ensures mfact == SplitBy(old(Abs()), split, area) && cfact == CfactBy(old(Abs()), len, along)
    {
      hide SplitBy, CfactBy;
      ghost var before := Abs();
      DragSplit(split, area);
      CfactIgnores(before, Abs(), len, along);
      DragCfact(len, along);
    }

    method HandleResize(p: Spot)
      modifies this
      ensures Abs() == Motion(old(Abs()), p)
    {
      hide SplitBy, CfactBy, ColFactsBy, Trunc;
      if start.None? || geom.None? {
        return;
      }
      var dx, dy := p.x - start.value.x, p.y - start.value.y;
      if floating {
        sentSize := Some(Extent(AtLeastOne(geom.value.w + Trunc(dx)), AtLeastOne(geom.value.h + Trunc(dy))));
        return;
      }
      if !present {
        return;
      }
      match kind {
        case Tile => DragBoth(dx, workW, geom.value.h, dy);
        case Bstack => DragBoth(dy, workH, geom.value.w, dx);
        case CenteredMaster => DragBoth(dx, workW, geom.value.h, dy);
        case Col => DragColumn(dx);
        case Scroll => DragSplit(dx, workW);
        case Dwindle => DragSplit(dx, workW);
        case Monocle =>
      }
    }

    method End()
      modifies this
      ensures Abs() == EndResize(old(Abs()))
    {
      start, geom := None, None;
      grabMfact, grabCfact, grabColIdx, grabColFacts := None, None, None, None;
    }
  }
}
