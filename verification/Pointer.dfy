/** Which monitor the pointer is on, and the bounding box it is clamped to. */
module Pointer {
  import opened Sequences
  import opened Monitors

  datatype Spot = Spot(x: real, y: real)

  /** `as i32`: truncation toward zero. */
  function Trunc(x: real): int {
    if x >= 0.0 then x.Floor else -(-x).Floor
  }

  /** Right and bottom edges are outside. */
  predicate Contains(area: Rect, x: int, y: int) {
    area.loc.x <= x < area.loc.x + area.w && area.loc.y <= y < area.loc.y + area.h
  }

  /** The first monitor under the pointer. */
  function AreaAt(areas: seq<Rect>, p: Spot): (r: Option<nat>)
    ensures r.Some? ==> r.value < |areas| && Contains(areas[r.value], Trunc(p.x), Trunc(p.y))
    ensures r.Some? ==> forall i :: 0 <= i < r.value ==> !Contains(areas[i], Trunc(p.x), Trunc(p.y))
    ensures r.None? ==> forall i :: 0 <= i < |areas| ==> !Contains(areas[i], Trunc(p.x), Trunc(p.y))
  {
    if areas == [] then None
    else
      var earlier := AreaAt(areas[..|areas| - 1], p);
      if earlier.Some? then earlier
      else if Contains(areas[|areas| - 1], Trunc(p.x), Trunc(p.y)) then Some(|areas| - 1)
      else None
  }

  datatype Bounds = Bounds(left: int, top: int, right: int, bottom: int)

  function Edges(area: Rect): Bounds {
    Bounds(area.loc.x, area.loc.y, area.loc.x + area.w, area.loc.y + area.h)
  }

  function Union(a: Bounds, b: Bounds): Bounds {
    Bounds(
      if a.left < b.left then a.left else b.left,
      if a.top < b.top then a.top else b.top,
      if a.right > b.right then a.right else b.right,
      if a.bottom > b.bottom then a.bottom else b.bottom)
  }

  function BoundsOf(areas: seq<Rect>): Bounds {
    if areas == [] then Bounds(0, 0, 0, 0)
    else if |areas| == 1 then Edges(areas[0])
    else Union(BoundsOf(areas[..|areas| - 1]), Edges(areas[|areas| - 1]))
  }

  /** Outputs have a size. */
  predicate Sized(areas: seq<Rect>) {
    forall i :: 0 <= i < |areas| ==> areas[i].w > 0 && areas[i].h > 0
  }

  ghost predicate Encloses(b: Bounds, areas: seq<Rect>) {
    forall i :: 0 <= i < |areas| ==>
      && b.left <= Edges(areas[i]).left && Edges(areas[i]).right <= b.right
      && b.top <= Edges(areas[i]).top && Edges(areas[i]).bottom <= b.bottom
  }

  ghost predicate Attained(b: Bounds, areas: seq<Rect>) {
    && (exists i :: 0 <= i < |areas| && Edges(areas[i]).left == b.left)
    && (exists i :: 0 <= i < |areas| && Edges(areas[i]).top == b.top)
    && (exists i :: 0 <= i < |areas| && Edges(areas[i]).right == b.right)
    && (exists i :: 0 <= i < |areas| && Edges(areas[i]).bottom == b.bottom)
  }

  lemma AttainedGrows(a: Bounds, areas: seq<Rect>, area: Rect)
    requires Attained(a, areas)
    ensures Attained(Union(a, Edges(area)), areas + [area])
  {
    var all := areas + [area];
    assert all[|areas|] == area;
    assert forall i :: 0 <= i < |areas| ==> all[i] == areas[i];
  }

  /** The bounds are the smallest box around all monitors. */
  lemma {:induction false} BoundsTight(areas: seq<Rect>)
    requires areas != []
    ensures Encloses(BoundsOf(areas), areas) && Attained(BoundsOf(areas), areas)
  {
    if |areas| > 1 {
      hide Attained;
      var n := |areas| - 1;
      BoundsTight(areas[..n]);
      assert areas == areas[..n] + [areas[n]];
      AttainedGrows(BoundsOf(areas[..n]), areas[..n], areas[n]);
    }
  }

  lemma BoundsOrdered(areas: seq<Rect>)
    requires areas != [] && Sized(areas)
    ensures BoundsOf(areas).left < BoundsOf(areas).right && BoundsOf(areas).top < BoundsOf(areas).bottom
  {
    hide BoundsOf, Attained;
    BoundsTight(areas);
    assert areas[0].w > 0;
  }

  function ClampPointer(areas: seq<Rect>, p: Spot): Spot
    requires Sized(areas)
  {
    if areas == [] then p
    else
      BoundsOrdered(areas);
      var b := BoundsOf(areas);
      Spot(Clamp(p.x, b.left as real, b.right as real), Clamp(p.y, b.top as real, b.bottom as real))
  }

  /** Every point of the box is under some monitor. */
  ghost predicate Covered(areas: seq<Rect>) {
    var b := BoundsOf(areas);
    forall x, y :: b.left <= x < b.right && b.top <= y < b.bottom ==> Under(areas, x, y)
  }

  ghost predicate Under(areas: seq<Rect>, x: int, y: int) {
    exists i :: 0 <= i < |areas| && Contains(areas[i], x, y)
  }

  /** Short of the far edges, which belong to no monitor though the clamp allows them. */
  predicate Inside(areas: seq<Rect>, p: Spot) {
    Trunc(p.x) < BoundsOf(areas).right && Trunc(p.y) < BoundsOf(areas).bottom
  }

  lemma TruncWithin(x: real, lo: int)
    requires lo as real <= x
    ensures lo <= Trunc(x)
  {
  }

  lemma TruncExact(x: int)
    ensures Trunc(x as real) == x
  {
  }

  lemma ClampInBox(areas: seq<Rect>, p: Spot)
    requires areas != [] && Sized(areas)
    ensures var b := BoundsOf(areas);
            var q := ClampPointer(areas, p);
            && b.left as real <= q.x <= b.right as real && b.top as real <= q.y <= b.bottom as real
            && (b.left as real <= p.x <= b.right as real && b.top as real <= p.y <= b.bottom as real ==> q == p)
  {
    hide BoundsOf;
  }

  /**
   The clamp is meant to keep the pointer on the monitors.  It does, short of the far edges, exactly when
   the monitors fill their bounding box; on the far edges it never does.
   */
  lemma ClampedStaysOnMonitors(areas: seq<Rect>)
    requires areas != [] && Sized(areas)
    ensures (forall p :: Inside(areas, ClampPointer(areas, p)) ==> AreaAt(areas, ClampPointer(areas, p)).Some?)
            <==> Covered(areas)
    ensures forall p :: AreaAt(areas, ClampPointer(areas, p)).Some? ==> Inside(areas, ClampPointer(areas, p))
  {
    hide BoundsOf, ClampPointer, Trunc;
    var b := BoundsOf(areas);
    BoundsTight(areas);
    if Covered(areas) {
      forall p | Inside(areas, ClampPointer(areas, p))
        ensures AreaAt(areas, ClampPointer(areas, p)).Some?
      {
        var q := ClampPointer(areas, p);
        ClampInBox(areas, p);
        TruncWithin(q.x, b.left);
        TruncWithin(q.y, b.top);
        assert Under(areas, Trunc(q.x), Trunc(q.y));
      }
    }
    if forall p :: Inside(areas, ClampPointer(areas, p)) ==> AreaAt(areas, ClampPointer(areas, p)).Some? {
      forall x, y | b.left <= x < b.right && b.top <= y < b.bottom
        ensures Under(areas, x, y)
      {
        PointUnder(areas, x, y);
      }
    }
  }

  lemma PointUnder(areas: seq<Rect>, x: int, y: int)
    requires areas != [] && Sized(areas)
    requires BoundsOf(areas).left <= x < BoundsOf(areas).right && BoundsOf(areas).top <= y < BoundsOf(areas).bottom
    requires forall p :: Inside(areas, ClampPointer(areas, p)) ==> AreaAt(areas, ClampPointer(areas, p)).Some?
    ensures Under(areas, x, y)
  {
    hide BoundsOf, ClampPointer, Trunc;
    var p := Spot(x as real, y as real);
    ClampInBox(areas, p);
    TruncExact(x);
    TruncExact(y);
    assert Inside(areas, ClampPointer(areas, p));
  }
}
