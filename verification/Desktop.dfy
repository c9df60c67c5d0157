/** The compositor space (a stacking list of placed windows) and the placement passes of `arrange`. */
module Desktop {
  import opened Sequences
  import opened Tags
  import opened Monitors
  import opened Windows

  /** A mapped window and its location; lists of these run from the bottom to the top of the stack. */
  datatype Placed = Placed(win: Window, loc: Point)

  type Space = seq<Placed>

  /** Where a window is mapped; it has at most one entry. */
  function LocOf(sp: Space, w: Window): Option<Point> {
    if sp == [] then None
    else if sp[|sp| - 1].win == w then Some(sp[|sp| - 1].loc)
    else LocOf(sp[..|sp| - 1], w)
  }

  /** The stacking order, bottom first. */
  function Order(sp: Space): (r: seq<Window>)
    ensures |r| == |sp|
    ensures forall w :: w in r <==> LocOf(sp, w).Some?
  {
    if sp == [] then [] else Order(sp[..|sp| - 1]) + [sp[|sp| - 1].win]
  }

  // The three library operations on a space.

  function UnmapElem(sp: Space, w: Window): (r: Space)
    ensures LocOf(r, w) == None
    ensures forall v :: v != w ==> LocOf(r, v) == LocOf(sp, v)
    ensures Order(r) == Without(Order(sp), w)
  {
    if sp == [] then []
    else
      var n := |sp| - 1;
      var rest := UnmapElem(sp[..n], w);
      if sp[n].win == w then rest
      else
        assert (rest + [sp[n]])[..|rest|] == rest;
        rest + [sp[n]]
  }

  /** (Re-)insert at the top. */
  function MapElement(sp: Space, w: Window, loc: Point): (r: Space)
    ensures LocOf(r, w) == Some(loc)
    ensures forall v :: v != w ==> LocOf(r, v) == LocOf(sp, v)
    ensures Order(r) == Without(Order(sp), w) + [w]
  {
    var rest := UnmapElem(sp, w);
    assert (rest + [Placed(w, loc)])[..|rest|] == rest;
    rest + [Placed(w, loc)]
  }

  /** Move without restacking; nothing happens to a window that is not mapped. */
  function RelocateElement(sp: Space, w: Window, loc: Point): (r: Space)
    ensures LocOf(r, w) == if LocOf(sp, w).Some? then Some(loc) else None
    ensures forall v :: v != w ==> LocOf(r, v) == LocOf(sp, v)
    ensures Order(r) == Order(sp)
  {
    if sp == [] then []
    else
      var n := |sp| - 1;
      var rest := RelocateElement(sp[..n], w, loc);
      var top := if sp[n].win == w then Placed(w, loc) else sp[n];
      assert (rest + [top])[..|rest|] == rest;
      rest + [top]
  }

  datatype Desk = Desk(space: Space, info: Info)

  /** The location a floating window has, or had when it was last hidden. */
  function Remembered(d: Desk, w: Window): Option<Point> {
    if LocOf(d.space, w).Some? then LocOf(d.space, w) else St(d.info, w).savedLoc
  }

  function FloatLoc(d: Desk, w: Window, fallback: Point): Point {
    if Remembered(d, w).Some? then Remembered(d, w).value else fallback
  }

  /** The five placement loops of `arrange`. */
  datatype Pass =
    | HidePass
    | TilePass(geoms: seq<Rect>, focused: Option<Window>, monocle: bool)
    | FloatPass(fallback: Point, focused: Option<Window>)
    | FullPass(geom: Rect, focused: Option<Window>)
    | ScratchPass(fallback: Point)

  /** What one iteration makes of the space for the `k`-th window of its list. */
  function TouchSpace(p: Pass, d: Desk, w: Window, k: nat): Space {
    var at := LocOf(d.space, w);
    match p
    case HidePass => UnmapElem(d.space, w)
    case TilePass(geoms, focused, monocle) =>
      if k >= |geoms| then d.space
      else if at.None? then MapElement(d.space, w, geoms[k].loc)
      else if at.value != geoms[k].loc then RelocateElement(d.space, w, geoms[k].loc)
      else if focused == Some(w) && monocle then MapElement(d.space, w, geoms[k].loc)
      else d.space
    case FloatPass(fallback, _) =>
      if St(d.info, w).scratchKey != NO_KEY then d.space else MapElement(d.space, w, FloatLoc(d, w, fallback))
    case FullPass(geom, _) => MapElement(d.space, w, geom.loc)
    case ScratchPass(fallback) => MapElement(d.space, w, FloatLoc(d, w, fallback))
  }

  /** Whether that iteration writes the window's cell. */
  predicate Writes(p: Pass, d: Desk, w: Window, k: nat) {
    match p
    case HidePass => St(d.info, w).isFloating && LocOf(d.space, w).Some?
    case TilePass(geoms, _, _) => k < |geoms|
    case FloatPass(_, _) => true
    case FullPass(_, _) => true
    case ScratchPass(_) => false
  }

  /** What it writes there; only X11 windows have their activation tracked outside the tiled pass. */
  function TouchState(p: Pass, d: Desk, w: Window, k: nat): WindowState {
    var s := St(d.info, w);
    match p
    case HidePass => s.(savedLoc := LocOf(d.space, w))
    case TilePass(geoms, focused, _) =>
      if k < |geoms| then s.(pendingGeom := Some(geoms[k]), lastFocused := focused == Some(w)) else s
    case FloatPass(_, focused) =>
      s.(pendingGeom := None, lastFocused := if s.isX11 then focused == Some(w) else s.lastFocused)
    case FullPass(geom, focused) =>
      s.(pendingGeom := Some(geom), lastFocused := if s.isX11 then focused == Some(w) else s.lastFocused)
    case ScratchPass(_) => s
  }

  function Touch(p: Pass, d: Desk, w: Window, k: nat): Desk {
    Desk(TouchSpace(p, d, w, k), if Writes(p, d, w, k) then d.info[w := TouchState(p, d, w, k)] else d.info)
  }

  function RunPass(p: Pass, d: Desk, ws: seq<Window>): Desk {
    if ws == [] then d
    else
      var n := |ws| - 1;
      Touch(p, RunPass(p, d, ws[..n]), ws[n], n)
  }

  lemma RunPassNext(p: Pass, d: Desk, ws: seq<Window>, k: nat)
    requires k < |ws|
    ensures RunPass(p, d, ws[..k + 1]) == Touch(p, RunPass(p, d, ws[..k]), ws[k], k)
  {
    assert ws[..k + 1][..k] == ws[..k];
  }

  // What a pass leaves alone, and what it guarantees.

  lemma TouchSpaceFrame(p: Pass, d: Desk, w: Window, k: nat)
    ensures forall v :: v != w ==> LocOf(TouchSpace(p, d, w, k), v) == LocOf(d.space, v)
    ensures !p.HidePass? && LocOf(d.space, w).Some? ==> LocOf(TouchSpace(p, d, w, k), w).Some?
  {
    hide LocOf, UnmapElem, MapElement, RelocateElement;
  }

  lemma TouchStateCore(p: Pass, d: Desk, w: Window, k: nat)
    ensures TouchState(p, d, w, k).Core() == St(d.info, w).Core()
  {
  }

  lemma TouchFrame(p: Pass, d: Desk, w: Window, k: nat)
    ensures var r := Touch(p, d, w, k);
            && SameCore(d.info, r.info)
            && (forall v :: v != w ==> LocOf(r.space, v) == LocOf(d.space, v) && St(r.info, v) == St(d.info, v))
            && (!p.HidePass? ==> forall v :: LocOf(d.space, v).Some? ==> LocOf(r.space, v).Some?)
  {
    hide TouchSpace, TouchState, LocOf, Writes, WindowState.Core;
    TouchSpaceFrame(p, d, w, k);
    TouchStateCore(p, d, w, k);
  }

  lemma {:induction false} PassFrame(p: Pass, d: Desk, ws: seq<Window>)
    ensures var r := RunPass(p, d, ws);
            && SameCore(d.info, r.info)
            && (forall v :: v !in ws ==> LocOf(r.space, v) == LocOf(d.space, v) && St(r.info, v) == St(d.info, v))
            && (!p.HidePass? ==> forall v :: LocOf(d.space, v).Some? ==> LocOf(r.space, v).Some?)
  {
    hide Touch, LocOf, WindowState.Core;
    if ws != [] {
      var n := |ws| - 1;
      PassFrame(p, d, ws[..n]);
      TouchFrame(p, RunPass(p, d, ws[..n]), ws[n], n);
      assert forall v :: v !in ws ==> v !in ws[..n] && v != ws[n];
    }
  }

  lemma {:induction false} HidePassUnmaps(d: Desk, ws: seq<Window>)
    ensures forall w :: w in ws ==> LocOf(RunPass(HidePass, d, ws).space, w) == None
  {
    if ws != [] {
      var n := |ws| - 1;
      HidePassUnmaps(d, ws[..n]);
      forall w | w in ws
        ensures LocOf(RunPass(HidePass, d, ws).space, w) == None
      {
        if w != ws[n] {
          assert w in ws[..n];
        }
      }
    }
  }

  /** Which windows of its list a pass is sure to map. */
  predicate Maps(p: Pass, s: WindowState, k: nat) {
    match p
    case HidePass => false
    case TilePass(geoms, _, _) => k < |geoms|
    case FloatPass(_, _) => s.scratchKey == NO_KEY
    case FullPass(_, _) => true
    case ScratchPass(_) => true
  }

  lemma TouchMaps(p: Pass, d: Desk, w: Window, k: nat)
    requires Maps(p, St(d.info, w), k)
    ensures LocOf(Touch(p, d, w, k).space, w).Some?
  {
    hide LocOf, UnmapElem, MapElement, RelocateElement;
  }

  lemma MapsCore(p: Pass, s: WindowState, t: WindowState, k: nat)
    requires s.Core() == t.Core()
    ensures Maps(p, s, k) == Maps(p, t, k)
  {
    assert s.scratchKey == s.Core().scratchKey && t.scratchKey == t.Core().scratchKey;
  }

  lemma {:induction false} PassMaps(p: Pass, d: Desk, ws: seq<Window>, k: nat)
    requires k < |ws| && Maps(p, St(d.info, ws[k]), k)
    ensures LocOf(RunPass(p, d, ws).space, ws[k]).Some?
    decreases |ws|
  {
    hide Touch, LocOf, WindowState.Core;
    var n := |ws| - 1;
    var m := RunPass(p, d, ws[..n]);
    if k < n {
      PassMaps(p, d, ws[..n], k);
      TouchFrame(p, m, ws[n], n);
    } else {
      PassFrame(p, d, ws[..n]);
      MapsCore(p, St(d.info, ws[n]), St(m.info, ws[n]), n);
      TouchMaps(p, m, ws[n], n);
    }
  }

  /** No pass that handles a floating window moves it once it has a location to return to. */
  lemma {:induction false} PassRemembers(p: Pass, d: Desk, ws: seq<Window>, w: Window)
    requires Remembered(d, w).Some? && St(d.info, w).isFloating
    requires p.TilePass? || p.FullPass? ==> w !in ws
    ensures Remembered(RunPass(p, d, ws), w) == Remembered(d, w)
  {
    if ws != [] {
      var n := |ws| - 1;
      var m := RunPass(p, d, ws[..n]);
      PassRemembers(p, d, ws[..n], w);
      PassFrame(p, d, ws[..n]);
      assert St(m.info, w).Core().isFloating == St(d.info, w).Core().isFloating;
      TouchFrame(p, m, ws[n], n);
    }
  }

  // Stacking order.

  /** The order without any of `ws`. */
  function Minus(order: seq<Window>, ws: seq<Window>): (r: seq<Window>)
    ensures forall w :: w in r <==> w in order && w !in ws
  {
    if ws == [] then order
    else
      var n := |ws| - 1;
      assert ws == ws[..n] + [ws[n]];
      Without(Minus(order, ws[..n]), ws[n])
  }

  lemma {:induction false} MinusConcat(a: seq<Window>, b: seq<Window>, ws: seq<Window>)
    ensures Minus(a + b, ws) == Minus(a, ws) + Minus(b, ws)
  {
    if ws != [] {
      var n := |ws| - 1;
      MinusConcat(a, b, ws[..n]);
      WithoutConcat(Minus(a, ws[..n]), Minus(b, ws[..n]), ws[n]);
    }
  }

  lemma {:induction false} MinusDisjoint(a: seq<Window>, ws: seq<Window>)
    requires forall w :: w in a ==> w !in ws
    ensures Minus(a, ws) == a
  {
    if ws != [] {
      var n := |ws| - 1;
      assert forall w :: w in ws[..n] ==> w in ws;
      MinusDisjoint(a, ws[..n]);
    }
  }

  /** A fullscreen or scratchpad pass lifts its whole list, in list order, above everything else. */
  lemma {:induction false} PassRaises(p: Pass, d: Desk, ws: seq<Window>)
    requires NoDup(ws) && (p.FullPass? || p.ScratchPass?)
    ensures Order(RunPass(p, d, ws).space) == Minus(Order(d.space), ws) + ws
  {
    if ws != [] {
      var n := |ws| - 1;
      var block, w := ws[..n], ws[n];
      assert ws == block + [w];
      PassRaises(p, d, block);
      calc {
        Order(RunPass(p, d, ws).space);
        { TouchRaises(p, RunPass(p, d, block), w, n); }
        Without(Order(RunPass(p, d, block).space), w) + [w];
        Without(Minus(Order(d.space), block) + block, w) + [w];
        { RaiseOne(Minus(Order(d.space), block), block, w); }
        Minus(Order(d.space), ws) + ws;
      }
    }
  }

  lemma TouchRaises(p: Pass, d: Desk, w: Window, k: nat)
    requires p.FullPass? || p.ScratchPass?
    ensures Order(Touch(p, d, w, k).space) == Without(Order(d.space), w) + [w]
  {
    hide LocOf, UnmapElem, MapElement, RelocateElement;
  }

  lemma RaiseOne(base: seq<Window>, block: seq<Window>, w: Window)
    requires NoDup(block + [w])
    ensures Without(base + block, w) + [w] == Without(base, w) + (block + [w])
  {
    assert (block + [w])[|block|] == w;
    assert forall i :: 0 <= i < |block| ==> (block + [w])[i] == block[i];
    assert w !in block;
    WithoutConcat(base, block, w);
    assert Without(base, w) + block + [w] == Without(base, w) + (block + [w]);
  }

  lemma TouchFloats(p: Pass, d: Desk, w: Window, k: nat)
    requires p.FloatPass?
    ensures Order(Touch(p, d, w, k).space)
            == if St(d.info, w).scratchKey == NO_KEY then Without(Order(d.space), w) + [w] else Order(d.space)
  {
    hide LocOf, UnmapElem, MapElement, RelocateElement;
  }

  /** The floating pass does the same with the windows that are not scratchpads. */
  lemma {:induction false} FloatPassRaises(p: Pass, d: Desk, ws: seq<Window>, tags: Mask)
    requires NoDup(ws) && p.FloatPass?
    requires forall w :: w in ws ==> Sat(Floating(tags), St(d.info, w))
    ensures var up := Select(Unkeyed(tags), d.info, ws);
            Order(RunPass(p, d, ws).space) == Minus(Order(d.space), up) + up
  {
    hide Touch, Order, LocOf, WindowState.Core;
    if ws != [] {
      var n := |ws| - 1;
      var init, w := ws[..n], ws[n];
      assert ws == init + [w];
      assert w in ws && w !in init;
      FloatPassRaises(p, d, init, tags);
      PassFrame(p, d, init);
      TouchFloats(p, RunPass(p, d, init), w, n);
      var up := Select(Unkeyed(tags), d.info, init);
      if St(d.info, w).scratchKey == NO_KEY {
        SelectNoDup(Unkeyed(tags), d.info, ws);
        RaiseOne(Minus(Order(d.space), up), up, w);
        assert (up + [w])[..|up|] == up;
      }
    }
  }
}
