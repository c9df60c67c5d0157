/** The order among the tiled windows of a monitor, and when the focused one is on top of them. */
module Stacking {
  import opened Sequences
  import opened Tags
  import opened Monitors
  import opened Windows
  import opened Desktop
  import opened Compositor
  import opened Arranging

  // What is below what, as the order is taken apart.

  lemma BelowSnoc(order: seq<Window>, x: Window, xs: seq<Window>, ys: seq<Window>)
    ensures AllBelow(order + [x], xs, ys)
            <==> AllBelow(order, xs, ys) && (x in xs ==> x !in ys && forall y :: y in order ==> y !in ys)
  {
    var all, n := order + [x], |order|;
    assert all[n] == x && forall i :: 0 <= i < n ==> all[i] == order[i];
    if AllBelow(all, xs, ys) {
      if x in xs {
        forall y | y in order
          ensures y !in ys
        {
          var j :| 0 <= j < n && order[j] == y;
          assert all[j] == y;
        }
      }
      forall i, j | 0 <= i < n && 0 <= j < n && order[i] in xs && order[j] in ys
        ensures i < j
      {
        assert all[i] in xs && all[j] in ys;
      }
    }
    if AllBelow(order, xs, ys) && (x in xs ==> x !in ys && forall y :: y in order ==> y !in ys) {
      forall i, j | 0 <= i <= n && 0 <= j <= n && all[i] in xs && all[j] in ys
        ensures i < j
      {
        assert j < n ==> all[j] == order[j] && order[j] in order;
        assert i < n ==> all[i] == order[i];
      }
    }
  }

  /** Taking out what is in neither list changes nothing. */
  lemma {:induction false} BelowWithout(order: seq<Window>, x: Window, xs: seq<Window>, ys: seq<Window>)
    requires x !in xs && x !in ys
    ensures AllBelow(Without(order, x), xs, ys) <==> AllBelow(order, xs, ys)
  {
    hide Without, AllBelow;
    if order == [] {
      assert Without(order, x) == [];
    } else {
      var n := |order| - 1;
      var init, y := order[..n], order[n];
      assert order == init + [y];
      BelowWithout(init, x, xs, ys);
      WithoutSnoc(init, y, x);
      BelowSnoc(init, y, xs, ys);
      BelowSnoc(Without(init, x), y, xs, ys);
    }
  }

  lemma {:induction false} BelowMinus(order: seq<Window>, ws: seq<Window>, xs: seq<Window>, ys: seq<Window>)
    requires forall w :: w in ws ==> w !in xs && w !in ys
    ensures AllBelow(Minus(order, ws), xs, ys) <==> AllBelow(order, xs, ys)
  {
    hide AllBelow;
    if ws != [] {
      var n := |ws| - 1;
      assert ws[n] in ws && forall w :: w in ws[..n] ==> w in ws;
      BelowMinus(order, ws[..n], xs, ys);
      BelowWithout(Minus(order, ws[..n]), ws[n], xs, ys);
    }
  }

  lemma {:induction false} BelowUnder(order: seq<Window>, block: seq<Window>, xs: seq<Window>, ys: seq<Window>)
    requires forall w :: w in block ==> w !in xs && w !in ys
    ensures AllBelow(order + block, xs, ys) <==> AllBelow(order, xs, ys)
    decreases |block|
  {
    hide AllBelow;
    if block == [] {
      assert order + block == order;
    } else {
      var n := |block| - 1;
      var init := block[..n];
      assert block == init + [block[n]];
      assert forall w :: w in init ==> w in block;
      BelowUnder(order, init, xs, ys);
      ConcatAssociative(order, init, [block[n]]);
      assert order + block == order + init + [block[n]];
      BelowSnocOther(order + init, block[n], xs, ys);
    }
  }

  lemma BelowSnocOther(order: seq<Window>, x: Window, xs: seq<Window>, ys: seq<Window>)
    requires x !in xs && x !in ys
    ensures AllBelow(order + [x], xs, ys) <==> AllBelow(order, xs, ys)
  {
    hide AllBelow;
    BelowSnoc(order, x, xs, ys);
  }

  /** Everything else in `ws` that is in the order is below `f`. */
  ghost predicate OnTop(order: seq<Window>, ws: seq<Window>, f: Window) {
    AllBelow(order, Without(ws, f), [f])
  }

  /** When the windows of `lifted` are re-mapped one by one, one of them ends on top exactly if it comes last. */
  lemma LiftedOnTop(rest: seq<Window>, lifted: seq<Window>, ws: seq<Window>, f: Window)
    requires NoDup(lifted) && lifted != [] && f in lifted + rest
    requires forall w :: w in lifted ==> w in ws && w !in rest
    ensures OnTop(rest + lifted, ws, f) <==> lifted[|lifted| - 1] == f
  {
    hide Without;
    var order, n := rest + lifted, |rest| + |lifted| - 1;
    var last := lifted[|lifted| - 1];
    assert order[n] == last;
    if last == f {
      assert forall j :: 0 <= j < n ==> order[j] != f by { LastIsUnique(rest, lifted); }
    } else {
      assert last in Without(ws, f);
      var j :| 0 <= j < |lifted + rest| && (lifted + rest)[j] == f;
      var k := if j < |lifted| then |rest| + j else j - |lifted|;
      assert order[k] == f;
    }
  }

  lemma LastIsUnique(rest: seq<Window>, lifted: seq<Window>)
    requires NoDup(lifted) && lifted != [] && lifted[|lifted| - 1] !in rest
    ensures forall j :: 0 <= j < |rest| + |lifted| - 1 ==> (rest + lifted)[j] != lifted[|lifted| - 1]
  {
    forall j | 0 <= j < |rest| + |lifted| - 1
      ensures (rest + lifted)[j] != lifted[|lifted| - 1]
    {
      if j < |rest| {
        assert (rest + lifted)[j] in rest;
      } else {
        assert (rest + lifted)[j] == lifted[j - |rest|];
      }
    }
  }

  // The tiling loop.

  /** What the loop re-maps: a window that is not mapped, and in monocle the focused one if it is in place already. */
  predicate Lifts(p: Pass, d: Desk, w: Window, k: nat)
    requires p.TilePass? && k < |p.geoms|
  {
    LocOf(d.space, w) == None || (LocOf(d.space, w) == Some(p.geoms[k].loc) && p.focused == Some(w) && p.monocle)
  }

  function Lifted(p: Pass, d: Desk, ws: seq<Window>): (r: seq<Window>)
    requires p.TilePass? && |ws| <= |p.geoms|
    ensures forall w :: w in r ==> w in ws
  {
    if ws == [] then []
    else
      var n := |ws| - 1;
      assert ws == ws[..n] + [ws[n]];
      if Lifts(p, d, ws[n], n) then Lifted(p, d, ws[..n]) + [ws[n]] else Lifted(p, d, ws[..n])
  }

  lemma TouchLifts(p: Pass, d: Desk, w: Window, k: nat)
    requires p.TilePass? && k < |p.geoms|
    ensures Order(Touch(p, d, w, k).space) == if Lifts(p, d, w, k) then Without(Order(d.space), w) + [w] else Order(d.space)
  {
    hide LocOf, UnmapElem, MapElement, RelocateElement;
  }

  lemma {:induction false} LiftedNoDup(p: Pass, d: Desk, ws: seq<Window>)
    requires p.TilePass? && |ws| <= |p.geoms| && NoDup(ws)
    ensures NoDup(Lifted(p, d, ws))
  {
    hide Lifts;
    if ws != [] {
      var n := |ws| - 1;
      LiftedNoDup(p, d, ws[..n]);
      NotBefore(ws, n);
    }
  }

  /** The loop lifts those windows, in tiling order, above everything else, and leaves the rest of the order alone. */
  lemma {:induction false} TilePassLifts(p: Pass, d: Desk, ws: seq<Window>)
    requires p.TilePass? && |ws| <= |p.geoms| && NoDup(ws)
    ensures Order(RunPass(p, d, ws).space) == Minus(Order(d.space), Lifted(p, d, ws)) + Lifted(p, d, ws)
  {
    hide Touch, Order, LocOf, WindowState.Core;
    if ws != [] {
      var n := |ws| - 1;
      var init, w := ws[..n], ws[n];
      assert ws == init + [w];
      NotBefore(ws, n);
      TilePassLifts(p, d, init);
      PassFrame(p, d, init);
      var m := RunPass(p, d, init);
      TouchLifts(p, m, w, n);
      var up := Lifted(p, d, init);
      if Lifts(p, d, w, n) {
        LiftedNoDup(p, d, ws);
        RaiseOne(Minus(Order(d.space), up), up, w);
        assert (up + [w])[..|up|] == up;
      }
    }
  }

  /** Nothing is lifted exactly when no window of the list is. */
  lemma {:induction false} LiftedNone(p: Pass, d: Desk, ws: seq<Window>)
    requires p.TilePass? && |ws| <= |p.geoms|
    ensures Lifted(p, d, ws) == [] <==> forall j :: 0 <= j < |ws| ==> !Lifts(p, d, ws[j], j)
  {
    hide Lifts;
    if ws != [] {
      LiftedNone(p, d, ws[..|ws| - 1]);
    }
  }

  /** The last one lifted is the last one in tiling order that is. */
  lemma {:induction false} LiftedLast(p: Pass, d: Desk, ws: seq<Window>, k: nat)
    requires p.TilePass? && |ws| <= |p.geoms| && NoDup(ws) && k < |ws|
    ensures var r := Lifted(p, d, ws);
            && (ws[k] in r <==> Lifts(p, d, ws[k], k))
            && (r != [] && r[|r| - 1] == ws[k]
                <==> Lifts(p, d, ws[k], k) && forall j :: k < j < |ws| ==> !Lifts(p, d, ws[j], j))
  {
    hide Lifts;
    var n := |ws| - 1;
    NotBefore(ws, n);
    if k < n {
      LiftedLast(p, d, ws[..n], k);
      assert ws[k] != ws[n];
    } else {
      assert ws[n] !in Lifted(p, d, ws[..n]);
      var r := Lifted(p, d, ws[..n]);
      assert r != [] ==> r[|r| - 1] in r;
    }
  }

  lemma {:induction false} HidePassOrder(d: Desk, ws: seq<Window>)
    ensures Order(RunPass(HidePass, d, ws).space) == Minus(Order(d.space), ws)
  {
    hide LocOf, Order;
    if ws != [] {
      HidePassOrder(d, ws[..|ws| - 1]);
    }
  }

  // The focused window.

  lemma TiledParts(cfg: Config, s: State, i: nat)
    requires cfg.Sane() && NoDup(s.windows) && i < |s.monitors|
    ensures var p := TilePassOf(cfg, s, i);
            && p.TilePass? && |p.geoms| == |TiledOf(s, i)| && p.focused == FocusedOn(s, i)
            && p.monocle == (ArrangedMonitor(cfg, s, i).Kind(cfg) == Monocle)
            && NoDup(TiledOf(s, i))
    ensures forall w :: w in TiledOf(s, i) ==> LocOf(HiddenDesk(s).space, w) == LocOf(s.space, w) && w !in HiddenOf(s)
  {
    hide Select, RunPass, LocOf, ArrangedMonitor, FocusedOn, AllVisible, Meets, WindowState.Core;
    SelectNoDup(Tiled(s.monitors[i].Tags()), s.info, s.windows);
    PassFrame(HidePass, Desk(s.space, s.info), HiddenOf(s));
    forall w | w in TiledOf(s, i)
      ensures w !in HiddenOf(s)
    {
      assert Sat(Tiled(s.monitors[i].Tags()), St(s.info, w));
      MeetsMonotone(St(s.info, w).tags, s.monitors[i].Tags(), AllVisible(s.monitors));
    }
  }

  /** Among the tiled windows, what lies above what is decided by the tiling loop. */
  lemma OnTopOfTiled(cfg: Config, s: State, i: nat, f: Window)
    requires cfg.Sane() && NoDup(s.windows) && i < |s.monitors| && f in TiledOf(s, i)
    ensures OnTop(Order(Arrange(cfg, s, i).space), TiledOf(s, i), f) <==> OnTop(Order(TiledDesk(cfg, s, i).space), TiledOf(s, i), f)
  {
    hide Arrange, Select, Order, TiledDesk, AllBelow, Minus, Without, FullscreenOf, ScratchOf;
    var base := ArrangeStacks(cfg, s, i);
    var up, full, scratch := Select(Unkeyed(s.monitors[i].Tags()), s.info, s.windows), FullscreenOf(s, i), ScratchOf(s, i);
    var order := Order(TiledDesk(cfg, s, i).space);
    var xs, ys := Without(TiledOf(s, i), f), [f];
    assert forall w :: w in xs || w in ys ==> w in base;
    BelowUnder(base + up + full, scratch, xs, ys);
    BelowUnder(base + up, full, xs, ys);
    BelowUnder(base, up, xs, ys);
    BelowMinus(Minus(Minus(order, up), full), scratch, xs, ys);
    BelowMinus(Minus(order, up), full, xs, ys);
    BelowMinus(order, up, xs, ys);
  }

  /**
   Exactly when the focused tiled window ends on top of the others.  It does if it is re-mapped itself, being
   off the screen or, in monocle, in place already, and no later window in tiling order is off the screen; or if
   nothing is re-mapped and it was on top before.
   */
  lemma FocusedOnTopIff(cfg: Config, s: State, i: nat, k: nat)
    requires cfg.Sane() && NoDup(s.windows) && i < |s.monitors| && k < |TiledOf(s, i)|
    requires FocusedOn(s, i) == Some(TiledOf(s, i)[k])
    ensures var tiled := TiledOf(s, i);
            var m := ArrangedMonitor(cfg, s, i);
            var geoms := cfg.layout(m, Cfacts(s.info, tiled));
            var at := LocOf(s.space, tiled[k]);
            && |geoms| == |tiled|
            && (OnTop(Order(Arrange(cfg, s, i).space), tiled, tiled[k]) <==>
                  if at == None || (at == Some(geoms[k].loc) && m.Kind(cfg) == Monocle)
                  then forall j :: k < j < |tiled| ==> LocOf(s.space, tiled[j]).Some?
                  else (forall j :: 0 <= j < |tiled| ==> LocOf(s.space, tiled[j]).Some?)
                       && OnTop(Order(s.space), tiled, tiled[k]))
  {
    hide Arrange, Select, Order, LocOf, RunPass, AllBelow, Minus, ArrangedMonitor, FocusedOn, OnTop, HiddenDesk, HiddenOf, NoDup;
    var tiled, p, d := TiledOf(s, i), TilePassOf(cfg, s, i), HiddenDesk(s);
    var f := tiled[k];
    TiledParts(cfg, s, i);
    OnTopOfTiled(cfg, s, i, f);
    assert TiledDesk(cfg, s, i) == RunPass(p, d, tiled);
    TilePassLifts(p, d, tiled);
    LiftedLast(p, d, tiled, k);
    LiftedNone(p, d, tiled);
    LiftedNoDup(p, d, tiled);
    forall j | 0 <= j < |tiled|
      ensures Lifts(p, d, tiled[j], j) <==> LocOf(s.space, tiled[j]) == None || (j == k && LocOf(s.space, f) == Some(p.geoms[k].loc) && p.monocle)
    {
      assert tiled[j] in tiled;
      if j != k {
        NoDupAt(tiled, j, k);
      }
    }
    var r := Lifted(p, d, tiled);
    if r == [] {
      NothingLifted(s, i, f);
      assert Minus(Order(d.space), []) + [] == Order(d.space) by { MinusNone(Order(d.space)); }
    } else {
      TiledIsMapped(cfg, s, i, f);
      LiftedOnTop(Minus(Order(d.space), r), r, tiled, f);
    }
  }

  lemma NoDupAt(ws: seq<Window>, j: nat, k: nat)
    requires NoDup(ws) && j < |ws| && k < |ws| && j != k
    ensures ws[j] != ws[k]
  {
  }

  lemma MinusNone(order: seq<Window>)
    ensures Minus(order, []) + [] == order
  {
  }

  lemma NothingLifted(s: State, i: nat, f: Window)
    requires i < |s.monitors| && f in TiledOf(s, i)
    requires forall w :: w in TiledOf(s, i) ==> w !in HiddenOf(s)
    ensures OnTop(Order(HiddenDesk(s).space), TiledOf(s, i), f) <==> OnTop(Order(s.space), TiledOf(s, i), f)
  {
    hide Order, Select, Minus, AllBelow, Without, RunPass, AllVisible;
    HidePassOrder(Desk(s.space, s.info), HiddenOf(s));
    BelowMinus(Order(s.space), HiddenOf(s), Without(TiledOf(s, i), f), [f]);
  }
}
