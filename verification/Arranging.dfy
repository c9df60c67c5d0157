/** What is mapped, where, and in which stacking order once monitors have been arranged. */
module Arranging {
  import opened Sequences
  import opened Tags
  import opened Monitors
  import opened Windows
  import opened Desktop
  import opened Compositor
  import opened Frames

  // Visibility.

  predicate Shown(s: State, w: Window) {
    Meets(St(s.info, w).tags, AllVisible(s.monitors))
  }

  /** A window `arrange` places: its display kind is settled. */
  predicate Placeable(st: WindowState) {
    st.isFloating || st.isFullscreen || st.rulesApplied
  }

  lemma MeetsMonotone(tags: Mask, part: Mask, all: Mask)
    requires part <= all && Meets(tags, part)
    ensures Meets(tags, all)
  {
    var t :| t in tags * part;
    assert t in tags * all;
  }

  lemma Position(ws: seq<Window>, w: Window) returns (k: nat)
    requires w in ws
    ensures k < |ws| && ws[k] == w
  {
    k :| k < |ws| && ws[k] == w;
  }

  /** The passes after the first never unmap anything. */
  lemma LaterPassesKeepMapped(cfg: Config, s: State, i: nat, w: Window)
    requires i < |s.monitors|
    ensures LocOf(HiddenDesk(s).space, w).Some? ==> LocOf(TiledDesk(cfg, s, i).space, w).Some?
    ensures LocOf(TiledDesk(cfg, s, i).space, w).Some? ==> LocOf(FloatingDesk(cfg, s, i).space, w).Some?
    ensures LocOf(FloatingDesk(cfg, s, i).space, w).Some? ==> LocOf(FullscreenDesk(cfg, s, i).space, w).Some?
    ensures LocOf(FullscreenDesk(cfg, s, i).space, w).Some? ==> LocOf(ArrangedDesk(cfg, s, i).space, w).Some?
  {
    hide RunPass, Select, ArrangedMonitor, FocusedOn, LocOf;
    var loc, area, focused := s.monitors[i].work.loc, s.monitors[i].area, FocusedOn(s, i);
    PassFrame(TilePassOf(cfg, s, i), HiddenDesk(s), TiledOf(s, i));
    PassFrame(FloatPass(loc, focused), TiledDesk(cfg, s, i), FloatingOf(s, i));
    PassFrame(FullPass(area, focused), FloatingDesk(cfg, s, i), FullscreenOf(s, i));
    PassFrame(ScratchPass(loc), FullscreenDesk(cfg, s, i), ScratchOf(s, i));
  }

  lemma HiddenEndsUnmapped(cfg: Config, s: State, i: nat, w: Window)
    requires i < |s.monitors| && w in s.windows && !Shown(s, w)
    ensures LocOf(Arrange(cfg, s, i).space, w) == None
  {
    hide RunPass, Select, ArrangedMonitor, FocusedOn, LocOf, WindowState.Core;
    HidePassUnmaps(Desk(s.space, s.info), HiddenOf(s));
    assert w in HiddenOf(s);
    if Meets(St(s.info, w).tags, s.monitors[i].Tags()) {
      MeetsMonotone(St(s.info, w).tags, s.monitors[i].Tags(), AllVisible(s.monitors));
    }
    var loc, area, focused := s.monitors[i].work.loc, s.monitors[i].area, FocusedOn(s, i);
    PassFrame(TilePassOf(cfg, s, i), HiddenDesk(s), TiledOf(s, i));
    PassFrame(FloatPass(loc, focused), TiledDesk(cfg, s, i), FloatingOf(s, i));
    PassFrame(FullPass(area, focused), FloatingDesk(cfg, s, i), FullscreenOf(s, i));
    PassFrame(ScratchPass(loc), FullscreenDesk(cfg, s, i), ScratchOf(s, i));
  }

  lemma ShownStaysMapped(cfg: Config, s: State, i: nat, w: Window)
    requires Shown(s, w) && LocOf(s.space, w).Some?
    ensures LocOf(Arrange(cfg, s, i).space, w).Some?
  {
    if i < |s.monitors| {
      PassFrame(HidePass, Desk(s.space, s.info), HiddenOf(s));
      LaterPassesKeepMapped(cfg, s, i, w);
    }
  }

  lemma OnMonitorGetsMapped(cfg: Config, s: State, i: nat, w: Window)
    requires cfg.Sane() && i < |s.monitors| && w in s.windows
    requires Meets(St(s.info, w).tags, s.monitors[i].Tags()) && Placeable(St(s.info, w))
    ensures LocOf(ArrangedDesk(cfg, s, i).space, w).Some?
    ensures LocOf(Arrange(cfg, s, i).space, w).Some?
  {
    hide RunPass, Select, ArrangedMonitor, FocusedOn, LocOf, WindowState.Core;
    LaterPassesKeepMapped(cfg, s, i, w);
    TiledDeskCore(cfg, s, i);
    FullscreenDeskCore(cfg, s, i);
    var st := St(s.info, w);
    var loc, area, focused := s.monitors[i].work.loc, s.monitors[i].area, FocusedOn(s, i);
    if st.isFullscreen {
      var k := Position(FullscreenOf(s, i), w);
      PassMaps(FullPass(area, focused), FloatingDesk(cfg, s, i), FullscreenOf(s, i), k);
    } else if st.isFloating && st.scratchKey != NO_KEY {
      var k := Position(ScratchOf(s, i), w);
      PassMaps(ScratchPass(loc), FullscreenDesk(cfg, s, i), ScratchOf(s, i), k);
    } else if st.isFloating {
      var k := Position(FloatingOf(s, i), w);
      var p := FloatPass(loc, focused);
      MapsCore(p, st, St(TiledDesk(cfg, s, i).info, w), k);
      PassMaps(p, TiledDesk(cfg, s, i), FloatingOf(s, i), k);
    } else {
      var k := Position(TiledOf(s, i), w);
      PassMaps(TilePassOf(cfg, s, i), HiddenDesk(s), TiledOf(s, i), k);
    }
  }

  predicate ShownByFirst(s: State, w: Window, k: nat)
    requires k <= |s.monitors|
  {
    exists j :: 0 <= j < k && Meets(St(s.info, w).tags, s.monitors[j].Tags())
  }

  /** What the first `k` monitors have settled for `w`, in terms of the state before. */
  predicate PlacedFor(s: State, sp: Space, w: Window, k: nat)
    requires k <= |s.monitors|
  {
    && (!Shown(s, w) && k > 0 ==> LocOf(sp, w) == None)
    && (Placeable(St(s.info, w)) && ShownByFirst(s, w, k) ==> LocOf(sp, w).Some?)
  }

  lemma FramedWindow(cfg: Config, s: State, t: State, w: Window)
    requires Framed(cfg, s, t)
    ensures St(t.info, w).tags == St(s.info, w).tags
    ensures Placeable(St(t.info, w)) == Placeable(St(s.info, w))
    ensures Shown(t, w) == Shown(s, w)
  {
    FramedTags(cfg, s, t);
    var x, y := St(s.info, w).Core(), St(t.info, w).Core();
    assert x == y && x.tags == St(s.info, w).tags && y.tags == St(t.info, w).tags;
    assert Placeable(x) == Placeable(St(s.info, w)) && Placeable(y) == Placeable(St(t.info, w));
  }

  lemma HiddenNext(cfg: Config, s: State, t: State, i: nat, w: Window)
    requires i < |s.monitors| && w in s.windows && Framed(cfg, s, t) && !Shown(s, w)
    ensures LocOf(Arrange(cfg, t, i).space, w) == None
  {
    hide Arrange, LocOf, Shown, FramedMonitors, SameCore;
    FramedWindow(cfg, s, t, w);
    assert |t.monitors| == |s.monitors| by { assert FramedMonitors(cfg, s.monitors, t.monitors); FramedLength(cfg, s, t); }
    HiddenEndsUnmapped(cfg, t, i, w);
  }

  lemma FramedLength(cfg: Config, s: State, t: State)
    requires Framed(cfg, s, t)
    ensures |t.monitors| == |s.monitors|
  {
  }

  lemma ShownNext(cfg: Config, s: State, t: State, i: nat, j: nat, w: Window)
    requires cfg.Sane() && i < |s.monitors| && w in s.windows && Framed(cfg, s, t)
    requires Placeable(St(s.info, w)) && j <= i && Meets(St(s.info, w).tags, s.monitors[j].Tags())
    requires j < i ==> LocOf(t.space, w).Some?
    ensures LocOf(Arrange(cfg, t, i).space, w).Some?
  {
    hide Arrange, LocOf, Placeable, AllVisible, SameCore, MonitorData.Tags, MonitorData.Core, Meets;
    FramedLength(cfg, s, t);
    FramedTags(cfg, s, t);
    FramedWindow(cfg, s, t, w);
    if j == i {
      OnMonitorGetsMapped(cfg, t, i, w);
    } else {
      MeetsMonotone(St(s.info, w).tags, s.monitors[j].Tags(), AllVisible(s.monitors));
      ShownStaysMapped(cfg, t, i, w);
    }
  }

  lemma ArrangePlacesNext(cfg: Config, s: State, t: State, k: nat, w: Window)
    requires cfg.Sane() && 0 < k <= |s.monitors| && w in s.windows
    requires Framed(cfg, s, t) && PlacedFor(s, t.space, w, k - 1)
    ensures PlacedFor(s, Arrange(cfg, t, k - 1).space, w, k)
  {
    hide Arrange, LocOf, Placeable, Shown, Framed, Meets;
    if !Shown(s, w) {
      HiddenNext(cfg, s, t, k - 1, w);
    }
    if Placeable(St(s.info, w)) && ShownByFirst(s, w, k) {
      var j :| 0 <= j < k && Meets(St(s.info, w).tags, s.monitors[j].Tags());
      assert j < k - 1 ==> ShownByFirst(s, w, k - 1);
      ShownNext(cfg, s, t, k - 1, j, w);
    }
  }

  lemma {:induction false} ArrangeUpToPlaces(cfg: Config, s: State, k: nat, w: Window)
    requires cfg.Sane() && k <= |s.monitors| && w in s.windows
    ensures PlacedFor(s, ArrangeUpTo(cfg, s, k).space, w, k)
  {
    hide Arrange, Framed;
    if k > 0 {
      ArrangeUpToPlaces(cfg, s, k - 1, w);
      ArrangeUpToFramed(cfg, s, k - 1);
      ArrangePlacesNext(cfg, s, ArrangeUpTo(cfg, s, k - 1), k, w);
    }
  }

  lemma {:induction false} ShownOnSome(ms: seq<MonitorData>, tags: Mask)
    ensures Meets(tags, AllVisible(ms)) <==> exists j :: 0 <= j < |ms| && Meets(tags, ms[j].Tags())
  {
    if ms != [] {
      var n := |ms| - 1;
      ShownOnSome(ms[..n], tags);
      assert tags * AllVisible(ms) == tags * AllVisible(ms[..n]) + tags * ms[n].Tags();
      if Meets(tags, AllVisible(ms[..n])) {
        var j :| 0 <= j < n && Meets(tags, ms[..n][j].Tags());
        assert ms[j] == ms[..n][j];
      }
      if j :| 0 <= j < |ms| && Meets(tags, ms[j].Tags()) {
        if j < n {
          assert ms[..n][j] == ms[j];
        }
      }
    }
  }

  /**
   After `arrange_all`, from any state: a managed window none of whose tags is shown is unmapped, and
   one that is shown and floating, fullscreen or past its rules is mapped.
   */
  lemma ArrangeAllShowsExactly(cfg: Config, s: State, w: Window)
    requires cfg.Sane() && s.monitors != [] && w in s.windows
    ensures !Shown(s, w) ==> LocOf(ArrangeAll(cfg, s).space, w) == None
    ensures Shown(s, w) && Placeable(St(s.info, w)) ==> LocOf(ArrangeAll(cfg, s).space, w).Some?
  {
    hide Framed, ArrangeUpTo;
    var t := s.(monitors := Refits(s.monitors));
    RefitFramed(cfg, s);
    FramedWindow(cfg, s, t, w);
    ArrangeUpToPlaces(cfg, t, |t.monitors|, w);
    ShownOnSome(t.monitors, St(t.info, w).tags);
  }

  // Stacking.

  /** Wherever both occur, everything in `xs` is below everything in `ys`. */
  ghost predicate AllBelow(order: seq<Window>, xs: seq<Window>, ys: seq<Window>) {
    forall i, j :: 0 <= i < |order| && 0 <= j < |order| && order[i] in xs && order[j] in ys ==> i < j
  }

  lemma {:induction false} SelectWithin(q: Query, p: Query, info: Info, ws: seq<Window>)
    requires forall st :: Sat(q, st) ==> Sat(p, st)
    ensures Select(q, info, Select(p, info, ws)) == Select(q, info, ws)
  {
    hide Sat, Select;
    if ws == [] {
      assert Select(p, info, ws) == [] && Select(q, info, ws) == [];
    } else {
      var n := |ws| - 1;
      var init, w := ws[..n], ws[n];
      assert ws == init + [w];
      SelectWithin(q, p, info, init);
      SelectSnoc(p, info, init, w);
      SelectSnoc(q, info, init, w);
      SelectSnoc(q, info, Select(p, info, init), w);
      assert Sat(q, St(info, w)) ==> Sat(p, St(info, w));
    }
  }

  lemma FloatingRaised(cfg: Config, s: State, i: nat)
    requires NoDup(s.windows) && i < |s.monitors|
    ensures var up := Select(Unkeyed(s.monitors[i].Tags()), s.info, s.windows);
            Order(FloatingDesk(cfg, s, i).space) == Minus(Order(TiledDesk(cfg, s, i).space), up) + up
  {
    var tags := s.monitors[i].Tags();
    var d := TiledDesk(cfg, s, i);
    TiledDeskCore(cfg, s, i);
    SelectNoDup(Floating(tags), s.info, s.windows);
    forall w | w in FloatingOf(s, i)
      ensures Sat(Floating(tags), St(d.info, w))
    {
      SatCore(Floating(tags), St(s.info, w), St(d.info, w));
    }
    FloatPassRaises(FloatPass(s.monitors[i].work.loc, FocusedOn(s, i)), d, FloatingOf(s, i), tags);
    SelectCore(Unkeyed(tags), s.info, d.info, FloatingOf(s, i));
    SelectWithin(Unkeyed(tags), Floating(tags), s.info, s.windows);
  }

  /**
   `arrange(i)` leaves the stack as: everything else (the tiled windows among it), then the floating
   windows, then the fullscreen ones, then the scratchpads, the last three each in tiling order.
   */
  lemma ArrangeStacks(cfg: Config, s: State, i: nat) returns (base: seq<Window>)
    requires cfg.Sane() && NoDup(s.windows) && i < |s.monitors|
    ensures var up := Select(Unkeyed(s.monitors[i].Tags()), s.info, s.windows);
            && Order(Arrange(cfg, s, i).space) == base + up + FullscreenOf(s, i) + ScratchOf(s, i)
            && base == Minus(Minus(Minus(Order(TiledDesk(cfg, s, i).space), up), FullscreenOf(s, i)), ScratchOf(s, i))
            && (forall w :: w in TiledOf(s, i) ==> w in base)
            && (forall w :: w in base ==> w !in up && w !in FullscreenOf(s, i) && w !in ScratchOf(s, i))
  {
    hide RunPass, Select, LocOf, Minus, Order, FloatingDesk, TiledDesk, ArrangedMonitor, FocusedOn;
    var tags := s.monitors[i].Tags();
    var up, full, scratch := Select(Unkeyed(tags), s.info, s.windows), FullscreenOf(s, i), ScratchOf(s, i);
    FloatingRaised(cfg, s, i);
    SelectNoDup(Fullscreen(tags), s.info, s.windows);
    SelectNoDup(Scratch(tags), s.info, s.windows);
    PassRaises(FullPass(s.monitors[i].area, FocusedOn(s, i)), FloatingDesk(cfg, s, i), full);
    PassRaises(ScratchPass(s.monitors[i].work.loc), FullscreenDesk(cfg, s, i), scratch);
    var tiledOrder := Order(TiledDesk(cfg, s, i).space);
    base := Minus(Minus(Minus(tiledOrder, up), full), scratch);
    StackBlocks(Minus(tiledOrder, up), up, full, scratch);
    forall w | w in TiledOf(s, i)
      ensures w in base
    {
      TiledIsMapped(cfg, s, i, w);
    }
  }

  lemma TiledIsMapped(cfg: Config, s: State, i: nat, w: Window)
    requires cfg.Sane() && i < |s.monitors| && w in TiledOf(s, i)
    ensures w in Order(TiledDesk(cfg, s, i).space)
  {
    hide RunPass, Select, LocOf;
    var k := Position(TiledOf(s, i), w);
    PassMaps(TilePassOf(cfg, s, i), HiddenDesk(s), TiledOf(s, i), k);
  }

  lemma StackBlocks(rest: seq<Window>, up: seq<Window>, full: seq<Window>, scratch: seq<Window>)
    requires forall w :: w in up ==> w !in full && w !in scratch
    requires forall w :: w in full ==> w !in scratch
    ensures Minus(Minus(rest + up, full) + full, scratch) + scratch
            == Minus(Minus(rest, full), scratch) + up + full + scratch
  {
    MinusConcat(rest, up, full);
    MinusDisjoint(up, full);
    MinusConcat(Minus(rest, full) + up, full, scratch);
    MinusConcat(Minus(rest, full), up, scratch);
    MinusDisjoint(up, scratch);
    MinusDisjoint(full, scratch);
  }

  lemma BlocksAreOrdered(a: seq<Window>, b: seq<Window>, c: seq<Window>, d: seq<Window>)
    requires forall w :: w in a ==> w !in b && w !in c && w !in d
    requires forall w :: w in b ==> w !in c && w !in d
    requires forall w :: w in c ==> w !in d
    ensures AllBelow(a + b + c + d, a, b) && AllBelow(a + b + c + d, b, c) && AllBelow(a + b + c + d, c, d)
  {
    var order := a + b + c + d;
    forall i | 0 <= i < |order|
      ensures order[i] in a <==> i < |a|
      ensures order[i] in b <==> |a| <= i < |a| + |b|
      ensures order[i] in c <==> |a| + |b| <= i < |a| + |b| + |c|
      ensures order[i] in d <==> |a| + |b| + |c| <= i
    {
      if i < |a| {
        assert order[i] == a[i];
      } else if i < |a| + |b| {
        assert order[i] == b[i - |a|];
      } else if i < |a| + |b| + |c| {
        assert order[i] == c[i - |a| - |b|];
      } else {
        assert order[i] == d[i - |a| - |b| - |c|];
      }
    }
  }

  /** Tiled below floating below fullscreen below scratchpads, whatever the order was before. */
  lemma ArrangeOrders(cfg: Config, s: State, i: nat)
    requires cfg.Sane() && NoDup(s.windows) && i < |s.monitors|
    ensures var order := Order(Arrange(cfg, s, i).space);
            var up := Select(Unkeyed(s.monitors[i].Tags()), s.info, s.windows);
            && AllBelow(order, TiledOf(s, i), up)
            && AllBelow(order, up, FullscreenOf(s, i))
            && AllBelow(order, FullscreenOf(s, i), ScratchOf(s, i))
  {
    hide Arrange, Select, Order, Minus, AllBelow, TiledDesk;
    var base := ArrangeStacks(cfg, s, i);
    var up := Select(Unkeyed(s.monitors[i].Tags()), s.info, s.windows);
    BlocksAreOrdered(base, up, FullscreenOf(s, i), ScratchOf(s, i));
    BelowFewer(Order(Arrange(cfg, s, i).space), TiledOf(s, i), base, up);
  }

  lemma BelowFewer(order: seq<Window>, few: seq<Window>, xs: seq<Window>, ys: seq<Window>)
    requires AllBelow(order, xs, ys) && forall w :: w in few ==> w in xs
    ensures AllBelow(order, few, ys)
  {
  }

  // Locations of floating windows.

  /** A floating window with a location, or one to return to. */
  ghost predicate Resting(s: State, w: Window, loc: Point) {
    St(s.info, w).isFloating && !St(s.info, w).isFullscreen && Remembered(Desk(s.space, s.info), w) == Some(loc)
  }

  /** A managed one that no centring is going to move. */
  ghost predicate Settled(s: State, w: Window, loc: Point) {
    && w in s.windows && w !in s.popups
    && !St(s.info, w).needsCentering && St(s.info, w).rulesApplied
    && Resting(s, w, loc)
  }

  lemma ArrangedDeskRemembers(cfg: Config, s: State, i: nat, w: Window)
    requires i < |s.monitors|
    requires St(s.info, w).isFloating && !St(s.info, w).isFullscreen
    requires Remembered(Desk(s.space, s.info), w).Some?
    ensures Remembered(ArrangedDesk(cfg, s, i), w) == Remembered(Desk(s.space, s.info), w)
  {
    hide RunPass, Select, ArrangedMonitor, FocusedOn, Remembered;
    TiledDeskCore(cfg, s, i);
    FullscreenDeskCore(cfg, s, i);
    var loc, area, focused := s.monitors[i].work.loc, s.monitors[i].area, FocusedOn(s, i);
    CoreFloats(s.info, HiddenDesk(s).info, w);
    CoreFloats(s.info, TiledDesk(cfg, s, i).info, w);
    CoreFloats(s.info, FloatingDesk(cfg, s, i).info, w);
    CoreFloats(s.info, FullscreenDesk(cfg, s, i).info, w);
    PassRemembers(HidePass, Desk(s.space, s.info), HiddenOf(s), w);
    PassRemembers(TilePassOf(cfg, s, i), HiddenDesk(s), TiledOf(s, i), w);
    PassRemembers(FloatPass(loc, focused), TiledDesk(cfg, s, i), FloatingOf(s, i), w);
    PassRemembers(FullPass(area, focused), FloatingDesk(cfg, s, i), FullscreenOf(s, i), w);
    PassRemembers(ScratchPass(loc), FullscreenDesk(cfg, s, i), ScratchOf(s, i), w);
  }

  lemma CoreFloats(a: Info, b: Info, w: Window)
    requires SameCore(a, b)
    ensures St(b, w).isFloating == St(a, w).isFloating && St(b, w).isFullscreen == St(a, w).isFullscreen
    ensures St(b, w).needsCentering == St(a, w).needsCentering && St(b, w).rulesApplied == St(a, w).rulesApplied
  {
    var x, y := St(a, w).Core(), St(b, w).Core();
    assert x == y && x.isFloating == St(a, w).isFloating && y.isFloating == St(b, w).isFloating;
  }

  lemma ArrangeRests(cfg: Config, s: State, i: nat, w: Window, loc: Point)
    requires Resting(s, w, loc)
    ensures Resting(Arrange(cfg, s, i), w, loc)
  {
    hide ArrangedDesk, ArrangedMonitor;
    if i < |s.monitors| {
      ArrangedDeskRemembers(cfg, s, i, w);
      ArrangedDeskCore(cfg, s, i);
      CoreFloats(s.info, ArrangedDesk(cfg, s, i).info, w);
      var t := Arrange(cfg, s, i);
      assert Desk(t.space, t.info) == ArrangedDesk(cfg, s, i);
    }
  }

  lemma {:induction false} ArrangeUpToRests(cfg: Config, s: State, k: nat, w: Window, loc: Point)
    requires Resting(s, w, loc)
    ensures Resting(ArrangeUpTo(cfg, s, k), w, loc)
  {
    hide Arrange, Resting;
    if k > 0 {
      ArrangeUpToRests(cfg, s, k - 1, w, loc);
      ArrangeRests(cfg, ArrangeUpTo(cfg, s, k - 1), k - 1, w, loc);
    }
  }

  /** No arranging moves a floating window or forgets where it was. */
  lemma ArrangeAllRests(cfg: Config, s: State, w: Window, loc: Point)
    requires Resting(s, w, loc)
    ensures Resting(ArrangeAll(cfg, s), w, loc)
  {
    hide ArrangeUpTo, Remembered;
    ArrangeUpToRests(cfg, s.(monitors := Refits(s.monitors)), |s.monitors|, w, loc);
  }

  lemma ArrangeBothRests(cfg: Config, s: State, mon: nat, prev: Option<nat>, w: Window, loc: Point)
    requires Resting(s, w, loc)
    ensures Resting(ArrangeBoth(cfg, s, mon, prev), w, loc)
  {
    hide Arrange, Resting;
    ArrangeRests(cfg, s, mon, w, loc);
    if prev.Some? {
      ArrangeRests(cfg, Arrange(cfg, s, mon), prev.value, w, loc);
    }
  }

  lemma FocusRests(cfg: Config, s: State, v: Option<Window>, w: Window, loc: Point)
    requires Resting(s, w, loc)
    ensures Resting(FocusWindow(cfg, s, v), w, loc)
  {
    hide ArrangeBoth, ToFront, LocOf;
    if v.Some? {
      var t := s.(info := WithUrgent(s.info, v.value, false), focus := ToFront(s.focus, v.value));
      assert Resting(t, w, loc);
      var mon := St(t.info, v.value).monIdx;
      ArrangeBothRests(cfg, t.(selMon := mon), mon, FrontMonitor(s), w, loc);
    }
  }

  lemma FramedSettled(cfg: Config, s: State, t: State, w: Window, loc: Point)
    requires Settled(s, w, loc) && Framed(cfg, s, t) && Resting(t, w, loc)
    ensures Settled(t, w, loc)
  {
    hide FramedMonitors, Resting;
    CoreFloats(s.info, t.info, w);
  }

  lemma ArrangeAllSettled(cfg: Config, s: State, w: Window, loc: Point)
    requires Settled(s, w, loc)
    ensures Settled(ArrangeAll(cfg, s), w, loc)
  {
    hide ArrangeAll, Framed, Resting;
    ArrangeAllFramed(cfg, s);
    ArrangeAllRests(cfg, s, w, loc);
    FramedSettled(cfg, s, ArrangeAll(cfg, s), w, loc);
  }

  lemma FocusSettled(cfg: Config, s: State, v: Option<Window>, w: Window, loc: Point)
    requires Settled(s, w, loc)
    ensures Settled(FocusWindow(cfg, s, v), w, loc)
  {
    hide Arrange;
    if v.Some? {
      var t := s.(info := WithUrgent(s.info, v.value, false), focus := ToFront(s.focus, v.value));
      assert Settled(t, w, loc);
      var mon := St(t.info, v.value).monIdx;
      ArrangeBothSettled(cfg, t.(selMon := mon), mon, FrontMonitor(s), w, loc);
    }
  }

  lemma ArrangeBothSettled(cfg: Config, s: State, mon: nat, prev: Option<nat>, w: Window, loc: Point)
    requires Settled(s, w, loc)
    ensures Settled(ArrangeBoth(cfg, s, mon, prev), w, loc)
  {
    hide ArrangeBoth, Framed, Resting;
    ArrangeBothFramed(cfg, s, mon, prev);
    ArrangeBothRests(cfg, s, mon, prev, w, loc);
    FramedSettled(cfg, s, ArrangeBoth(cfg, s, mon, prev), w, loc);
  }

  /** Once a floating window is shown, `arrange_all` maps it exactly where it was. */
  lemma RestReturns(cfg: Config, s: State, w: Window, loc: Point)
    requires cfg.Sane() && s.monitors != [] && w in s.windows && Resting(s, w, loc) && Shown(s, w)
    ensures LocOf(ArrangeAll(cfg, s).space, w) == Some(loc)
  {
    ArrangeAllRests(cfg, s, w, loc);
    ArrangeAllShowsExactly(cfg, s, w);
  }

  lemma SettledReturns(cfg: Config, s: State, w: Window, loc: Point)
    requires cfg.Sane() && s.monitors != [] && Settled(s, w, loc) && Shown(s, w)
    ensures LocOf(ArrangeAll(cfg, s).space, w) == Some(loc)
  {
    RestReturns(cfg, s, w, loc);
  }
}
