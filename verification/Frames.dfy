/** What arranging and focusing leave unchanged. */
module Frames {
  import opened Sequences
  import opened Monitors
  import opened Windows
  import opened Desktop
  import opened Compositor

  /** `t` differs from `s` only in placement, work areas, layout slots and scroll columns. */
  ghost predicate Framed(cfg: Config, s: State, t: State) {
    && FramedMonitors(cfg, s.monitors, t.monitors)
    && t.history == s.history && t.windows == s.windows && t.focus == s.focus && t.popups == s.popups
    && t.selMon == s.selMon && t.memory == s.memory && t.locked == s.locked && t.grab == s.grab
    && SameCore(s.info, t.info)
  }

  ghost predicate FramedMonitors(cfg: Config, ms: seq<MonitorData>, ns: seq<MonitorData>) {
    && |ns| == |ms|
    && forall i :: 0 <= i < |ms| ==> ns[i].Core() == ms[i].Core() && (ms[i].LayoutsOk(cfg) ==> ns[i].LayoutsOk(cfg))
  }

  lemma ArrangedMonitorCore(cfg: Config, s: State, i: nat)
    requires i < |s.monitors|
    ensures ArrangedMonitor(cfg, s, i).Core() == s.monitors[i].Core()
    ensures ArrangedMonitor(cfg, s, i).area == s.monitors[i].area
    ensures s.monitors[i].LayoutsOk(cfg) ==> ArrangedMonitor(cfg, s, i).LayoutsOk(cfg)
  {
  }

  lemma TiledDeskCore(cfg: Config, s: State, i: nat)
    requires i < |s.monitors|
    ensures SameCore(s.info, HiddenDesk(s).info)
    ensures SameCore(s.info, TiledDesk(cfg, s, i).info)
  {
    hide RunPass, WindowState.Core, ArrangedMonitor, Select;
    PassFrame(HidePass, Desk(s.space, s.info), HiddenOf(s));
    PassFrame(TilePassOf(cfg, s, i), HiddenDesk(s), TiledOf(s, i));
  }

  lemma FullscreenDeskCore(cfg: Config, s: State, i: nat)
    requires i < |s.monitors|
    ensures SameCore(s.info, FloatingDesk(cfg, s, i).info)
    ensures SameCore(s.info, FullscreenDesk(cfg, s, i).info)
  {
    hide RunPass, WindowState.Core, ArrangedMonitor, Select, TiledDesk;
    TiledDeskCore(cfg, s, i);
    var loc, area, focused := s.monitors[i].work.loc, s.monitors[i].area, FocusedOn(s, i);
    PassFrame(FloatPass(loc, focused), TiledDesk(cfg, s, i), FloatingOf(s, i));
    PassFrame(FullPass(area, focused), FloatingDesk(cfg, s, i), FullscreenOf(s, i));
  }

  lemma ArrangedDeskCore(cfg: Config, s: State, i: nat)
    requires i < |s.monitors|
    ensures SameCore(s.info, ArrangedDesk(cfg, s, i).info)
  {
    hide RunPass, WindowState.Core, ArrangedMonitor, Select, FullscreenDesk;
    FullscreenDeskCore(cfg, s, i);
    PassFrame(ScratchPass(s.monitors[i].work.loc), FullscreenDesk(cfg, s, i), ScratchOf(s, i));
  }

  lemma ArrangeFramed(cfg: Config, s: State, i: nat)
    ensures Framed(cfg, s, Arrange(cfg, s, i))
  {
    hide ArrangedMonitor, ArrangedDesk, WindowState.Core, MonitorData.Core, MonitorData.LayoutsOk;
    if i < |s.monitors| {
      ArrangedMonitorCore(cfg, s, i);
      ArrangedDeskCore(cfg, s, i);
    }
  }

  lemma FramedTransitive(cfg: Config, s: State, t: State, u: State)
    requires Framed(cfg, s, t) && Framed(cfg, t, u)
    ensures Framed(cfg, s, u)
  {
  }

  lemma {:induction false} ArrangeUpToFramed(cfg: Config, s: State, k: nat)
    ensures Framed(cfg, s, ArrangeUpTo(cfg, s, k))
  {
    hide Arrange;
    if k > 0 {
      ArrangeUpToFramed(cfg, s, k - 1);
      var t := ArrangeUpTo(cfg, s, k - 1);
      ArrangeFramed(cfg, t, k - 1);
      FramedTransitive(cfg, s, t, ArrangeUpTo(cfg, s, k));
    }
  }

  lemma RefitFramed(cfg: Config, s: State)
    ensures Framed(cfg, s, s.(monitors := Refits(s.monitors)))
  {
  }

  lemma ArrangeAllFramed(cfg: Config, s: State)
    ensures Framed(cfg, s, ArrangeAll(cfg, s))
  {
    hide Framed, ArrangeUpTo;
    RefitFramed(cfg, s);
    var t := s.(monitors := Refits(s.monitors));
    ArrangeUpToFramed(cfg, t, |t.monitors|);
    FramedTransitive(cfg, s, t, ArrangeAll(cfg, s));
  }

  // What framed states agree on.

  lemma FramedTags(cfg: Config, s: State, t: State)
    requires Framed(cfg, s, t)
    ensures forall i :: 0 <= i < |s.monitors| ==> t.monitors[i].Tags() == s.monitors[i].Tags()
    ensures SelTags(t) == SelTags(s)
    ensures AllVisible(t.monitors) == AllVisible(s.monitors)
  {
    forall i | 0 <= i < |s.monitors|
      ensures t.monitors[i].Tags() == s.monitors[i].Tags()
    {
      assert t.monitors[i].Core().Tags() == s.monitors[i].Core().Tags();
    }
    AllVisibleSame(s.monitors, t.monitors);
  }

  lemma {:induction false} AllVisibleSame(ms: seq<MonitorData>, ns: seq<MonitorData>)
    requires |ms| == |ns| && forall i :: 0 <= i < |ms| ==> ms[i].Tags() == ns[i].Tags()
    ensures AllVisible(ms) == AllVisible(ns)
  {
    if ms != [] {
      AllVisibleSame(ms[..|ms| - 1], ns[..|ns| - 1]);
    }
  }

  lemma FramedFocused(cfg: Config, s: State, t: State)
    requires Framed(cfg, s, t)
    ensures FocusedWindow(t) == FocusedWindow(s)
  {
    FramedTags(cfg, s, t);
    FirstCore(OnMonitor(SelTags(s), s.selMon), s.info, t.info, s.focus);
  }

  /** A window's state is unchanged except for the urgent hint it loses on being focused. */
  ghost predicate SameButUrgent(a: Info, b: Info) {
    forall w :: St(b, w).Quiet() == St(a, w).Quiet()
  }

  /** What focusing a window changes, besides placement: the focus order, the selected monitor, its hint. */
  ghost predicate FocusFramed(cfg: Config, s: State, t: State, w: Window) {
    && FramedMonitors(cfg, s.monitors, t.monitors)
    && t.history == s.history && t.windows == s.windows && t.popups == s.popups
    && t.memory == s.memory && t.locked == s.locked && t.grab == s.grab
    && t.focus == ToFront(s.focus, w)
    && t.selMon == (if s.locked || (s.focus != [] && s.focus[0] == w) then s.selMon else St(s.info, w).monIdx)
    && SameButUrgent(s.info, t.info)
    && !St(t.info, w).isUrgent
  }

  lemma ArrangeBothFramed(cfg: Config, s: State, mon: nat, prev: Option<nat>)
    ensures Framed(cfg, s, ArrangeBoth(cfg, s, mon, prev))
  {
    hide Arrange, Framed;
    var t := Arrange(cfg, s, mon);
    ArrangeFramed(cfg, s, mon);
    if prev.Some? {
      ArrangeFramed(cfg, t, prev.value);
      FramedTransitive(cfg, s, t, Arrange(cfg, t, prev.value));
    }
  }

  lemma FocusWindowFramed(cfg: Config, s: State, w: Window)
    ensures FocusFramed(cfg, s, FocusWindow(cfg, s, Some(w)), w)
  {
    hide ArrangeBoth, SameButUrgent, SameCore;
    var t := s.(info := WithUrgent(s.info, w, false), focus := ToFront(s.focus, w));
    WithUrgentSame(s.info, w, false);
    if !(s.locked || (s.focus != [] && s.focus[0] == w)) {
      var mon := St(t.info, w).monIdx;
      var u := ArrangeBoth(cfg, t.(selMon := mon), mon, FrontMonitor(s));
      ArrangeBothFramed(cfg, t.(selMon := mon), mon, FrontMonitor(s));
      CoreKeepsRest(t.info, u.info, w);
      SameButUrgentTransitive(s.info, t.info, u.info);
    }
  }

  lemma SameButUrgentTransitive(a: Info, b: Info, c: Info)
    requires SameButUrgent(a, b) && SameButUrgent(b, c)
    ensures SameButUrgent(a, c)
  {
    hide WindowState.Quiet;
  }

  lemma WithUrgentSame(info: Info, w: Window, urgent: bool)
    ensures SameButUrgent(info, WithUrgent(info, w, urgent))
  {
    hide WindowState.Quiet;
    UrgentQuiet(St(info, w), urgent);
  }

  lemma UrgentQuiet(st: WindowState, urgent: bool)
    ensures st.(isUrgent := urgent).Quiet() == st.Quiet()
  {
  }

  lemma CoreKeepsRest(a: Info, b: Info, w: Window)
    requires SameCore(a, b)
    ensures SameButUrgent(a, b)
    ensures St(b, w).isUrgent == St(a, w).isUrgent
  {
    assert St(b, w).Core().isUrgent == St(a, w).Core().isUrgent;
  }

  lemma UrgentDoesNotMatter(a: Info, b: Info, w: Window, q: Query)
    requires SameButUrgent(a, b) && !q.Urgent?
    ensures Sat(q, St(a, w)) == Sat(q, St(b, w))
    ensures St(a, w).monIdx == St(b, w).monIdx && St(a, w).tags == St(b, w).tags
    ensures St(a, w).isFloating == St(b, w).isFloating && St(a, w).isFullscreen == St(b, w).isFullscreen
    ensures St(a, w).rulesApplied == St(b, w).rulesApplied && St(a, w).scratchKey == St(b, w).scratchKey
  {
    var x, y := St(a, w).Quiet(), St(b, w).Quiet();
    assert x == y;
    assert x.tags == St(a, w).tags && y.tags == St(b, w).tags;
    assert x.monIdx == St(a, w).monIdx && y.monIdx == St(b, w).monIdx;
  }
}
