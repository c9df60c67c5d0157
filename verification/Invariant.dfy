/** The invariant every reachable window-management state satisfies. */
module Invariant {
  import opened Sequences
  import opened Tags
  import opened History
  import opened Monitors
  import opened Windows
  import opened Compositor
  import opened Frames

  /** One more than the largest monitor index that may be stored anywhere. */
  function IndexBound(n: nat): nat {
    if n == 0 then 1 else n
  }

  ghost predicate MonitorsOk(cfg: Config, ms: seq<MonitorData>) {
    forall i :: 0 <= i < |ms| ==> ms[i].TagsOk(cfg) && ms[i].LayoutsOk(cfg)
  }

  ghost predicate HistoryOk(history: seq<seq<Mask>>, n: nat) {
    && |history| == n
    && forall i :: 0 <= i < |history| ==> |history[i]| <= LIMIT && NoDup(history[i])
  }

  /** No list holds a window twice; popups are not managed. */
  ghost predicate ListsOk(windows: seq<Window>, focus: seq<Window>, popups: seq<Window>) {
    && NoDup(windows) && NoDup(focus) && NoDup(popups)
    && (forall w :: w in popups ==> w !in windows)
  }

  /** What an override-redirect window's cell looks like: on no tag, and assigned to the first monitor. */
  ghost predicate Stray(st: WindowState) {
    st.tags == {} && st.monIdx == 0 && st.isX11
  }

  /** Whatever else the focus stack holds is, or once was, an override-redirect window. */
  ghost predicate StraysOk(info: Info, windows: seq<Window>, focus: seq<Window>, popups: seq<Window>) {
    forall w :: (w in focus || w in popups) && w !in windows ==> Stray(St(info, w))
  }

  /** A window the pointer, or a list, may hand to the focus operations. */
  predicate Held(s: State, w: Window) {
    w in s.windows || w in s.focus || w in s.popups
  }

  ghost predicate CellOk(cfg: Config, st: WindowState, n: nat) {
    st.monIdx < IndexBound(n) && st.tags <= TagMask(cfg.tagCount)
  }

  ghost predicate CellsOk(cfg: Config, info: Info, ws: seq<Window>, n: nat) {
    forall w :: w in ws ==> CellOk(cfg, St(info, w), n)
  }

  ghost predicate Inv(cfg: Config, s: State) {
    && MonitorsOk(cfg, s.monitors)
    && HistoryOk(s.history, |s.monitors|)
    && ListsOk(s.windows, s.focus, s.popups)
    && CellsOk(cfg, s.info, s.windows, |s.monitors|)
    && StraysOk(s.info, s.windows, s.focus, s.popups)
    && s.selMon < IndexBound(|s.monitors|)
  }

  // Arranging and focusing.

  lemma StraysOkCore(a: Info, b: Info, windows: seq<Window>, focus: seq<Window>, popups: seq<Window>)
    requires StraysOk(a, windows, focus, popups) && SameButUrgent(a, b)
    ensures StraysOk(b, windows, focus, popups)
  {
    hide WindowState.Quiet;
    forall w | (w in focus || w in popups) && w !in windows
      ensures Stray(St(b, w))
    {
      UrgentDoesNotMatter(a, b, w, IsX11);
    }
  }


  lemma MonitorsOkFramed(cfg: Config, ms: seq<MonitorData>, ns: seq<MonitorData>)
    requires MonitorsOk(cfg, ms) && FramedMonitors(cfg, ms, ns)
    ensures MonitorsOk(cfg, ns) && |ns| == |ms|
  {
    hide MonitorData.LayoutsOk;
    forall i | 0 <= i < |ns|
      ensures ns[i].TagsOk(cfg)
    {
      assert ns[i].Core().tagset == ms[i].Core().tagset;
    }
  }

  lemma CellsOkCore(cfg: Config, a: Info, b: Info, ws: seq<Window>, n: nat)
    requires CellsOk(cfg, a, ws, n) && SameButUrgent(a, b)
    ensures CellsOk(cfg, b, ws, n)
  {
    hide WindowState.Quiet;
    forall w | w in ws
      ensures CellOk(cfg, St(b, w), n)
    {
      UrgentDoesNotMatter(a, b, w, IsX11);
    }
  }

  lemma InvFramed(cfg: Config, s: State, t: State)
    requires Inv(cfg, s) && Framed(cfg, s, t)
    ensures Inv(cfg, t)
  {
    hide ListsOk, MonitorsOk, FramedMonitors, CellsOk, StraysOk, WindowState.Core;
    MonitorsOkFramed(cfg, s.monitors, t.monitors);
    CoreKeepsRest(s.info, t.info, 0);
    StraysOkCore(s.info, t.info, s.windows, s.focus, s.popups);
    CellsOkCore(cfg, s.info, t.info, s.windows, |s.monitors|);
  }

  lemma InvArrangeAll(cfg: Config, s: State)
    requires Inv(cfg, s)
    ensures Inv(cfg, ArrangeAll(cfg, s))
  {
    hide ArrangeAll, Inv, Framed;
    ArrangeAllFramed(cfg, s);
    InvFramed(cfg, s, ArrangeAll(cfg, s));
  }

  /** A window that may enter the focus stack. */
  ghost predicate Admissible(s: State, w: Window) {
    w in s.windows || Stray(St(s.info, w))
  }

  lemma ListsAfterFocus(info: Info, windows: seq<Window>, focus: seq<Window>, popups: seq<Window>, w: Window)
    requires ListsOk(windows, focus, popups)
    requires StraysOk(info, windows, focus, popups) && (w in windows || Stray(St(info, w)))
    ensures ListsOk(windows, ToFront(focus, w), popups) && StraysOk(info, windows, ToFront(focus, w), popups)
  {
    ToFrontNoDup(focus, w);
    hide ToFront, Stray;
  }

  lemma InvFocus(cfg: Config, s: State, w: Window)
    requires Inv(cfg, s) && Admissible(s, w)
    ensures Inv(cfg, FocusWindow(cfg, s, Some(w)))
  {
    hide FocusWindow, MonitorsOk, FramedMonitors, CellsOk, SameButUrgent, ListsOk, ToFront, StraysOk;
    var t := FocusWindow(cfg, s, Some(w));
    FocusWindowFramed(cfg, s, w);
    MonitorsOkFramed(cfg, s.monitors, t.monitors);
    CellsOkCore(cfg, s.info, t.info, s.windows, |s.monitors|);
    ListsAfterFocus(s.info, s.windows, s.focus, s.popups, w);
    StraysOkCore(s.info, t.info, s.windows, t.focus, s.popups);
    if w in s.windows {
      CellAt(cfg, s.info, s.windows, |s.monitors|, w);
    }
  }

  lemma CellAt(cfg: Config, info: Info, ws: seq<Window>, n: nat, w: Window)
    requires CellsOk(cfg, info, ws, n) && w in ws
    ensures CellOk(cfg, St(info, w), n)
  {
  }

  lemma HeldIsAdmissible(cfg: Config, s: State, w: Window)
    requires Inv(cfg, s) && Held(s, w)
    ensures Admissible(s, w)
  {
    hide MonitorsOk, CellsOk, Stray;
  }

  /** Focusing keeps the invariant whatever window it is handed, an override-redirect one included. */
  lemma InvFocusHeld(cfg: Config, s: State, w: Option<Window>)
    requires Inv(cfg, s) && (w.Some? ==> Held(s, w.value))
    ensures Inv(cfg, FocusWindow(cfg, s, w))
  {
    hide Inv, Admissible, Held;
    if w.Some? {
      HeldIsAdmissible(cfg, s, w.value);
      InvFocus(cfg, s, w.value);
    }
  }

  /** The focused window is always a managed one: a stray is on no tag. */
  lemma FocusedIsManaged(cfg: Config, s: State)
    requires Inv(cfg, s)
    ensures FocusedWindow(s).Some? ==> FocusedWindow(s).value in s.windows
  {
    hide MonitorsOk, CellsOk, First;
  }

  lemma InvRefocus(cfg: Config, s: State)
    requires Inv(cfg, s)
    ensures Inv(cfg, Refocus(cfg, s))
  {
    hide Inv, FocusWindow, FocusedWindow;
    FocusedIsManaged(cfg, s);
    InvFocusHeld(cfg, s, FocusedWindow(s));
  }

  lemma InvArrangeRefocus(cfg: Config, s: State)
    requires Inv(cfg, s)
    ensures Inv(cfg, Refocus(cfg, ArrangeAll(cfg, s)))
  {
    hide Inv, Refocus, ArrangeAll;
    InvArrangeAll(cfg, s);
    InvRefocus(cfg, ArrangeAll(cfg, s));
  }

  // Edits.

  lemma InvCell(cfg: Config, s: State, w: Window, st: WindowState)
    requires Inv(cfg, s) && (w in s.windows ==> CellOk(cfg, st, |s.monitors|))
    requires w !in s.windows && Held(s, w) ==> Stray(st)
    ensures Inv(cfg, s.(info := s.info[w := st]))
  {
    hide MonitorsOk, ListsOk, CellOk, Stray;
  }

  lemma InvMonitor(cfg: Config, s: State, i: nat, m: MonitorData)
    requires Inv(cfg, s) && i < |s.monitors| && m.TagsOk(cfg) && m.LayoutsOk(cfg)
    ensures Inv(cfg, s.(monitors := s.monitors[i := m]))
  {
    hide ListsOk, CellOk, MonitorData.TagsOk, MonitorData.LayoutsOk;
  }

  lemma RecordOk(history: seq<Mask>, oldTags: Mask, target: Mask)
    requires |history| <= LIMIT && NoDup(history)
    ensures |Update(history, oldTags, target)| <= LIMIT && NoDup(Update(history, oldTags, target))
  {
    WithoutNoDup(history, oldTags);
    assert oldTags !in Without(history, oldTags);
    hide Without;
  }

  lemma InvRecord(cfg: Config, s: State, i: nat, target: Mask)
    requires Inv(cfg, s)
    ensures Inv(cfg, RecordTags(s, i, target))
  {
    hide MonitorsOk, ListsOk, CellsOk, Update, NoDup;
    if i < |s.history| {
      RecordOk(s.history[i], if i < |s.monitors| then s.monitors[i].Tags() else {}, target);
    }
  }

  lemma MonitorAt(cfg: Config, s: State, i: nat)
    requires Inv(cfg, s) && i < |s.monitors|
    ensures s.monitors[i].TagsOk(cfg) && s.monitors[i].LayoutsOk(cfg)
    ensures s.monitors[i].Tags() <= TagMask(cfg.tagCount)
  {
    hide MonitorData.LayoutsOk, ListsOk, CellsOk;
  }

  lemma InvViewOn(cfg: Config, s: State, i: nat, mask: Mask)
    requires Inv(cfg, s)
    ensures Inv(cfg, ViewOn(cfg, s, i, mask))
  {
    hide Inv, MonitorData.View, MonitorData.TagsOk, MonitorData.LayoutsOk, MonitorData.ToggleView;
    if i < |s.monitors| {
      MonitorAt(cfg, s, i);
      ViewTags(s.monitors[i], cfg, mask);
      ViewLayouts(s.monitors[i], cfg, mask);
      InvMonitor(cfg, s, i, s.monitors[i].View(cfg, mask));
    }
  }

  lemma SelTagsOk(cfg: Config, s: State)
    requires Inv(cfg, s) && cfg.Sane()
    ensures SelTags(s) <= TagMask(cfg.tagCount) && InitialTags(s) <= TagMask(cfg.tagCount)
  {
    hide Inv;
    if s.selMon < |s.monitors| {
      MonitorAt(cfg, s, s.selMon);
    }
  }

  lemma StateAt(cfg: Config, s: State, w: Window)
    requires Inv(cfg, s) && w in s.windows
    ensures CellOk(cfg, St(s.info, w), |s.monitors|)
  {
    hide MonitorsOk, ListsOk;
  }

  // Keyboard actions.

  lemma InvView(cfg: Config, s: State, mask: Mask)
    requires Inv(cfg, s)
    ensures Inv(cfg, View(cfg, s, mask))
  {
    hide Inv, RecordTags, ViewOn, Refocus, ArrangeAll;
    InvRecord(cfg, s, s.selMon, mask);
    InvViewOn(cfg, RecordTags(s, s.selMon, mask), s.selMon, mask);
    InvArrangeRefocus(cfg, ViewOn(cfg, RecordTags(s, s.selMon, mask), s.selMon, mask));
  }

  lemma RecordKeepsMonitors(s: State, i: nat, target: Mask)
    ensures RecordTags(s, i, target).monitors == s.monitors && RecordTags(s, i, target).selMon == s.selMon
    ensures RecordTags(s, i, target) == s.(history := RecordTags(s, i, target).history)
  {
  }

  lemma InvViewPrev(cfg: Config, s: State)
    requires Inv(cfg, s)
    ensures Inv(cfg, ViewPrev(cfg, s))
  {
    hide Inv, RecordTags, Refocus, ArrangeAll, MonitorData.ViewPrev, MonitorData.LayoutsOk, MonitorData.TagsOk;
    var i := s.selMon;
    if i < |s.monitors| {
      var m := s.monitors[i];
      var after := m.tagset.At(1 - m.selTags);
      var t := RecordTags(s, i, after);
      InvRecord(cfg, s, i, after);
      RecordKeepsMonitors(s, i, after);
      MonitorAt(cfg, s, i);
      ViewPrevTags(cfg, m);
      ViewPrevLayouts(m, cfg);
      InvMonitor(cfg, t, i, m.ViewPrev(cfg));
      InvArrangeRefocus(cfg, t.(monitors := t.monitors[i := m.ViewPrev(cfg)]));
    } else {
      InvArrangeRefocus(cfg, s);
    }
  }

  lemma ViewPrevTags(cfg: Config, m: MonitorData)
    requires m.TagsOk(cfg)
    ensures m.ViewPrev(cfg).TagsOk(cfg)
  {
    hide MonitorData.ApplyPertag;
    ApplyPertagKeeps(m.(selTags := 1 - m.selTags), cfg, m.tagset.At(1 - m.selTags));
  }

  lemma InvToggleView(cfg: Config, s: State, mask: Mask)
    requires Inv(cfg, s)
    ensures Inv(cfg, ToggleView(cfg, s, mask))
  {
    hide Inv, RecordTags, Refocus, ArrangeAll, MonitorData.ToggleView, MonitorData.LayoutsOk, MonitorData.TagsOk, MonitorData.View;
    var i := s.selMon;
    if i < |s.monitors| {
      var tags := Xor(s.monitors[i].Tags(), mask) * TagMask(cfg.tagCount);
      InvRecord(cfg, s, i, tags);
      RecordKeepsMonitors(s, i, tags);
      var t := if tags != {} then RecordTags(s, i, tags) else s;
      MonitorAt(cfg, s, i);
      ToggleViewTags(s.monitors[i], cfg, mask);
      ViewLayouts(s.monitors[i], cfg, mask);
      InvMonitor(cfg, t, i, s.monitors[i].ToggleView(cfg, mask));
      InvArrangeRefocus(cfg, t.(monitors := t.monitors[i := t.monitors[i].ToggleView(cfg, mask)]));
    } else {
      InvArrangeRefocus(cfg, s);
    }
  }

  lemma InvWithTags(cfg: Config, s: State, w: Window, tags: Mask)
    requires Inv(cfg, s) && w in s.windows && tags <= TagMask(cfg.tagCount)
    ensures Inv(cfg, s.(info := WithTags(s.info, w, tags)))
  {
    hide Inv;
    StateAt(cfg, s, w);
    InvCell(cfg, s, w, St(s.info, w).(tags := tags));
  }

  lemma InvTag(cfg: Config, s: State, mask: Mask)
    requires Inv(cfg, s)
    ensures Inv(cfg, Tag(cfg, s, mask))
  {
    hide Inv, RecordTags, ViewOn, Refocus, ArrangeAll, FocusedWindow, WithTags;
    var tags := mask * TagMask(cfg.tagCount);
    var focused := FocusedWindow(s);
    FocusedIsManaged(cfg, s);
    if tags != {} {
      if focused.None? {
        InvArrangeRefocus(cfg, s);
      } else {
        var t := s.(info := WithTags(s.info, focused.value, tags));
        InvWithTags(cfg, s, focused.value, tags);
        InvRecord(cfg, t, t.selMon, tags);
        InvViewOn(cfg, RecordTags(t, t.selMon, tags), t.selMon, tags);
        InvArrangeRefocus(cfg, if cfg.follow then ViewOn(cfg, RecordTags(t, t.selMon, tags), t.selMon, tags) else t);
      }
    }
  }

  lemma InvToggleTag(cfg: Config, s: State, mask: Mask)
    requires Inv(cfg, s)
    ensures Inv(cfg, ToggleTag(cfg, s, mask))
  {
    hide Inv, ArrangeAll, FocusedWindow, WithTags;
    var focused := FocusedWindow(s);
    FocusedIsManaged(cfg, s);
    if focused.None? {
      InvArrangeAll(cfg, s);
    } else {
      var tags := Xor(St(s.info, focused.value).tags, mask) * TagMask(cfg.tagCount);
      InvWithTags(cfg, s, focused.value, tags);
      InvArrangeAll(cfg, if tags != {} then s.(info := WithTags(s.info, focused.value, tags)) else s);
    }
  }

  lemma InvUnstacked(cfg: Config, s: State, w: Window)
    requires Inv(cfg, s)
    ensures Inv(cfg, s.(focus := Without(s.focus, w)))
  {
    hide MonitorsOk, CellsOk, Stray;
    WithoutNoDup(s.focus, w);
    hide Without;
  }

  /** Toggling a scratchpad, hidden or shown, keeps the invariant. */
  lemma InvScratch(cfg: Config, s: State, w: Window)
    requires cfg.Sane() && Inv(cfg, s) && w in s.windows
    ensures Inv(cfg, HideScratch(cfg, s, w)) && Inv(cfg, ShowScratch(cfg, s, w))
  {
    hide Inv, Refocus, FocusWindow, ArrangeAll, WithTags, Without, InitialTags;
    SelTagsOk(cfg, s);
    InvWithTags(cfg, s, w, {});
    var a := s.(info := WithTags(s.info, w, {}));
    InvUnstacked(cfg, a, w);
    InvRefocus(cfg, a.(focus := Without(s.focus, w)));
    InvArrangeAll(cfg, Refocus(cfg, a.(focus := Without(s.focus, w))));
    InvWithTags(cfg, s, w, InitialTags(s));
    var b := s.(info := WithTags(s.info, w, InitialTags(s)));
    InvFocusHeld(cfg, b, Some(w));
    InvArrangeAll(cfg, FocusWindow(cfg, b, Some(w)));
  }

  lemma InvScratches(cfg: Config, s: State, key: char, candidate: Option<Window>)
    requires cfg.Sane() && Inv(cfg, s)
    ensures Inv(cfg, ToggleScratch(cfg, s, key)) && Inv(cfg, FocusOrToggleScratch(cfg, s, key))
    ensures Inv(cfg, ToggleMatching(cfg, s, candidate))
  {
    hide Inv, HideScratch, ShowScratch, First, FocusedWindow, Meets;
    var w := FindScratch(s, key);
    if w.Some? {
      InvScratch(cfg, s, w.value);
    }
    if candidate.Some? && candidate.value in s.windows {
      InvScratch(cfg, s, candidate.value);
    }
  }

  lemma InvFocusStackStep(cfg: Config, s: State, dir: int)
    requires Inv(cfg, s)
    ensures Inv(cfg, FocusStackStep(cfg, s, dir))
  {
    hide Inv, FocusWindow, FocusedWindow, Select, Find;
    var eligible := Select(Steppable(SelTags(s), s.selMon), s.info, s.windows);
    if eligible != [] {
      forall k | 0 <= k < |eligible|
        ensures Inv(cfg, FocusWindow(cfg, s, Some(eligible[k])))
      {
        assert eligible[k] in eligible;
        InvFocusHeld(cfg, s, Some(eligible[k]));
      }
    }
  }

  lemma InvReorder(cfg: Config, s: State, w: Window)
    requires Inv(cfg, s) && w in s.windows
    ensures Inv(cfg, s.(windows := ToFront(s.windows, w)))
  {
    hide MonitorsOk, CellOk;
    ToFrontNoDup(s.windows, w);
    assert forall v :: v in ToFront(s.windows, w) <==> v in s.windows;
    hide ToFront;
  }

  lemma InvZoom(cfg: Config, s: State)
    requires Inv(cfg, s)
    ensures Inv(cfg, Zoom(cfg, s))
  {
    hide Inv, FocusWindow, ArrangeAll, ZoomTarget, ToFront;
    var target := ZoomTarget(s);
    if target.Some? {
      ZoomTargetManaged(cfg, s);
      InvReorder(cfg, s, target.value);
      var t := s.(windows := ToFront(s.windows, target.value));
      assert target.value in t.windows;
      InvFocusHeld(cfg, t, target);
      InvArrangeAll(cfg, FocusWindow(cfg, t, target));
    }
  }

  lemma ZoomTargetManaged(cfg: Config, s: State)
    requires Inv(cfg, s)
    ensures ZoomTarget(s).Some? ==> ZoomTarget(s).value in s.windows
  {
    hide Inv, FocusedWindow, Select;
    FocusedIsManaged(cfg, s);
    if ZoomTarget(s).Some? {
      var candidates := Select(ZoomCandidate(SelTags(s), s.selMon), s.info, s.windows);
      var others := Without(candidates, FocusedWindow(s).value);
      assert others[0] in others;
      assert others[0] in candidates;
    }
  }

  lemma InvSelMon(cfg: Config, s: State, i: nat)
    requires Inv(cfg, s) && i < IndexBound(|s.monitors|)
    ensures Inv(cfg, s.(selMon := i))
  {
    hide MonitorsOk, ListsOk, CellsOk;
  }

  lemma InvFocusMon(cfg: Config, s: State, dir: int)
    requires Inv(cfg, s)
    ensures Inv(cfg, FocusMon(cfg, s, dir))
  {
    hide Inv, Refocus, ArrangeAll;
    var next := DirToMonitor(|s.monitors|, s.selMon, dir);
    if next.Some? {
      InvSelMon(cfg, s, next.value);
      InvRefocus(cfg, s.(selMon := next.value));
      InvArrangeAll(cfg, Refocus(cfg, s.(selMon := next.value)));
    }
  }

  lemma InvTagMon(cfg: Config, s: State, dir: int)
    requires Inv(cfg, s)
    ensures Inv(cfg, TagMon(cfg, s, dir))
  {
    hide Inv, FocusWindow, ArrangeAll, FocusedWindow;
    var focused := FocusedWindow(s);
    var next := DirToMonitor(|s.monitors|, s.selMon, dir);
    FocusedIsManaged(cfg, s);
    if focused.Some? && next.Some? {
      var w := focused.value;
      MonitorAt(cfg, s, next.value);
      var st := St(s.info, w).(tags := s.monitors[next.value].Tags(), monIdx := next.value);
      InvCell(cfg, s, w, st);
      var t := s.(info := s.info[w := st]);
      InvSelMon(cfg, t, next.value);
      InvFocusHeld(cfg, t.(selMon := next.value), focused);
      InvArrangeAll(cfg, if cfg.follow then FocusWindow(cfg, t.(selMon := next.value), focused) else t);
    }
  }

  lemma InvFocusUrgent(cfg: Config, s: State)
    requires Inv(cfg, s)
    ensures Inv(cfg, FocusUrgent(cfg, s))
  {
    hide Inv, FocusWindow, ArrangeAll, MonitorData.View, First;
    var stacked := First(Urgent, s.info, s.focus);
    var urgent := if stacked.Some? then stacked else First(Urgent, s.info, s.windows);
    if urgent.Some? {
      HeldCellOk(cfg, s, urgent.value);
      var st := St(s.info, urgent.value);
      var t := s.(selMon := st.monIdx);
      InvSelMon(cfg, s, st.monIdx);
      InvViewOn(cfg, t, st.monIdx, st.tags);
      var u := if st.tags != {} then ViewOn(cfg, t, st.monIdx, st.tags) else t;
      InvArrangeAll(cfg, u);
      ArrangeAllFramed(cfg, u);
      hide FramedMonitors;
      InvFocusHeld(cfg, ArrangeAll(cfg, u), urgent);
    }
  }

  /** Every window of the focus stack, stray or managed, has a cell in range. */
  lemma HeldCellOk(cfg: Config, s: State, w: Window)
    requires Inv(cfg, s) && Held(s, w)
    ensures CellOk(cfg, St(s.info, w), |s.monitors|)
  {
    hide MonitorsOk;
  }

  lemma InvSelected(cfg: Config, s: State, m: MonitorData)
    requires Inv(cfg, s) && s.selMon < |s.monitors| && m.TagsOk(cfg) && m.LayoutsOk(cfg)
    ensures Inv(cfg, ArrangeAll(cfg, OnSelected(s, m)))
  {
    hide Inv, ArrangeAll;
    InvMonitor(cfg, s, s.selMon, m);
    InvArrangeAll(cfg, OnSelected(s, m));
  }

  lemma SetLayoutTags(m: MonitorData, cfg: Config, idx: Option<nat>)
    requires m.TagsOk(cfg)
    ensures m.SetLayout(cfg, idx).TagsOk(cfg)
  {
  }

  lemma InvSetLayout(cfg: Config, s: State, idx: Option<nat>)
    requires Inv(cfg, s)
    ensures Inv(cfg, SetLayout(cfg, s, idx))
  {
    hide Inv, ArrangeAll, OnSelected, MonitorData.SetLayout, MonitorData.TagsOk, MonitorData.LayoutsOk;
    if s.selMon < |s.monitors| {
      MonitorAt(cfg, s, s.selMon);
      SetLayoutTags(s.monitors[s.selMon], cfg, idx);
      SetLayoutLayouts(s.monitors[s.selMon], cfg, idx);
      InvSelected(cfg, s, s.monitors[s.selMon].SetLayout(cfg, idx));
    } else {
      InvArrangeAll(cfg, s);
    }
  }

  lemma InvTuning(cfg: Config, s: State, delta: int, factor: real)
    requires Inv(cfg, s)
    ensures Inv(cfg, CycleLayout(cfg, s)) && Inv(cfg, IncNmaster(cfg, s, delta)) && Inv(cfg, SetMfact(cfg, s, factor))
  {
    hide Inv, ArrangeAll, OnSelected, SetLayout;
    if s.selMon < |s.monitors| {
      var m := s.monitors[s.selMon];
      MonitorAt(cfg, s, s.selMon);
      if cfg.layouts != [] {
        InvSetLayout(cfg, s, Some((m.lt.At(m.selLt) + 1) % |cfg.layouts|));
      } else {
        InvArrangeAll(cfg, s);
      }
      InvSelected(cfg, s, m.(nmaster := if m.nmaster + delta > 0 then m.nmaster + delta else 0));
      InvSelected(cfg, s, m.(mfact := Clamp(m.mfact + factor, 0.05, 0.95)));
    } else {
      InvArrangeAll(cfg, s);
    }
  }

  /** A write to a cell that changes neither tags nor monitor. */
  ghost predicate Flagged(s: State, w: Window, st: WindowState) {
    Held(s, w) && st.tags == St(s.info, w).tags && st.monIdx == St(s.info, w).monIdx && st.isX11 == St(s.info, w).isX11
  }

  lemma InvFlag(cfg: Config, s: State, w: Window, st: WindowState)
    requires Inv(cfg, s) && Flagged(s, w, st)
    ensures Inv(cfg, s.(info := s.info[w := st]))
  {
    HeldCellOk(cfg, s, w);
    InvCell(cfg, s, w, st);
  }

  lemma InvFlagArranged(cfg: Config, s: State, w: Window, st: WindowState)
    requires Inv(cfg, s) && Flagged(s, w, st)
    ensures Inv(cfg, ArrangeAll(cfg, s.(info := s.info[w := st])))
  {
    hide Inv, ArrangeAll;
    InvFlag(cfg, s, w, st);
    InvArrangeAll(cfg, s.(info := s.info[w := st]));
  }

  lemma InvToggles(cfg: Config, s: State)
    requires Inv(cfg, s)
    ensures Inv(cfg, ToggleFloating(cfg, s)) && Inv(cfg, ToggleFullscreen(cfg, s))
  {
    hide Inv, ArrangeAll, FocusedWindow;
    var focused := FocusedWindow(s);
    FocusedIsManaged(cfg, s);
    if focused.Some? {
      var st := St(s.info, focused.value);
      var flipped := st.(isFloating := !st.isFloating, needsCentering := st.needsCentering || !st.isFloating);
      InvFlagArranged(cfg, s, focused.value, flipped);
      InvFlagArranged(cfg, s, focused.value, st.(isFullscreen := !st.isFullscreen));
    }
  }

  lemma InvAct(cfg: Config, s: State, a: Action)
    requires cfg.Sane() && Inv(cfg, s)
    ensures Inv(cfg, Act(cfg, s, a))
  {
    hide Inv, FocusStackStep, Zoom, View, ViewPrev, ToggleView, Tag, ToggleTag, FocusMon, TagMon, FocusUrgent,
         SetLayout, CycleLayout, IncNmaster, SetMfact, ToggleFloating, ToggleFullscreen, NextOccTag,
         ToggleScratch, FocusOrToggleScratch, ToggleMatching;
    match a
    case FocusStackA(dir) => InvFocusStackStep(cfg, s, dir);
    case ZoomA => InvZoom(cfg, s);
    case ViewA(mask) => InvView(cfg, s, mask);
    case ViewPrevA => InvViewPrev(cfg, s);
    case ViewNextOccTagA(dir) =>
      if NextOccTag(cfg, s, dir).Some? {
        InvView(cfg, s, NextOccTag(cfg, s, dir).value);
      }
    case ToggleViewA(mask) => InvToggleView(cfg, s, mask);
    case TagA(mask) => InvTag(cfg, s, mask);
    case ToggleTagA(mask) => InvToggleTag(cfg, s, mask);
    case FocusMonA(dir) => InvFocusMon(cfg, s, dir);
    case TagMonA(dir) => InvTagMon(cfg, s, dir);
    case FocusUrgentA => InvFocusUrgent(cfg, s);
    case SetLayoutA(idx) => InvSetLayout(cfg, s, idx);
    case CycleLayoutA => InvTuning(cfg, s, 0, 0.0);
    case IncNmasterA(delta) => InvTuning(cfg, s, delta, 0.0);
    case SetMfactA(factor) => InvTuning(cfg, s, 0, factor);
    case ToggleScratchA(key) => InvScratches(cfg, s, key, None);
    case FocusOrToggleScratchA(key) => InvScratches(cfg, s, key, None);
    case ToggleMatchingA(candidate) => InvScratches(cfg, s, NO_KEY, candidate);
    case ToggleFloatingA => InvToggles(cfg, s);
    case ToggleFullscreenA => InvToggles(cfg, s);
  }
}
