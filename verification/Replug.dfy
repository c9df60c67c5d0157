/** The time between the last output going and the next one coming. */
module Replug {
  import opened Sequences
  import opened Tags
  import opened Monitors
  import opened Windows
  import opened Desktop
  import opened Pointer
  import opened Compositor
  import opened Invariant
  import opened Reachability
  import opened Actions
  import opened Strays
  import opened Scratchpads
  import opened Hotplug

  /** There is no monitor, and the window is as it was as far as tags and monitor go. */
  ghost predicate Waiting(s: State, t: State, w: Window) {
    && t.monitors == [] && w in t.windows
    && St(t.info, w).tags == St(s.info, w).tags && St(t.info, w).monIdx == St(s.info, w).monIdx
    && St(t.info, w).isX11 == St(s.info, w).isX11
  }

  /** Events that could retag the window, take it away, or bring an output. */
  predicate Meddles(e: Event, w: Window, isX11: bool) {
    match e
    case Dispatch(a) => TogglesScratch(a)
    case WindowClosed(v) => v == w
    case X11Unmapped(v) => v == w
    case X11Gone => isX11
    case RulesCommit(v, _) => v == w
    case Plugged(_, _) => true
    case _ => false
  }

  /** Without monitors nothing is arranged and nothing is focused. */
  lemma NothingToArrange(cfg: Config)
    ensures forall s: State {:trigger ArrangeAll(cfg, s)} :: s.monitors == [] ==> ArrangeAll(cfg, s) == s
    ensures forall s: State, mon, prev {:trigger ArrangeBoth(cfg, s, mon, prev)} :: s.monitors == [] ==> ArrangeBoth(cfg, s, mon, prev) == s
    ensures forall s: State {:trigger FocusedWindow(s)} :: s.monitors == [] ==> FocusedWindow(s) == None
    ensures forall s: State {:trigger TileMasterWindow(cfg, s)} :: s.monitors == [] ==> TileMasterWindow(cfg, s) == None
  {
    forall s: State | s.monitors == []
      ensures ArrangeAll(cfg, s) == s
      ensures FocusedWindow(s) == None && TileMasterWindow(cfg, s) == None
    {
      hide First;
    }
    forall s: State, mon, prev | s.monitors == []
      ensures ArrangeBoth(cfg, s, mon, prev) == s
    {
    }
  }

  lemma FocusWaits(cfg: Config, s: State, v: Option<Window>, w: Window)
    requires s.monitors == [] && w in s.windows
    ensures Waiting(s, FocusWindow(cfg, s, v), w)
  {
    hide ArrangeBoth, ToFront;
    NothingToArrange(cfg);
  }

  lemma ViewsWait(cfg: Config, s: State, mask: Mask, w: Window)
    requires s.monitors == [] && w in s.windows
    ensures View(cfg, s, mask) == s && ViewPrev(cfg, s) == s && ToggleView(cfg, s, mask) == s
    ensures Tag(cfg, s, mask) == s && ToggleTag(cfg, s, mask) == s
  {
    hide ArrangeAll, FocusedWindow, TagMask, Xor;
    NothingToArrange(cfg);
  }

  lemma {:induction false} SelectNone(q: Query, info: Info, ws: seq<Window>)
    requires forall w :: w in ws ==> !Sat(q, St(info, w))
    ensures Select(q, info, ws) == []
  {
    if ws != [] {
      var n := |ws| - 1;
      assert ws[n] in ws && forall w :: w in ws[..n] ==> w in ws;
      SelectNone(q, info, ws[..n]);
    }
  }

  lemma NoneEligible(s: State)
    requires s.monitors == []
    ensures Select(Steppable(SelTags(s), s.selMon), s.info, s.windows) == []
  {
    SelectNone(Steppable(SelTags(s), s.selMon), s.info, s.windows);
  }

  lemma StepsWait(cfg: Config, s: State, dir: int)
    requires s.monitors == []
    ensures FocusStackStep(cfg, s, dir) == s && Zoom(cfg, s) == s && FocusMon(cfg, s, dir) == s && TagMon(cfg, s, dir) == s
  {
    hide ArrangeAll, FocusedWindow, Select, FocusWindow;
    NothingToArrange(cfg);
    NoneEligible(s);
  }

  lemma UrgentWaits(cfg: Config, s: State, w: Window)
    requires s.monitors == [] && w in s.windows
    ensures Waiting(s, FocusUrgent(cfg, s), w)
  {
    hide ArrangeAll, FocusWindow, First;
    NothingToArrange(cfg);
    var u := FirstUrgent(s);
    if u.Some? {
      var a := s.(selMon := St(s.info, u.value).monIdx);
      FocusWaits(cfg, a, u, w);
    }
  }

  lemma FlagsWait(cfg: Config, s: State, a: Action)
    requires cfg.Sane() && s.monitors == []
    requires a.SetLayoutA? || a.CycleLayoutA? || a.IncNmasterA? || a.SetMfactA? || a.ToggleFloatingA? || a.ToggleFullscreenA? || a.ViewNextOccTagA?
    ensures Act(cfg, s, a) == s
  {
    hide ArrangeAll, FocusedWindow, View;
    NothingToArrange(cfg);
  }

  lemma ActWaits(cfg: Config, s: State, a: Action, w: Window)
    requires cfg.Sane() && s.monitors == [] && w in s.windows && !Meddles(Dispatch(a), w, false)
    ensures Waiting(s, Act(cfg, s, a), w)
  {
    hide View, ViewPrev, ToggleView, Tag, ToggleTag, FocusStackStep, Zoom, FocusMon, TagMon, FocusUrgent, SetLayout, CycleLayout,
         IncNmaster, SetMfact, ToggleFloating, ToggleFullscreen, NextOccTag, ViewNextOccTag;
    match a {
      case FocusStackA(dir) => StepsWait(cfg, s, dir);
      case ZoomA => StepsWait(cfg, s, 0);
      case FocusMonA(dir) => StepsWait(cfg, s, dir);
      case TagMonA(dir) => StepsWait(cfg, s, dir);
      case ViewA(mask) => ViewsWait(cfg, s, mask, w);
      case ViewPrevA => ViewsWait(cfg, s, {}, w);
      case ToggleViewA(mask) => ViewsWait(cfg, s, mask, w);
      case TagA(mask) => ViewsWait(cfg, s, mask, w);
      case ToggleTagA(mask) => ViewsWait(cfg, s, mask, w);
      case FocusUrgentA => UrgentWaits(cfg, s, w);
      case _ => FlagsWait(cfg, s, a);
    }
  }

  lemma OpeningWaits(cfg: Config, s: State, v: Window, float: bool, width: int, height: int, w: Window)
    requires s.monitors == [] && w in s.windows && v != w
    ensures Waiting(s, NewToplevel(cfg, s, v), w) && Waiting(s, MapX11(cfg, s, v, float, width, height), w)
  {
    hide ArrangeAll, ArrangeBoth, FocusWindow, ToFront, MapElement, InitialTags, BaseLoc;
    NothingToArrange(cfg);
    var st := NewWindowState.(tags := InitialTags(s), monIdx := s.selMon, isFloating := float, isX11 := true);
    var a := s.(info := s.info[v := st], space := MapElement(s.space, v, BaseLoc(s)), windows := [v] + s.windows);
    FocusWaits(cfg, if float then CentreX11(a, v, width, height) else a, Some(v), w);
  }

  lemma ClosingWaits(cfg: Config, s: State, v: Window, w: Window)
    requires s.monitors == [] && w in s.windows && v != w
    ensures Waiting(s, ToplevelDestroyed(cfg, s, v), w) && Waiting(s, UnmapX11(cfg, s, v), w)
  {
    hide ArrangeAll, FocusedWindow, TileMasterWindow, Without, UnmapElem, UnmapAll;
    NothingToArrange(cfg);
  }

  lemma GoneWaits(cfg: Config, s: State, w: Window)
    requires s.monitors == [] && w in s.windows && !St(s.info, w).isX11
    ensures Waiting(s, Disconnected(cfg, s), w)
  {
    hide ArrangeAll, FocusedWindow, Select, UnmapAll;
    NothingToArrange(cfg);
    assert Sat(NotX11, St(s.info, w));
  }

  lemma RulesWait(cfg: Config, s: State, v: Window, verdict: Verdict, w: Window)
    requires s.monitors == [] && w in s.windows && v != w
    ensures Waiting(s, FirstCommit(cfg, s, v, verdict), w)
  {
    hide ArrangeAll, FocusedWindow, ApplyRules;
    NothingToArrange(cfg);
    var a := s.(info := s.info[v := St(s.info, v).(rulesApplied := true)]);
    RulesOnlyCell(cfg, a, v, verdict);
    RulesKeepLists(cfg, a, v, verdict);
    assert ApplyRules(cfg, a, v, verdict).monitors == [] by { RulesKeepNone(cfg, a, v, verdict); }
  }

  lemma RulesKeepNone(cfg: Config, s: State, v: Window, verdict: Verdict)
    requires s.monitors == []
    ensures ApplyRules(cfg, s, v, verdict).monitors == []
  {
    hide FoldRules, TargetMonitor, InitialTags, TagMask, St;
  }

  lemma BufferWaits(cfg: Config, s: State, v: Window, width: int, height: int, floatType: bool, w: Window)
    requires s.monitors == [] && w in s.windows
    ensures Waiting(s, BufferCommit(cfg, s, v, width, height, floatType), w)
  {
    hide ArrangeAll, MapElement, MonitorData.Centre;
    NothingToArrange(cfg);
  }

  lemma ClientsWait(cfg: Config, s: State, e: Event, w: Window)
    requires cfg.Sane() && s.monitors == [] && w in s.windows && !Meddles(e, w, St(s.info, w).isX11)
    requires e.WindowOpened? || e.X11Mapped? || e.WindowClosed? || e.X11Unmapped? || e.X11Gone? || e.RulesCommit? || e.Commit? || e.Dispatch?
    ensures Waiting(s, Step(cfg, s, e), w)
  {
    hide NewToplevel, MapX11, ToplevelDestroyed, UnmapX11, Disconnected, FirstCommit, BufferCommit, Act, St;
    if Enabled(s, e) {
      match e {
        case Dispatch(a) => ActWaits(cfg, s, a, w);
        case WindowOpened(v) => OpeningWaits(cfg, s, v, false, 0, 0, w);
        case X11Mapped(v, float, width, height) => OpeningWaits(cfg, s, v, float, width, height, w);
        case WindowClosed(v) => ClosingWaits(cfg, s, v, w);
        case X11Unmapped(v) => ClosingWaits(cfg, s, v, w);
        case X11Gone => GoneWaits(cfg, s, w);
        case RulesCommit(v, verdict) => RulesWait(cfg, s, v, verdict, w);
        case Commit(v, width, height, floatType) => BufferWaits(cfg, s, v, width, height, floatType, w);
      }
    }
  }

  /** The pointer and its drags. */
  predicate ByPointer(e: Event) {
    e.PointerFocus? || e.PointerMoved? || e.MoveStarted? || e.MoveLost? || e.MoveEnded?
  }

  lemma StartWaits(cfg: Config, s: State, v: Window, from: Spot, w: Window)
    requires s.monitors == [] && w in s.windows
    ensures Waiting(s, StartMove(cfg, s, v, from), w)
  {
    hide FocusWindow, LocOf;
    var st := St(s.info, v);
    var a := s.(info := s.info[v := st.(isFloating := true)], grab := Some(Grab(v, st.isFloating, from, LocOf(s.space, v))));
    FocusWaits(cfg, a, Some(v), w);
    hide Waiting;
    assert StartMove(cfg, s, v, from) == FocusWindow(cfg, a, Some(v));
    WaitingOn(s, a, FocusWindow(cfg, a, Some(v)), w);
  }

  lemma WaitingOn(s: State, a: State, t: State, w: Window)
    requires Waiting(a, t, w)
    requires St(a.info, w).tags == St(s.info, w).tags && St(a.info, w).monIdx == St(s.info, w).monIdx
    requires St(a.info, w).isX11 == St(s.info, w).isX11
    ensures Waiting(s, t, w)
  {
  }

  lemma EndWaits(cfg: Config, s: State, w: Window)
    requires s.monitors == [] && w in s.windows
    ensures Waiting(s, EndMove(cfg, s), w)
  {
    hide ArrangeAll;
    NothingToArrange(cfg);
  }

  lemma MotionWaits(s: State, p: Spot, w: Window)
    requires s.monitors == [] && w in s.windows
    ensures Waiting(s, MoveGrabbed(SelectUnder(s, p), p), w)
  {
    hide MapElement, AreaAt, DraggedTo, St;
  }

  lemma PointerWaits(cfg: Config, s: State, e: Event, w: Window)
    requires cfg.Sane() && s.monitors == [] && w in s.windows && ByPointer(e)
    ensures Waiting(s, Step(cfg, s, e), w)
  {
    hide FocusWindow, StartMove, EndMove, MoveGrabbed, SelectUnder, St;
    match e {
      case PointerFocus(v) => FocusWaits(cfg, s, Some(v), w);
      case PointerMoved(p) => MotionWaits(s, p, w);
      case MoveStarted(v, from) => StartWaits(cfg, s, v, from, w);
      case MoveLost =>
      case MoveEnded => EndWaits(cfg, s, w);
    }
  }

  lemma OthersWait(cfg: Config, s: State, e: Event, w: Window)
    requires cfg.Sane() && s.monitors == [] && w in s.windows && !Meddles(e, w, St(s.info, w).isX11) && !ByPointer(e)
    requires !(e.WindowOpened? || e.X11Mapped? || e.WindowClosed? || e.X11Unmapped? || e.X11Gone? || e.RulesCommit? || e.Commit? || e.Dispatch?)
    ensures Waiting(s, Step(cfg, s, e), w)
  {
    hide ArrangeAll, MapElement, ConfiguredLoc, LocOf;
    NothingToArrange(cfg);
    assert e.Unplugged? ==> MonitorFor(s.monitors, e.output) == None;
    hide MonitorFor, UnplugMonitor;
  }

  /** Until the next output comes, nothing but the window's own rules, a scratchpad toggle or its end changes it. */
  lemma StepWaits(cfg: Config, s: State, e: Event, w: Window)
    requires cfg.Sane() && s.monitors == [] && w in s.windows && !Meddles(e, w, St(s.info, w).isX11)
    ensures Waiting(s, Step(cfg, s, e), w)
  {
    if e.WindowOpened? || e.X11Mapped? || e.WindowClosed? || e.X11Unmapped? || e.X11Gone? || e.RulesCommit? || e.Commit? || e.Dispatch? {
      ClientsWait(cfg, s, e, w);
    } else if ByPointer(e) {
      PointerWaits(cfg, s, e, w);
    } else {
      OthersWait(cfg, s, e, w);
    }
  }

  lemma {:induction false} RunWaits(cfg: Config, s: State, events: seq<Event>, w: Window)
    requires cfg.Sane() && s.monitors == [] && w in s.windows && forall e :: e in events ==> !Meddles(e, w, St(s.info, w).isX11)
    ensures Waiting(s, Run(cfg, s, events), w)
  {
    hide Step, Meddles;
    if events != [] {
      var n := |events| - 1;
      assert forall e :: e in events[..n] ==> e in events;
      RunWaits(cfg, s, events[..n], w);
      assert events[n] in events;
      StepWaits(cfg, Run(cfg, s, events[..n]), events[n], w);
    }
  }

  /**
   The last output goes, any such run passes, another output comes: a window is visible exactly when it had tags
   and the monitor that went showed tag 1, whatever tags the window had.
   */
  lemma LastMonitorCollapses(cfg: Config, s: State, events: seq<Event>, output: Output, rule: MonitorRule, w: Window)
    requires cfg.Sane() && Inv(cfg, s) && |s.monitors| == 1 && w in s.windows
    requires forall e :: e in events ==> !Meddles(e, w, St(s.info, w).isX11)
    ensures var t := Run(cfg, OutputRemoved(cfg, s, s.monitors[0].output), events);
            var u := PlugMonitor(cfg, t, output, rule);
            && |u.monitors| == 1 && MonitorOf(u, w) == Some(u.monitors[0])
            && St(u.info, w).tags == (if St(s.info, w).tags == {} then {} else s.monitors[0].Tags())
            && (Meets(St(u.info, w).tags, u.monitors[0].Tags()) <==> St(s.info, w).tags != {} && 0 in s.monitors[0].Tags())
  {
    hide UnplugMonitor, Inv, MonitorData.Tags, Run, PlugMonitor, Meddles, ArrangeAll;
    StateAt(cfg, s, w);
    OrphansAdopted(cfg, s, 0, w);
    var r := UnplugMonitor(s, 0);
    assert r.monitors == [] by { NoneLeft(s); }
    assert r.windows == s.windows by { UnplugKeepsWindows(s); }
    NothingToArrange(cfg);
    assert St(r.info, w).isX11 == St(s.info, w).isX11 by { UnplugKeepsX11(cfg, s, w); }
    assert OutputRemoved(cfg, s, s.monitors[0].output) == r by { FoundFirst(s); }
    RunWaits(cfg, r, events, w);
    var t := Run(cfg, r, events);
    PluggedTags(cfg, t, output, rule);
    PluggedRest(cfg, t, output, rule);
    MeetsZero(St(t.info, w).tags);
  }

  lemma UnplugKeepsX11(cfg: Config, s: State, w: Window)
    requires Inv(cfg, s) && |s.monitors| == 1 && w in s.windows
    ensures St(UnplugMonitor(s, 0).info, w).isX11 == St(s.info, w).isX11
  {
    hide UnplugMonitor, MonitorsOk, CellsOk, StraysOk, TargetTags, MigrationTarget;
    UnpluggedCell(s, 0, w);
  }

  lemma UnplugKeepsWindows(s: State)
    requires |s.monitors| == 1
    ensures UnplugMonitor(s, 0).windows == s.windows
  {
  }

  lemma FoundFirst(s: State)
    requires |s.monitors| == 1
    ensures MonitorFor(s.monitors, s.monitors[0].output) == Some(0)
  {
  }

  lemma PluggedRest(cfg: Config, s: State, output: Output, rule: MonitorRule)
    ensures var u := PlugMonitor(cfg, s, output, rule); u.info == s.info && |u.monitors| == |s.monitors| + 1
  {
  }
}
