/** What is on the screen over whole runs: managed windows and popups, and when there can be anything else. */
module Screen {
  import opened Sequences
  import opened Tags
  import opened History
  import opened Monitors
  import opened Windows
  import opened Desktop
  import opened Pointer
  import opened Compositor
  import opened Frames
  import opened Arranging
  import opened Actions
  import opened Strays
  import opened Lifecycle
  import opened FloatingWindows

  /** Known to no list that gives a window a place. */
  predicate Unlisted(s: State, w: Window) {
    w !in s.windows && w !in s.popups
  }

  /** No ghosts: whatever is mapped is a managed window or a popup. */
  ghost predicate NoGhosts(s: State) {
    forall w :: Unlisted(s, w) ==> LocOf(s.space, w) == None
  }

  /** A window unlisted afterwards is off the screen, or was unlisted before and has not been touched. */
  ghost predicate Clears(s: State, t: State) {
    forall w {:trigger LocOf(t.space, w)} :: w !in t.windows && w !in t.popups ==>
      LocOf(t.space, w) == None || (w !in s.windows && w !in s.popups && LocOf(t.space, w) == LocOf(s.space, w))
  }

  lemma ClearsNoGhosts(s: State, t: State)
    requires NoGhosts(s) && Clears(s, t)
    ensures NoGhosts(t)
  {
    hide LocOf;
    forall w | Unlisted(t, w)
      ensures LocOf(t.space, w) == None
    {
      assert LocOf(t.space, w) == None || Unlisted(s, w);
    }
  }

  lemma ArrangingClears(cfg: Config)
    ensures forall s: State, w: Window {:trigger LocOf(ArrangeAll(cfg, s).space, w)} ::
      w !in s.windows ==> LocOf(ArrangeAll(cfg, s).space, w) == LocOf(s.space, w)
    ensures forall s: State, mon, prev, w: Window {:trigger LocOf(ArrangeBoth(cfg, s, mon, prev).space, w)} ::
      w !in s.windows ==> LocOf(ArrangeBoth(cfg, s, mon, prev).space, w) == LocOf(s.space, w)
    ensures forall s: State, v, w: Window {:trigger LocOf(FocusWindow(cfg, s, v).space, w)} ::
      w !in s.windows ==> LocOf(FocusWindow(cfg, s, v).space, w) == LocOf(s.space, w)
  {
    hide ArrangeAll, ArrangeBoth, FocusWindow, LocOf;
    forall s: State, w: Window | w !in s.windows
      ensures LocOf(ArrangeAll(cfg, s).space, w) == LocOf(s.space, w)
    {
      ArrangeAllUnmanaged(cfg, s, w);
    }
    forall s: State, mon, prev, w: Window | w !in s.windows
      ensures LocOf(ArrangeBoth(cfg, s, mon, prev).space, w) == LocOf(s.space, w)
    {
      ArrangeBothUnmanaged(cfg, s, mon, prev, w);
    }
    forall s: State, v, w: Window | w !in s.windows
      ensures LocOf(FocusWindow(cfg, s, v).space, w) == LocOf(s.space, w)
    {
      FocusUnmanaged(cfg, s, v, w);
    }
  }

  lemma ViewsClear(cfg: Config, s: State, mask: Mask)
    ensures Clears(s, View(cfg, s, mask)) && Clears(s, ViewPrev(cfg, s)) && Clears(s, ToggleView(cfg, s, mask))
  {
    hide ArrangeAll, FocusWindow, FocusedWindow, Update, Xor, TagMask, MonitorData.Tags, LocOf,
         MonitorData.View, MonitorData.ViewPrev, MonitorData.ToggleView;
    ArrangeAllLists(cfg);
    FocusLists(cfg);
    ArrangingClears(cfg);
  }

  lemma TagsClear(cfg: Config, s: State, mask: Mask)
    ensures Clears(s, Tag(cfg, s, mask)) && Clears(s, ToggleTag(cfg, s, mask))
  {
    hide ArrangeAll, FocusWindow, FocusedWindow, Update, Xor, TagMask, MonitorData.Tags, MonitorData.View, WithTags, LocOf;
    ArrangeAllLists(cfg);
    FocusLists(cfg);
    ArrangingClears(cfg);
  }

  lemma StepsClear(cfg: Config, s: State, dir: int)
    ensures Clears(s, FocusStackStep(cfg, s, dir))
  {
    hide FocusWindow, FocusedWindow, Select, Find, SelTags, LocOf;
    FocusLists(cfg);
    ArrangingClears(cfg);
  }

  lemma FocusMonClears(cfg: Config, s: State, dir: int)
    ensures Clears(s, FocusMon(cfg, s, dir))
  {
    hide ArrangeAll, FocusWindow, FocusedWindow, DirToMonitor, LocOf;
    ArrangeAllLists(cfg);
    FocusLists(cfg);
    ArrangingClears(cfg);
  }

  lemma MovesClear(cfg: Config, s: State, dir: int)
    ensures Clears(s, TagMon(cfg, s, dir)) && Clears(s, FocusUrgent(cfg, s))
  {
    hide ArrangeAll, FocusWindow, FocusedWindow, First, DirToMonitor, MonitorData.Tags, MonitorData.View, LocOf, St;
    ArrangeAllLists(cfg);
    FocusLists(cfg);
    ArrangingClears(cfg);
  }

  lemma ZoomClears(cfg: Config, s: State)
    ensures Clears(s, Zoom(cfg, s))
  {
    hide ArrangeAll, FocusWindow, ZoomTarget, ToFront, LocOf;
    ArrangeAllLists(cfg);
    FocusLists(cfg);
    ArrangingClears(cfg);
  }

  lemma ScratchClears(cfg: Config, s: State, w: Window)
    ensures Clears(s, HideScratch(cfg, s, w)) && Clears(s, ShowScratch(cfg, s, w))
  {
    hide ArrangeAll, FocusWindow, FocusedWindow, LocOf, Without, InitialTags, WithTags;
    ArrangeAllLists(cfg);
    FocusLists(cfg);
    ArrangingClears(cfg);
  }

  lemma TogglesClear(cfg: Config, s: State, a: Action)
    requires cfg.Sane() && TogglesScratch(a)
    ensures Clears(s, Act(cfg, s, a))
  {
    hide Act, HiddenBy, HideScratch, ShowScratch, LocOf;
    TogglesAre(cfg, s, a);
    var t := Act(cfg, s, a);
    var h := HiddenBy(s, Dispatch(a));
    if h.Some? {
      ScratchClears(cfg, s, h.value);
    } else if t != s {
      var w :| w in s.windows && t == ShowScratch(cfg, s, w);
      ScratchClears(cfg, s, w);
    }
  }

  lemma TuningClears(cfg: Config, s: State, a: Action)
    requires cfg.Sane() && Tunes(a)
    ensures Clears(s, Act(cfg, s, a))
  {
    hide ArrangeAll, FocusedWindow, MonitorData.SetLayout, Clamp, LocOf, St;
    ArrangeAllLists(cfg);
    ArrangingClears(cfg);
  }

  lemma ActClears(cfg: Config, s: State, a: Action)
    requires cfg.Sane()
    ensures Clears(s, Act(cfg, s, a))
  {
    if Tunes(a) {
      TuningClears(cfg, s, a);
    } else if TogglesScratch(a) {
      TogglesClear(cfg, s, a);
    } else {
      hide View, ViewPrev, ToggleView, Tag, ToggleTag, FocusStackStep, Zoom, FocusMon, TagMon, FocusUrgent, NextOccTag, SetLayout,
         CycleLayout, IncNmaster, SetMfact, ToggleFloating, ToggleFullscreen, ToggleScratch, FocusOrToggleScratch, ToggleMatching,
           LocOf;
      match a {
        case FocusStackA(dir) => StepsClear(cfg, s, dir);
        case ZoomA => ZoomClears(cfg, s);
        case FocusMonA(dir) => FocusMonClears(cfg, s, dir);
        case TagMonA(dir) => MovesClear(cfg, s, dir);
        case FocusUrgentA => MovesClear(cfg, s, 0);
        case ViewA(mask) => ViewsClear(cfg, s, mask);
        case ViewPrevA => ViewsClear(cfg, s, {});
        case ViewNextOccTagA(dir) =>
          if NextOccTag(cfg, s, dir).Some? {
            ViewsClear(cfg, s, NextOccTag(cfg, s, dir).value);
          }
        case ToggleViewA(mask) => ViewsClear(cfg, s, mask);
        case TagA(mask) => TagsClear(cfg, s, mask);
        case ToggleTagA(mask) => TagsClear(cfg, s, mask);
      }
    }
  }

  lemma ToplevelClears(cfg: Config, s: State, w: Window)
    ensures Clears(s, NewToplevel(cfg, s, w))
  {
    hide ArrangeBoth, ToFront, MapElement, InitialTags, BaseLoc, FramedMonitors, SameCore, LocOf;
    forall t: State, mon, prev
      ensures ArrangeBoth(cfg, t, mon, prev).windows == t.windows && ArrangeBoth(cfg, t, mon, prev).popups == t.popups
    {
      ArrangeBothFramed(cfg, t, mon, prev);
    }
    ArrangingClears(cfg);
  }

  lemma X11Clears(cfg: Config, s: State, w: Window, float: bool, width: int, height: int)
    ensures Clears(s, MapX11(cfg, s, w, float, width, height))
  {
    hide ArrangeAll, FocusWindow, MapElement, MonitorData.Centre, InitialTags, BaseLoc, LocOf;
    ArrangeAllLists(cfg);
    FocusLists(cfg);
    ArrangingClears(cfg);
  }

  lemma ClosingClears(cfg: Config, s: State, w: Window)
    ensures Clears(s, ToplevelDestroyed(cfg, s, w))
    ensures Clears(s, UnmapX11(cfg, s, w))
  {
    hide ArrangeAll, FocusWindow, FocusedWindow, TileMasterWindow, Without, UnmapElem, UnmapAll, LocOf;
    ArrangeAllLists(cfg);
    FocusLists(cfg);
    ArrangingClears(cfg);
  }

  lemma ClearsThen(s: State, t: State, u: State)
    requires Clears(s, t) && Clears(t, u)
    ensures Clears(s, u)
  {
    hide LocOf;
    forall w | w !in u.windows && w !in u.popups
      ensures LocOf(u.space, w) == None || (w !in s.windows && w !in s.popups && LocOf(u.space, w) == LocOf(s.space, w))
    {
      assert LocOf(u.space, w) == None || LocOf(u.space, w) == LocOf(t.space, w);
    }
  }

  lemma RefocusClears(cfg: Config, s: State)
    ensures Clears(s, ArrangeAll(cfg, Refocus(cfg, s)))
  {
    hide ArrangeAll, FocusWindow, FocusedWindow, LocOf;
    ArrangeAllLists(cfg);
    FocusLists(cfg);
    ArrangingClears(cfg);
  }

  lemma DismissalClears(s: State, dead: seq<Window>)
    requires dead == Select(IsX11, s.info, s.windows)
    ensures Clears(s, Dismissed(s, Select(NotX11, s.info, s.windows), Select(NotX11, s.info, s.focus), UnmapAll(UnmapAll(s.space, dead), s.popups)))
  {
    hide Select, UnmapAll, LocOf;
  }

  lemma GoneClears(cfg: Config, s: State)
    ensures Clears(s, Disconnected(cfg, s))
  {
    hide ArrangeAll, Refocus, Select, UnmapAll, LocOf, Clears;
    var dead := Select(IsX11, s.info, s.windows);
    if dead == [] && s.popups == [] {
      SameClears(s);
    } else {
      var rest := Dismissed(s, Select(NotX11, s.info, s.windows), Select(NotX11, s.info, s.focus),
                            UnmapAll(UnmapAll(s.space, dead), s.popups));
      DismissalClears(s, dead);
      RefocusClears(cfg, rest);
      ClearsThen(s, rest, ArrangeAll(cfg, Refocus(cfg, rest)));
    }
  }

  lemma SameClears(s: State)
    ensures Clears(s, s)
  {
  }

  lemma CommitsClear(cfg: Config, s: State, w: Window, verdict: Verdict)
    ensures Clears(s, FirstCommit(cfg, s, w, verdict))
  {
    hide ArrangeAll, FocusWindow, FocusedWindow, ApplyRules, LocOf;
    ArrangeAllLists(cfg);
    FocusLists(cfg);
    ArrangingClears(cfg);
    RulesKeepLists(cfg, s.(info := s.info[w := St(s.info, w).(rulesApplied := true)]), w, verdict);
  }

  lemma BufferClears(cfg: Config, s: State, w: Window, width: int, height: int, floatType: bool)
    requires w in s.windows
    ensures Clears(s, BufferCommit(cfg, s, w, width, height, floatType))
  {
    hide ArrangeAll, MapElement, MonitorData.Centre, AllVisible, LocOf, Meets, St;
    ArrangeAllLists(cfg);
    ArrangingClears(cfg);
  }

  /** The pointer is dragging a window that is in no list: one that closed during the drag. */
  predicate DragsGhost(s: State, e: Event) {
    e.PointerMoved? && s.grab.Some? && Dragging(s, s.grab.value.w) && Unlisted(s, s.grab.value.w)
  }

  lemma DragClears(s: State, p: Spot)
    requires !DragsGhost(s, PointerMoved(p))
    ensures Clears(s, MoveGrabbed(SelectUnder(s, p), p))
  {
    hide MapElement, LocOf, DraggedTo, AreaAt;
  }

  lemma DragMaps(s: State, p: Spot)
    requires DragsGhost(s, PointerMoved(p))
    ensures var t := MoveGrabbed(SelectUnder(s, p), p);
            Unlisted(t, s.grab.value.w) && LocOf(t.space, s.grab.value.w).Some?
  {
    hide MapElement, LocOf, DraggedTo, AreaAt;
  }

  lemma PlacingClears(cfg: Config, s: State, e: Event)
    requires cfg.Sane() && (e.PopupMapped? || e.X11Configured? || e.X11Moved?)
    ensures Clears(s, Step(cfg, s, e))
  {
    hide MapElement, ConfiguredLoc, LocOf, St;
  }

  lemma OutputsClear(cfg: Config, s: State, output: Output, rule: MonitorRule)
    ensures Clears(s, OutputAdded(cfg, s, output, rule)) && Clears(s, OutputRemoved(cfg, s, output))
  {
    hide ArrangeAll, Fresh, MonitorData.Restore, MonitorData.Snapshot, AdoptAll, ShiftAll, MigrationTarget, LocOf, MonitorFor,
         MonitorData.Tags;
    ArrangeAllLists(cfg);
    ArrangingClears(cfg);
  }

  lemma OutputStep(cfg: Config, s: State, e: Event)
    requires cfg.Sane()
    ensures e.Plugged? ==> Step(cfg, s, e) == if Enabled(s, e) then OutputAdded(cfg, s, e.output, e.rule) else s
    ensures e.Unplugged? ==> Step(cfg, s, e) == OutputRemoved(cfg, s, e.output)
  {
    hide OutputAdded, OutputRemoved;
  }

  lemma ListlessClears(cfg: Config, s: State, e: Event)
    requires cfg.Sane() && Listless(e) && !DragsGhost(s, e)
    ensures Clears(s, Step(cfg, s, e))
  {
    if e.Commit? {
      CommitStep(cfg, s, e);
      if Enabled(s, e) {
        BufferClears(cfg, s, e.w, e.width, e.height, e.floatType);
      }
    } else if e.PointerMoved? {
      DragStep(cfg, s, e.p);
      DragClears(s, e.p);
    } else if e.PopupMapped? || e.X11Configured? || e.X11Moved? {
      PlacingClears(cfg, s, e);
    } else if e.Plugged? || e.Unplugged? {
      OutputStep(cfg, s, e);
      OutputsClear(cfg, s, e.output, if e.Plugged? then e.rule else MonitorRule(0, 0.0, 0, Rect(Point(0, 0), 0, 0)));
    } else {
      FlagsClear(cfg, s, e);
    }
  }

  lemma FlagsClear(cfg: Config, s: State, e: Event)
    requires cfg.Sane()
    requires e.MoveLost? || e.MoveEnded? || e.SetLocked? || e.SetUrgent? || e.SetZone? || e.FullscreenRequest? || e.ParentChanged?
    ensures Clears(s, Step(cfg, s, e))
  {
    hide ArrangeAll, AreaAt, LocOf, St;
    ArrangeAllLists(cfg);
    ArrangingClears(cfg);
  }

  lemma CommitStep(cfg: Config, s: State, e: Event)
    requires cfg.Sane() && e.Commit?
    ensures Step(cfg, s, e) == if Enabled(s, e) then BufferCommit(cfg, s, e.w, e.width, e.height, e.floatType) else s
    ensures Enabled(s, e) ==> e.w in s.windows
  {
    hide BufferCommit;
  }

  lemma PointingClears(cfg: Config, s: State, e: Event)
    requires cfg.Sane() && PointsAt(e).Some?
    ensures Clears(s, Step(cfg, s, e))
  {
    hide FocusWindow, St, LocOf;
    FocusLists(cfg);
    ArrangingClears(cfg);
  }

  lemma StepClears(cfg: Config, s: State, e: Event)
    requires cfg.Sane() && !DragsGhost(s, e)
    ensures Clears(s, Step(cfg, s, e))
  {
    if Listless(e) {
      ListlessClears(cfg, s, e);
      return;
    }
    if PointsAt(e).Some? {
      PointingClears(cfg, s, e);
      return;
    }
    hide Act, NewToplevel, MapX11, ToplevelDestroyed, UnmapX11, Disconnected, FirstCommit, St, Clears;
    SameClears(s);
    if Enabled(s, e) {
      match e {
        case Dispatch(a) => ActClears(cfg, s, a);
        case WindowOpened(w) => ToplevelClears(cfg, s, w);
        case X11Mapped(w, float, width, height) => X11Clears(cfg, s, w, float, width, height);
        case WindowClosed(w) => ClosingClears(cfg, s, w);
        case X11Unmapped(w) => ClosingClears(cfg, s, w);
        case X11Gone => GoneClears(cfg, s);
        case RulesCommit(w, verdict) => CommitsClear(cfg, s, w, verdict);
      }
    }
  }

  /** Exactly what puts anything else on the screen: dragging on a window that has closed. */
  lemma NoGhostsIff(cfg: Config, s: State, e: Event)
    requires cfg.Sane() && NoGhosts(s)
    ensures NoGhosts(Step(cfg, s, e)) <==> !DragsGhost(s, e)
  {
    hide Step, Clears, LocOf;
    if DragsGhost(s, e) {
      DragStep(cfg, s, e.p);
      DragMaps(s, e.p);
    } else {
      StepClears(cfg, s, e);
      ClearsNoGhosts(s, Step(cfg, s, e));
    }
  }

  ghost predicate NoGhostDrags(cfg: Config, s: State, events: seq<Event>)
    requires cfg.Sane()
  {
    forall k :: 0 <= k < |events| ==> !DragsGhost(Run(cfg, s, events[..k]), events[k])
  }

  lemma {:induction false} RunNoGhosts(cfg: Config, s: State, events: seq<Event>)
    requires cfg.Sane() && NoGhosts(s) && NoGhostDrags(cfg, s, events)
    ensures NoGhosts(Run(cfg, s, events))
  {
    hide Step, NoGhosts, DragsGhost;
    if events != [] {
      var n := |events| - 1;
      var init := events[..n];
      forall k | 0 <= k < n
        ensures !DragsGhost(Run(cfg, s, init[..k]), init[k])
      {
        assert init[..k] == events[..k];
      }
      RunNoGhosts(cfg, s, init);
      NoGhostsIff(cfg, Run(cfg, s, init), events[n]);
    }
  }

  /** In every state reachable without that, everything in the space is a managed window or a popup. */
  lemma ReachableNoGhosts(cfg: Config, events: seq<Event>)
    requires cfg.Sane() && NoGhostDrags(cfg, Initial, events)
    ensures NoGhosts(Run(cfg, Initial, events))
  {
    hide Run, NoGhostDrags;
    RunNoGhosts(cfg, Initial, events);
  }

  /**
   An X11 window that configures itself is mapped there and then if it floats, whether its tags are shown
   or not; the next `arrange_all` hides it again, and remembers the place it asked for.
   */
  lemma ConfigureMapsHidden(cfg: Config, s: State, w: Window, at: Point, x: Option<int>, y: Option<int>)
    requires cfg.Sane() && w in s.windows && w !in s.popups && s.monitors != [] && !Shown(s, w)
    requires St(s.info, w).isFloating && !St(s.info, w).isFullscreen
    ensures var t := ConfigureX11(s, w, at, x, y);
            var loc := ConfiguredLoc(St(s.info, w), at, x, y);
            && LocOf(t.space, w) == Some(loc) && !Shown(t, w)
            && LocOf(ArrangeAll(cfg, t).space, w) == None
            && Remembered(Desk(ArrangeAll(cfg, t).space, ArrangeAll(cfg, t).info), w) == Some(loc)
  {
    hide ArrangeAll, LocOf, MapElement, ConfiguredLoc, Meets, AllVisible;
    var t := ConfigureX11(s, w, at, x, y);
    assert w in t.windows;
    ArrangeAllShowsExactly(cfg, t, w);
    ArrangeAllRests(cfg, t, w, ConfiguredLoc(St(s.info, w), at, x, y));
  }
}
