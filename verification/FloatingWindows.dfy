/** A floating window comes back to where it was last put, however often its tags are hidden in between. */
module FloatingWindows {
  import opened Sequences
  import opened Tags
  import opened History
  import opened Monitors
  import opened Windows
  import opened Desktop
  import opened Pointer
  import opened Compositor
  import opened Arranging
  import opened Invariant
  import opened Reachability

  /** The events that end a floating window's claim to its place: it closes, or stops floating. */
  predicate Disturbs(s: State, e: Event, w: Window) {
    match e
    case Dispatch(a) => (a.ToggleFloatingA? || a.ToggleFullscreenA?) && FocusedWindow(s) == Some(w)
    case MoveEnded => !s.locked && s.grab.Some? && s.grab.value.w == w && !s.grab.value.wasFloating
    case WindowClosed(v) => v == w
    case X11Unmapped(v) => v == w
    case X11Gone => St(s.info, w).isX11
    case FullscreenRequest(v, on) => v == w && on
    case _ => false
  }

  /** Whether the pointer is dragging `w` about. */
  predicate Dragging(s: State, w: Window) {
    !s.locked && s.grab.Some? && s.grab.value.w == w && s.grab.value.origin.Some?
  }

  /** Where an event puts a floating window that is at `loc`: only a drag and its own X11 requests move it. */
  function PlaceAfter(s: State, e: Event, w: Window, loc: Point): Point {
    match e
    case PointerMoved(p) => if Dragging(s, w) then DraggedTo(s.grab.value.origin.value, s.grab.value.start, p) else loc
    case X11Configured(v, at, x, y) => if v == w && Enabled(s, e) then ConfiguredLoc(St(s.info, w), at, x, y) else loc
    case X11Moved(v, l) => if v == w && Enabled(s, e) then l else loc
    case _ => loc
  }

  lemma ArrangeAllKeeps(cfg: Config, w: Window, loc: Point)
    ensures forall s :: Settled(s, w, loc) ==> Settled(ArrangeAll(cfg, s), w, loc)
  {
    hide ArrangeAll, Settled;
    forall s | Settled(s, w, loc)
      ensures Settled(ArrangeAll(cfg, s), w, loc)
    {
      ArrangeAllSettled(cfg, s, w, loc);
    }
  }

  lemma FocusKeeps(cfg: Config, w: Window, loc: Point)
    ensures forall s, v :: Settled(s, w, loc) ==> Settled(FocusWindow(cfg, s, v), w, loc)
  {
    hide FocusWindow, Settled;
    forall s, v | Settled(s, w, loc)
      ensures Settled(FocusWindow(cfg, s, v), w, loc)
    {
      FocusSettled(cfg, s, v, w, loc);
    }
  }

  /** Settling depends on the window lists, the window's own cell and the space only. */
  lemma SettledEdit(s: State, t: State, w: Window, loc: Point)
    requires Settled(s, w, loc) && w in t.windows && w !in t.popups
    requires LocOf(t.space, w) == LocOf(s.space, w)
    requires SamePlace(St(s.info, w), St(t.info, w))
    ensures Settled(t, w, loc)
  {
    hide LocOf;
  }

  lemma SettledViews(cfg: Config, s: State, mask: Mask, w: Window, loc: Point)
    requires Settled(s, w, loc)
    ensures Settled(View(cfg, s, mask), w, loc)
    ensures Settled(ViewPrev(cfg, s), w, loc)
    ensures Settled(ToggleView(cfg, s, mask), w, loc)
  {
    hide ArrangeAll, FocusWindow, FocusedWindow, MonitorData.View, MonitorData.ViewPrev, MonitorData.ToggleView, LocOf;
    ArrangeAllKeeps(cfg, w, loc);
    FocusKeeps(cfg, w, loc);
  }

  lemma SettledTags(cfg: Config, s: State, mask: Mask, w: Window, loc: Point)
    requires Settled(s, w, loc)
    ensures Settled(Tag(cfg, s, mask), w, loc)
    ensures Settled(ToggleTag(cfg, s, mask), w, loc)
  {
    hide ArrangeAll, FocusWindow, FocusedWindow, MonitorData.View, LocOf;
    ArrangeAllKeeps(cfg, w, loc);
    FocusKeeps(cfg, w, loc);
  }

  lemma SettledMoves(cfg: Config, s: State, dir: int, w: Window, loc: Point)
    requires Settled(s, w, loc)
    ensures Settled(FocusStackStep(cfg, s, dir), w, loc)
    ensures Settled(FocusMon(cfg, s, dir), w, loc)
    ensures Settled(TagMon(cfg, s, dir), w, loc)
    ensures Settled(FocusUrgent(cfg, s), w, loc)
  {
    hide ArrangeAll, FocusWindow, FocusedWindow, MonitorData.View, LocOf, Select, Find, First, DirToMonitor;
    ArrangeAllKeeps(cfg, w, loc);
    FocusKeeps(cfg, w, loc);
  }

  lemma SettledZoom(cfg: Config, s: State, w: Window, loc: Point)
    requires Settled(s, w, loc)
    ensures Settled(Zoom(cfg, s), w, loc)
  {
    hide ArrangeAll, FocusWindow, ZoomTarget, LocOf;
    ArrangeAllKeeps(cfg, w, loc);
    FocusKeeps(cfg, w, loc);
  }

  lemma SettledTuning(cfg: Config, s: State, a: Action, w: Window, loc: Point)
    requires cfg.Sane() && Settled(s, w, loc) && !Disturbs(s, Dispatch(a), w) && Tunes(a)
    ensures Settled(Act(cfg, s, a), w, loc)
  {
    hide ArrangeAll, FocusedWindow, MonitorData.SetLayout, LocOf, Clamp;
    ArrangeAllKeeps(cfg, w, loc);
  }

  lemma SettledScratch(cfg: Config, s: State, v: Window, w: Window, loc: Point)
    requires Settled(s, w, loc)
    ensures Settled(HideScratch(cfg, s, v), w, loc) && Settled(ShowScratch(cfg, s, v), w, loc)
  {
    hide ArrangeAll, FocusWindow, FocusedWindow, LocOf, Without, InitialTags;
    ArrangeAllKeeps(cfg, w, loc);
    FocusKeeps(cfg, w, loc);
  }

  lemma SettledScratches(cfg: Config, s: State, key: char, candidate: Option<Window>, w: Window, loc: Point)
    requires Settled(s, w, loc)
    ensures Settled(ToggleScratch(cfg, s, key), w, loc) && Settled(FocusOrToggleScratch(cfg, s, key), w, loc)
    ensures Settled(ToggleMatching(cfg, s, candidate), w, loc)
  {
    hide HideScratch, ShowScratch, Settled, First, FocusedWindow, Meets, SelTags;
    var v := FindScratch(s, key);
    if v.Some? {
      SettledScratch(cfg, s, v.value, w, loc);
    }
    if candidate.Some? {
      SettledScratch(cfg, s, candidate.value, w, loc);
    }
  }

  lemma SettledAct(cfg: Config, s: State, a: Action, w: Window, loc: Point)
    requires cfg.Sane() && Settled(s, w, loc) && !Disturbs(s, Dispatch(a), w)
    ensures Settled(Act(cfg, s, a), w, loc)
  {
    hide Settled, FocusStackStep, Zoom, View, ViewPrev, ToggleView, Tag, ToggleTag, FocusMon, TagMon, FocusUrgent,
         NextOccTag, Disturbs, SetLayout, CycleLayout, IncNmaster, SetMfact, ToggleFloating, ToggleFullscreen,
         ToggleScratch, FocusOrToggleScratch, ToggleMatching;
    match a {
      case FocusStackA(dir) => SettledMoves(cfg, s, dir, w, loc);
      case ZoomA => SettledZoom(cfg, s, w, loc);
      case ViewA(mask) => SettledViews(cfg, s, mask, w, loc);
      case ViewPrevA => SettledViews(cfg, s, {}, w, loc);
      case ViewNextOccTagA(dir) =>
        if NextOccTag(cfg, s, dir).Some? {
          SettledViews(cfg, s, NextOccTag(cfg, s, dir).value, w, loc);
        }
      case ToggleViewA(mask) => SettledViews(cfg, s, mask, w, loc);
      case TagA(mask) => SettledTags(cfg, s, mask, w, loc);
      case ToggleTagA(mask) => SettledTags(cfg, s, mask, w, loc);
      case FocusMonA(dir) => SettledMoves(cfg, s, dir, w, loc);
      case TagMonA(dir) => SettledMoves(cfg, s, dir, w, loc);
      case FocusUrgentA => SettledMoves(cfg, s, 0, w, loc);
      case ToggleScratchA(key) => SettledScratches(cfg, s, key, None, w, loc);
      case FocusOrToggleScratchA(key) => SettledScratches(cfg, s, key, None, w, loc);
      case ToggleMatchingA(candidate) => SettledScratches(cfg, s, NO_KEY, candidate, w, loc);
      case _ => SettledTuning(cfg, s, a, w, loc);
    }
  }

  lemma ArrangeBothKeeps(cfg: Config, w: Window, loc: Point)
    ensures forall s, mon, prev :: Settled(s, w, loc) ==> Settled(ArrangeBoth(cfg, s, mon, prev), w, loc)
  {
    hide ArrangeBoth, Settled;
    forall s, mon, prev | Settled(s, w, loc)
      ensures Settled(ArrangeBoth(cfg, s, mon, prev), w, loc)
    {
      ArrangeBothSettled(cfg, s, mon, prev, w, loc);
    }
  }

  lemma SettledOpened(cfg: Config, s: State, v: Window, float: bool, width: int, height: int, at: Point, w: Window, loc: Point)
    requires Settled(s, w, loc) && v != w
    ensures Settled(NewToplevel(cfg, s, v), w, loc)
    ensures Settled(MapX11(cfg, s, v, float, width, height), w, loc)
    ensures Settled(MapPopup(s, v, at), w, loc)
  {
    hide ArrangeAll, ArrangeBoth, FocusWindow, LocOf, MapElement, ToFront, MonitorData.Centre, InitialTags, BaseLoc;
    ArrangeAllKeeps(cfg, w, loc);
    ArrangeBothKeeps(cfg, w, loc);
    FocusKeeps(cfg, w, loc);
  }

  lemma SettledClosed(cfg: Config, s: State, v: Window, w: Window, loc: Point)
    requires Settled(s, w, loc)
    ensures v != w ==> Settled(ToplevelDestroyed(cfg, s, v), w, loc) && Settled(UnmapX11(cfg, s, v), w, loc)
    ensures !St(s.info, w).isX11 ==> Settled(Disconnected(cfg, s), w, loc)
  {
    hide ArrangeAll, FocusWindow, FocusedWindow, TileMasterWindow, LocOf, UnmapElem, UnmapAll, Without, Select, First;
    ArrangeAllKeeps(cfg, w, loc);
    FocusKeeps(cfg, w, loc);
  }

  lemma SettledRules(cfg: Config, s: State, v: Window, verdict: Verdict, w: Window, loc: Point)
    requires Settled(s, w, loc) && v != w
    ensures Settled(FirstCommit(cfg, s, v, verdict), w, loc)
  {
    hide ArrangeAll, FocusWindow, FocusedWindow, LocOf, MonitorData.View, FoldRules, TargetMonitor, InitialTags, Update;
    ArrangeAllKeeps(cfg, w, loc);
    FocusKeeps(cfg, w, loc);
  }

  lemma SettledCentre(s: State, v: Window, width: int, height: int, w: Window, loc: Point)
    requires Settled(s, w, loc) && v != w
    ensures Settled(CentreWindow(s, v, width, height), w, loc)
  {
    hide LocOf, MapElement, MonitorData.Centre, AllVisible;
  }

  /** The buffer of a floating window changes neither its kind nor its place. */
  lemma SettledOwnCommit(cfg: Config, s: State, width: int, height: int, floatType: bool, w: Window, loc: Point)
    requires Settled(s, w, loc)
    ensures Settled(BufferCommit(cfg, s, w, width, height, floatType), w, loc)
  {
    hide ArrangeAll, LocOf, CentreWindow;
  }

  lemma SettledOtherCommit(cfg: Config, s: State, v: Window, width: int, height: int, floatType: bool, w: Window, loc: Point)
    requires Settled(s, w, loc) && v != w
    ensures Settled(BufferCommit(cfg, s, v, width, height, floatType), w, loc)
  {
    hide ArrangeAll, CentreWindow, Remembered;
    var mapped := St(s.info, v).(bufferMapped := true);
    var afloat := s.(info := s.info[v := mapped.(isFloating := true, needsCentering := true)]);
    var t := s.(info := s.info[v := mapped]);
    SettledEdit(s, afloat, w, loc);
    SettledEdit(s, t, w, loc);
    hide Settled;
    ArrangeAllSettled(cfg, afloat, w, loc);
    SettledCentre(ArrangeAll(cfg, afloat), v, width, height, w, loc);
    SettledCentre(t, v, width, height, w, loc);
    SettledCentre(s, v, width, height, w, loc);
  }

  lemma SettledCommit(cfg: Config, s: State, v: Window, width: int, height: int, floatType: bool, w: Window, loc: Point)
    requires Settled(s, w, loc)
    ensures Settled(BufferCommit(cfg, s, v, width, height, floatType), w, loc)
  {
    hide BufferCommit, Settled;
    if v == w {
      SettledOwnCommit(cfg, s, width, height, floatType, w, loc);
    } else {
      SettledOtherCommit(cfg, s, v, width, height, floatType, w, loc);
    }
  }

  lemma SettledOutputs(cfg: Config, s: State, output: Output, rule: MonitorRule, w: Window, loc: Point)
    requires Inv(cfg, s) && Settled(s, w, loc)
    ensures Settled(OutputAdded(cfg, s, output, rule), w, loc)
    ensures Settled(OutputRemoved(cfg, s, output), w, loc)
  {
    hide ArrangeAll, LocOf, Fresh, MonitorData.Restore, MonitorData.Snapshot, AdoptAll, ShiftAll, MigrationTarget,
         Inv, Migrated, TargetTags, MonitorFor;
    ArrangeAllKeeps(cfg, w, loc);
    var idx := MonitorFor(s.monitors, output);
    if idx.Some? {
      assert NoDup(s.windows) by { WindowsDistinct(cfg, s); }
      UnpluggedCell(s, idx.value, w);
      MigratedKeepsPlace(St(s.info, w), idx.value, MigrationTarget(s, idx.value), TargetTags(s, idx.value));
      SettledEdit(s, UnplugMonitor(s, idx.value), w, loc);
    }
  }

  lemma WindowsDistinct(cfg: Config, s: State)
    requires Inv(cfg, s)
    ensures NoDup(s.windows)
  {
  }

  predicate SamePlace(a: WindowState, b: WindowState) {
    && a.isFloating == b.isFloating && a.isFullscreen == b.isFullscreen
    && a.needsCentering == b.needsCentering && a.rulesApplied == b.rulesApplied && a.savedLoc == b.savedLoc
  }

  lemma AdoptKeepsPlace(st: WindowState, idx: nat, target: nat, tags: Mask)
    ensures SamePlace(st, Adopt(st, idx, target, tags))
  {
  }

  lemma MigratedKeepsPlace(st: WindowState, idx: nat, target: nat, tags: Mask)
    ensures SamePlace(st, Migrated(st, idx, target, tags))
  {
    hide Adopt;
    AdoptKeepsPlace(st, idx, target, tags);
  }

  lemma SettledNew(cfg: Config, s: State, e: Event, w: Window, loc: Point)
    requires cfg.Sane() && Settled(s, w, loc) && Enabled(s, e) && (e.WindowOpened? || e.X11Mapped? || e.PopupMapped?)
    ensures Settled(Step(cfg, s, e), w, loc)
  {
    hide NewToplevel, MapX11, MapPopup, Resting, St;
    match e {
      case WindowOpened(v) => SettledOpened(cfg, s, v, false, 0, 0, loc, w, loc);
      case X11Mapped(v, float, width, height) => SettledOpened(cfg, s, v, float, width, height, loc, w, loc);
      case PopupMapped(v, at) => SettledOpened(cfg, s, v, false, 0, 0, at, w, loc);
    }
  }

  lemma SettledGone(cfg: Config, s: State, e: Event, w: Window, loc: Point)
    requires cfg.Sane() && Settled(s, w, loc) && !Disturbs(s, e, w) && (e.WindowClosed? || e.X11Unmapped? || e.X11Gone?)
    ensures Settled(Step(cfg, s, e), w, loc)
  {
    hide ToplevelDestroyed, UnmapX11, Disconnected, Settled, St;
    match e {
      case WindowClosed(v) => SettledClosed(cfg, s, v, w, loc);
      case X11Unmapped(v) => SettledClosed(cfg, s, v, w, loc);
      case X11Gone => SettledClosed(cfg, s, w, w, loc);
    }
  }

  lemma SettledFlagEvent(cfg: Config, s: State, e: Event, w: Window, loc: Point)
    requires cfg.Sane() && Settled(s, w, loc) && !Disturbs(s, e, w) && Enabled(s, e)
    requires e.PointerFocus? || e.SetLocked? || e.SetUrgent? || e.SetZone? || e.FullscreenRequest? || e.ParentChanged?
    ensures Settled(Step(cfg, s, e), w, loc)
  {
    hide FocusWindow, ArrangeAll, LocOf;
    ArrangeAllKeeps(cfg, w, loc);
    FocusKeeps(cfg, w, loc);
  }

  /** The window's own X11 requests. */
  lemma SettledPlaced(cfg: Config, s: State, e: Event, w: Window, loc: Point)
    requires cfg.Sane() && Settled(s, w, loc) && Enabled(s, e) && (e.X11Configured? || e.X11Moved?)
    ensures Settled(Step(cfg, s, e), w, PlaceAfter(s, e, w, loc))
  {
    hide LocOf, MapElement, ConfiguredLoc;
  }

  lemma DragStep(cfg: Config, s: State, p: Spot)
    requires cfg.Sane()
    ensures Step(cfg, s, PointerMoved(p)) == MoveGrabbed(SelectUnder(s, p), p)
  {
    hide MoveGrabbed, SelectUnder;
  }

  /** A drag puts the window where its last motion says. */
  lemma SettledDragged(s: State, p: Spot, w: Window, loc: Point)
    requires Settled(s, w, loc)
    ensures Settled(MoveGrabbed(SelectUnder(s, p), p), w, PlaceAfter(s, PointerMoved(p), w, loc))
  {
    hide LocOf, MapElement, AreaAt, DraggedTo;
  }

  lemma SettledMove(cfg: Config, s: State, e: Event, w: Window, loc: Point)
    requires cfg.Sane() && Settled(s, w, loc) && !Disturbs(s, e, w) && Enabled(s, e)
    requires e.MoveStarted? || e.MoveLost? || e.MoveEnded?
    ensures Settled(Step(cfg, s, e), w, loc)
  {
    hide FocusWindow, ArrangeAll, LocOf;
    ArrangeAllKeeps(cfg, w, loc);
    FocusKeeps(cfg, w, loc);
  }

  /** No event that leaves the window floating forgets where it is, and only the three of `PlaceAfter` move it. */
  lemma SettledStep(cfg: Config, s: State, e: Event, w: Window, loc: Point)
    requires cfg.Sane() && Inv(cfg, s) && Settled(s, w, loc) && !Disturbs(s, e, w)
    ensures Settled(Step(cfg, s, e), w, PlaceAfter(s, e, w, loc))
  {
    if e.PointerMoved? {
      DragStep(cfg, s, e.p);
      SettledDragged(s, e.p, w, loc);
      return;
    }
    if !Enabled(s, e) {
      return;
    }
    hide Step, Inv, Disturbs, Enabled;
    if e.Dispatch? || e.RulesCommit? || e.Commit? || e.Plugged? || e.Unplugged? {
      SettledHandled(cfg, s, e, w, loc);
    } else if e.WindowOpened? || e.X11Mapped? || e.PopupMapped? {
      SettledNew(cfg, s, e, w, loc);
    } else if e.WindowClosed? || e.X11Unmapped? || e.X11Gone? {
      SettledGone(cfg, s, e, w, loc);
    } else if e.X11Configured? || e.X11Moved? {
      SettledPlaced(cfg, s, e, w, loc);
    } else if e.MoveStarted? || e.MoveLost? || e.MoveEnded? {
      SettledMove(cfg, s, e, w, loc);
    } else {
      SettledFlagEvent(cfg, s, e, w, loc);
    }
  }

  lemma SettledHandled(cfg: Config, s: State, e: Event, w: Window, loc: Point)
    requires cfg.Sane() && Inv(cfg, s) && Settled(s, w, loc) && !Disturbs(s, e, w) && Enabled(s, e)
    requires e.Dispatch? || e.RulesCommit? || e.Commit? || e.Plugged? || e.Unplugged?
    ensures Settled(Step(cfg, s, e), w, loc)
  {
    hide Inv, Act, FirstCommit, BufferCommit, OutputAdded, OutputRemoved, Remembered, Disturbs, Resting;
    match e {
      case Dispatch(a) => SettledAct(cfg, s, a, w, loc);
      case RulesCommit(v, verdict) => SettledRules(cfg, s, v, verdict, w, loc);
      case Commit(v, width, height, floatType) => SettledCommit(cfg, s, v, width, height, floatType, w, loc);
      case Plugged(output, rule) => SettledOutputs(cfg, s, output, rule, w, loc);
      case Unplugged(output) => SettledOutputs(cfg, s, output, MonitorRule(0, 0.0, 0, Rect(loc, 0, 0)), w, loc);
    }
  }

  /** Where a run leaves a floating window that is at `loc` when it begins. */
  function PlaceOver(cfg: Config, s: State, events: seq<Event>, w: Window, loc: Point): Point
    requires cfg.Sane()
  {
    if events == [] then loc
    else
      var n := |events| - 1;
      PlaceAfter(Run(cfg, s, events[..n]), events[n], w, PlaceOver(cfg, s, events[..n], w, loc))
  }

  /** None of the events of a run disturbs `w`. */
  ghost predicate Undisturbed(cfg: Config, s: State, events: seq<Event>, w: Window)
    requires cfg.Sane()
  {
    forall k :: 0 <= k < |events| ==> !Disturbs(Run(cfg, s, events[..k]), events[k], w)
  }

  lemma {:induction false} SettledRun(cfg: Config, s: State, events: seq<Event>, w: Window, loc: Point)
    requires cfg.Sane() && Inv(cfg, s) && Settled(s, w, loc) && Undisturbed(cfg, s, events, w)
    ensures Settled(Run(cfg, s, events), w, PlaceOver(cfg, s, events, w, loc))
  {
    hide Inv, Settled, Step, Disturbs, PlaceAfter;
    if events != [] {
      var n := |events| - 1;
      var init := events[..n];
      forall k | 0 <= k < n
        ensures !Disturbs(Run(cfg, s, init[..k]), init[k], w)
      {
        assert init[..k] == events[..k];
      }
      SettledRun(cfg, s, init, w, loc);
      InvRun(cfg, s, init);
      SettledStep(cfg, Run(cfg, s, init), events[n], w, PlaceOver(cfg, s, init, w, loc));
    }
  }

  /**
   Whatever happens in between (any number of tag switches, scratchpad toggles, arrangements, hotplugs, drags,
   other windows coming and going), once an `arrange_all` finds the window's tags shown it is mapped exactly where
   it was last put.
   */
  lemma FloatingComesBack(cfg: Config, s: State, events: seq<Event>, w: Window, loc: Point)
    requires cfg.Sane() && Inv(cfg, s) && Settled(s, w, loc) && Undisturbed(cfg, s, events, w)
    ensures var t := Run(cfg, s, events);
            t.monitors != [] && Shown(t, w) ==> LocOf(ArrangeAll(cfg, t).space, w) == Some(PlaceOver(cfg, s, events, w, loc))
  {
    hide Inv, Settled, Undisturbed, ArrangeAll, Shown, Run, PlaceOver;
    SettledRun(cfg, s, events, w, loc);
    var t := Run(cfg, s, events);
    if t.monitors != [] && Shown(t, w) {
      SettledReturns(cfg, t, w, PlaceOver(cfg, s, events, w, loc));
    }
  }

  /** An event of the run that could move `w`: the pointer dragging it, or its own X11 request. */
  predicate Moves(s: State, e: Event, w: Window) {
    (e.PointerMoved? && Dragging(s, w)) || (e.X11Configured? && e.w == w) || (e.X11Moved? && e.w == w)
  }

  /** In a run without such events that is where it was at the beginning. */
  lemma {:induction false} StaysPut(cfg: Config, s: State, events: seq<Event>, w: Window, loc: Point)
    requires cfg.Sane() && forall k :: 0 <= k < |events| ==> !Moves(Run(cfg, s, events[..k]), events[k], w)
    ensures PlaceOver(cfg, s, events, w, loc) == loc
  {
    hide Run, Dragging, ConfiguredLoc, DraggedTo;
    if events != [] {
      var n := |events| - 1;
      var init := events[..n];
      forall k | 0 <= k < n
        ensures !Moves(Run(cfg, s, init[..k]), init[k], w)
      {
        assert init[..k] == events[..k];
      }
      StaysPut(cfg, s, init, w, loc);
      assert !Moves(Run(cfg, s, init), events[n], w);
    }
  }
}
