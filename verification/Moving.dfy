/** Interactive moves: where a drag leaves a window, and whether it leaves its kind as it was. */
module Moving {
  import opened Sequences
  import opened Monitors
  import opened Windows
  import opened Desktop
  import opened Pointer
  import opened Compositor
  import opened Frames
  import opened Arranging
  import opened Invariant
  import opened Actions
  import opened FloatingWindows
  import opened Screen

  /** Starting to move a window floats it, brings it to the front of the stack and remembers what it was. */
  lemma StartedFloats(cfg: Config, s: State, w: Window, at: Spot)
    ensures var t := StartMove(cfg, s, w, at);
            && t.grab == Some(Grab(w, St(s.info, w).isFloating, at, LocOf(s.space, w)))
            && St(t.info, w).isFloating && t.windows == s.windows && t.popups == s.popups && t.focus == ToFront(s.focus, w)
            && t.locked == s.locked && |t.monitors| == |s.monitors|
            && (forall loc :: LocOf(s.space, w) == Some(loc) && !St(s.info, w).isFullscreen ==> Resting(t, w, loc))
            && St(t.info, w).isFullscreen == St(s.info, w).isFullscreen
  {
    hide FocusWindow, FramedMonitors, SameButUrgent, ToFront, LocOf;
    var st := St(s.info, w);
    var a := s.(info := s.info[w := st.(isFloating := true)], grab := Some(Grab(w, st.isFloating, at, LocOf(s.space, w))));
    FocusWindowFramed(cfg, a, w);
    var t := FocusWindow(cfg, a, Some(w));
    UrgentDoesNotMatter(a.info, t.info, w, IsX11);
    FramedCountOf(cfg, a.monitors, t.monitors);
    forall loc | LocOf(s.space, w) == Some(loc) && !St(s.info, w).isFullscreen
      ensures Resting(t, w, loc)
    {
      assert Resting(a, w, loc);
      FocusRests(cfg, a, Some(w), w, loc);
    }
  }

  lemma FramedCountOf(cfg: Config, ms: seq<MonitorData>, ns: seq<MonitorData>)
    requires FramedMonitors(cfg, ms, ns)
    ensures |ns| == |ms|
  {
  }

  /** The state after a sequence of motions. */
  function Dragged(s: State, ps: seq<Spot>): State {
    if ps == [] then s
    else
      var t := Dragged(s, ps[..|ps| - 1]);
      MoveGrabbed(SelectUnder(t, ps[|ps| - 1]), ps[|ps| - 1])
  }

  /** Motions change nothing but the selected monitor and, while a window is dragged, where it is. */
  lemma {:induction false} DraggedKeeps(s: State, ps: seq<Spot>)
    ensures var t := Dragged(s, ps); t == s.(space := t.space, selMon := t.selMon)
    ensures !s.locked && s.grab.Some? && s.grab.value.origin.Some? && ps != [] ==>
      var g := s.grab.value;
      LocOf(Dragged(s, ps).space, g.w) == Some(DraggedTo(g.origin.value, g.start, ps[|ps| - 1]))
  {
    hide MapElement, LocOf, DraggedTo, AreaAt;
    if ps != [] {
      DraggedKeeps(s, ps[..|ps| - 1]);
    }
  }

  /**
   However many motions a drag makes, its last one decides: the window ends displaced from where it was when the
   drag began by exactly as much as the pointer.
   */
  lemma LastMotionPlaces(cfg: Config, s: State, w: Window, at: Spot, origin: Point, ps: seq<Spot>)
    requires LocOf(s.space, w) == Some(origin) && !s.locked && ps != []
    ensures LocOf(Dragged(StartMove(cfg, s, w, at), ps).space, w) == Some(DraggedTo(origin, at, ps[|ps| - 1]))
  {
    hide StartMove, LocOf, DraggedTo, Dragged, Resting;
    StartedFloats(cfg, s, w, at);
    DraggedKeeps(StartMove(cfg, s, w, at), ps);
  }

  lemma EndedKind(cfg: Config, s: State)
    requires s.grab.Some?
    ensures var g := s.grab.value;
            var t := EndMove(cfg, s);
            && t.grab == None
            && St(t.info, g.w).isFloating == if g.wasFloating then St(s.info, g.w).isFloating else false
  {
    hide ArrangeAll, FramedMonitors, SameCore;
    var g := s.grab.value;
    if !g.wasFloating {
      var a := s.(grab := None, info := s.info[g.w := St(s.info, g.w).(isFloating := false)]);
      ArrangeAllFramed(cfg, a);
      CoreFloats(a.info, ArrangeAll(cfg, a).info, g.w);
    }
  }

  function Motions(ps: seq<Spot>): (r: seq<Event>)
    ensures |r| == |ps| && forall k :: 0 <= k < |ps| ==> r[k] == PointerMoved(ps[k])
  {
    seq(|ps|, k requires 0 <= k < |ps| => PointerMoved(ps[k]))
  }

  lemma RunSnoc(cfg: Config, s: State, events: seq<Event>, e: Event)
    requires cfg.Sane()
    ensures Run(cfg, s, events + [e]) == Step(cfg, Run(cfg, s, events), e)
  {
    hide Step;
    assert (events + [e])[..|events|] == events;
  }

  lemma {:induction false} DraggedOn(cfg: Config, s: State, before: seq<Event>, ps: seq<Spot>)
    requires cfg.Sane()
    ensures Run(cfg, s, before + Motions(ps)) == Dragged(Run(cfg, s, before), ps)
  {
    hide Step, Run, SelectUnder, MoveGrabbed;
    if ps == [] {
      assert before + Motions(ps) == before;
    } else {
      var init, p := ps[..|ps| - 1], ps[|ps| - 1];
      DraggedOn(cfg, s, before, init);
      assert before + Motions(ps) == before + Motions(init) + [PointerMoved(p)];
      RunSnoc(cfg, s, before + Motions(init), PointerMoved(p));
      DragStep(cfg, Run(cfg, s, before + Motions(init)), p);
    }
  }

  lemma DragSteps(cfg: Config, s: State, w: Window, at: Spot)
    requires cfg.Sane()
    ensures w in s.windows || w in s.popups ==> Run(cfg, s, [MoveStarted(w, at)]) == StartMove(cfg, s, w, at)
    ensures !s.locked ==> Step(cfg, s, MoveEnded) == EndMove(cfg, s)
  {
    hide StartMove, EndMove;
    assert [MoveStarted(w, at)][..0] == [];
  }

  /** The events of a drag, as they come in a run: its start, its motions and its release. */
  lemma DragIsRun(cfg: Config, s: State, w: Window, at: Spot, ps: seq<Spot>)
    requires cfg.Sane() && !s.locked && (w in s.windows || w in s.popups)
    ensures var start := [MoveStarted(w, at)];
            var d := Dragged(StartMove(cfg, s, w, at), ps);
            && Run(cfg, s, start + Motions(ps)) == d
            && Run(cfg, s, start + Motions(ps) + [MoveEnded]) == EndMove(cfg, d)
  {
    hide StartMove, EndMove, Dragged, Resting, LocOf, Run, Step, Motions;
    var start := [MoveStarted(w, at)];
    DragSteps(cfg, s, w, at);
    DraggedOn(cfg, s, start, ps);
    StartedFloats(cfg, s, w, at);
    DraggedKeeps(StartMove(cfg, s, w, at), ps);
    RunSnoc(cfg, s, start + Motions(ps), MoveEnded);
    DragSteps(cfg, Dragged(StartMove(cfg, s, w, at), ps), w, at);
  }

  /** A drag from press to release leaves the window floating exactly if it was: it does not change the layout for good. */
  lemma MoveRestores(cfg: Config, s: State, w: Window, at: Spot, ps: seq<Spot>)
    ensures var t := EndMove(cfg, Dragged(StartMove(cfg, s, w, at), ps));
            t.grab == None && St(t.info, w).isFloating == St(s.info, w).isFloating
  {
    hide StartMove, EndMove, Dragged, LocOf, Resting;
    StartedFloats(cfg, s, w, at);
    var d := StartMove(cfg, s, w, at);
    DraggedKeeps(d, ps);
    EndedKind(cfg, Dragged(d, ps));
  }

  /**
   A second start during a drag takes the window for one that floated: from then on the release leaves a tiled
   window floating, and so does losing the drag to another button, grab or the native locker.
   */
  lemma SecondStartSticks(cfg: Config, s: State, w: Window, at: Spot, again: Spot, ps: seq<Spot>, qs: seq<Spot>)
    ensures var d := Dragged(StartMove(cfg, s, w, at), ps);
            && St(EndMove(cfg, Dragged(StartMove(cfg, d, w, again), qs)).info, w).isFloating
            && St(d.(grab := None).info, w).isFloating
  {
    hide StartMove, EndMove, Dragged, LocOf, Resting;
    StartedFloats(cfg, s, w, at);
    DraggedKeeps(StartMove(cfg, s, w, at), ps);
    MoveRestores(cfg, Dragged(StartMove(cfg, s, w, at), ps), w, again, qs);
  }

  /** A window that closes while it is dragged is put back on the screen by the next motion, though in no list. */
  lemma ClosedIsDraggedOn(cfg: Config, s: State, w: Window, p: Spot)
    requires Inv(cfg, s) && cfg.Sane() && w in s.windows && Dragging(s, w)
    ensures var t := ToplevelDestroyed(cfg, s, w);
            var u := MoveGrabbed(SelectUnder(t, p), p);
            && LocOf(t.space, w) == None
            && Unlisted(u, w) && LocOf(u.space, w) == Some(DraggedTo(s.grab.value.origin.value, s.grab.value.start, p))
  {
    hide ToplevelDestroyed, LocOf, MapElement, DraggedTo, AreaAt, SameButUrgent, SameTags, Inv, FocusedWindow, TileMasterWindow;
    DestroyedIsGone(cfg, s, w);
    ClosingKeepsGrab(cfg, s, w);
  }

  lemma ClosingKeepsGrab(cfg: Config, s: State, w: Window)
    requires Inv(cfg, s) && w in s.windows
    ensures var t := ToplevelDestroyed(cfg, s, w);
            t.grab == s.grab && t.locked == s.locked && t.popups == s.popups && w !in t.popups
  {
    hide FocusWindow, ArrangeAll, TileMasterWindow, FocusedWindow, UnmapElem, Without, FramedMonitors, SameButUrgent, SameCore,
         ToFront, MonitorsOk, CellsOk, StraysOk;
    var a := s.(windows := Without(s.windows, w), focus := Without(s.focus, w), space := UnmapElem(s.space, w));
    var master := if St(s.info, w).bufferMapped then TileMasterWindow(cfg, a) else None;
    var top := if master.Some? then master else FocusedWindow(a);
    if top.Some? {
      FocusWindowFramed(cfg, a, top.value);
    } else {
      NoFocus(cfg, a);
    }
    ArrangeAllFramed(cfg, FocusWindow(cfg, a, top));
  }
}
