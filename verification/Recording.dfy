/** Every monitor's tag history over whole runs, across the index shift of hotplug. */
module Recording {
  import opened Sequences
  import opened Tags
  import opened History
  import opened Monitors
  import opened Windows
  import opened Desktop
  import opened Pointer
  import opened Compositor
  import opened Frames
  import opened Invariant
  import opened Reachability
  import opened Actions

  /** The monitor whose tags an event records, and the tags it is about to show there. */
  datatype Recorded = Recorded(mon: nat, target: Mask)

  /** Which user actions record; focusing an urgent window changes the view without doing so. */
  function ActionRecords(cfg: Config, s: State, a: Action): Option<Recorded>
    requires cfg.Sane()
  {
    var i := s.selMon;
    match a
    case ViewA(mask) => Some(Recorded(i, mask))
    case ViewPrevA =>
      if i < |s.monitors| then Some(Recorded(i, s.monitors[i].tagset.At(1 - s.monitors[i].selTags))) else None
    case ViewNextOccTagA(dir) =>
      var next := NextOccTag(cfg, s, dir);
      if next.Some? then Some(Recorded(i, next.value)) else None
    case ToggleViewA(mask) =>
      var shown := Xor(SelTags(s), mask) * TagMask(cfg.tagCount);
      if i < |s.monitors| && shown != {} then Some(Recorded(i, shown)) else None
    case TagA(mask) =>
      var tags := mask * TagMask(cfg.tagCount);
      if tags != {} && FocusedWindow(s).Some? && cfg.follow then Some(Recorded(i, tags)) else None
    case _ => None
  }

  /** Applying rules records when the last of them that switches views does. */
  function RulesRecord(cfg: Config, s: State, w: Window, verdict: Verdict): Option<Recorded> {
    if verdict.Child? then None
    else
      var acc := FoldRules(cfg, verdict.rules, verdict.floatType || St(s.info, w).isFloating);
      if acc.switchToTag.Some? then Some(Recorded(TargetMonitor(s, acc.monitor), acc.switchToTag.value)) else None
  }

  function Records(cfg: Config, s: State, e: Event): Option<Recorded>
    requires cfg.Sane()
  {
    if !Enabled(s, e) then None
    else if e.Dispatch? then ActionRecords(cfg, s, e.action)
    else if e.RulesCommit? then RulesRecord(cfg, s, e.w, e.verdict)
    else None
  }

  /** Parallel lists of one entry per monitor, as an event changes them: `note` is what it adds for a recording. */
  function Followed<T>(cfg: Config, s: State, e: Event, lists: seq<T>, blank: T, note: (T, Call) -> T): (r: seq<T>)
    requires cfg.Sane()
  {
    if e.Plugged? then if Enabled(s, e) then lists + [blank] else lists
    else if e.Unplugged? then
      var idx := MonitorFor(s.monitors, e.output);
      if idx.Some? && idx.value < |lists| then lists[..idx.value] + lists[idx.value + 1..] else lists
    else
      var rec := Records(cfg, s, e);
      if rec.Some? && rec.value.mon < |s.monitors| && rec.value.mon < |lists|
      then lists[rec.value.mon := note(lists[rec.value.mon], Call(s.monitors[rec.value.mon].Tags(), rec.value.target))]
      else lists
  }

  function Noted(history: seq<Mask>, c: Call): seq<Mask> {
    Update(history, c.oldTags, c.target)
  }

  function Logged(log: seq<Call>, c: Call): seq<Call> {
    log + [c]
  }

  // One event.

  lemma ArrangingKeepsHistory(cfg: Config)
    ensures forall s: State {:trigger ArrangeAll(cfg, s)} :: ArrangeAll(cfg, s).history == s.history
    ensures forall s: State, w {:trigger FocusWindow(cfg, s, w)} :: FocusWindow(cfg, s, w).history == s.history
    ensures forall s: State, mon, prev {:trigger ArrangeBoth(cfg, s, mon, prev)} :: ArrangeBoth(cfg, s, mon, prev).history == s.history
  {
    hide ArrangeAll, FocusWindow, ArrangeBoth, FramedMonitors, SameCore, SameButUrgent, ToFront;
    forall s: State
      ensures ArrangeAll(cfg, s).history == s.history
    {
      ArrangeAllFramed(cfg, s);
    }
    forall s: State, w
      ensures FocusWindow(cfg, s, w).history == s.history
    {
      if w.Some? {
        FocusWindowFramed(cfg, s, w.value);
      } else {
        NoFocus(cfg, s);
      }
    }
    forall s: State, mon, prev
      ensures ArrangeBoth(cfg, s, mon, prev).history == s.history
    {
      ArrangeBothFramed(cfg, s, mon, prev);
    }
  }

  /** The history of a state after one recording. */
  function AfterRecord(s: State, rec: Option<Recorded>): seq<seq<Mask>> {
    if rec.Some? then RecordTags(s, rec.value.mon, rec.value.target).history else s.history
  }

  lemma ViewsRecord(cfg: Config, s: State, mask: Mask)
    ensures View(cfg, s, mask).history == AfterRecord(s, Some(Recorded(s.selMon, mask)))
    ensures ViewPrev(cfg, s).history
            == if s.selMon < |s.monitors| then AfterRecord(s, Some(Recorded(s.selMon, s.monitors[s.selMon].tagset.At(1 - s.monitors[s.selMon].selTags))))
               else s.history
    ensures ToggleView(cfg, s, mask).history
            == var shown := Xor(SelTags(s), mask) * TagMask(cfg.tagCount);
               if s.selMon < |s.monitors| && shown != {} then AfterRecord(s, Some(Recorded(s.selMon, shown))) else s.history
  {
    hide ArrangeAll, FocusWindow, FocusedWindow, Update, Xor, TagMask, MonitorData.Tags,
         MonitorData.View, MonitorData.ViewPrev, MonitorData.ToggleView;
    ArrangingKeepsHistory(cfg);
  }

  lemma TagsRecord(cfg: Config, s: State, mask: Mask)
    requires cfg.Sane()
    ensures Tag(cfg, s, mask).history == AfterRecord(s, ActionRecords(cfg, s, TagA(mask)))
    ensures ToggleTag(cfg, s, mask).history == s.history
  {
    hide ArrangeAll, FocusWindow, FocusedWindow, Update, Xor, TagMask, MonitorData.Tags, MonitorData.View, WithTags;
    ArrangingKeepsHistory(cfg);
  }

  lemma TuningKeepsHistory(cfg: Config, s: State, a: Action)
    requires cfg.Sane() && Tunes(a)
    ensures Act(cfg, s, a).history == s.history
  {
    hide ArrangeAll, FocusedWindow, MonitorData.SetLayout, Clamp, St;
    ArrangingKeepsHistory(cfg);
  }

  lemma ScratchKeepsHistory(cfg: Config, s: State, a: Action)
    requires cfg.Sane() && TogglesScratch(a)
    ensures Act(cfg, s, a).history == s.history
  {
    hide ArrangeAll, FocusWindow, FocusedWindow, First, Meets, SelTags, InitialTags, WithTags, Without, St;
    ArrangingKeepsHistory(cfg);
  }

  lemma MovesKeepHistory(cfg: Config, s: State, dir: int)
    ensures FocusStackStep(cfg, s, dir).history == s.history && Zoom(cfg, s).history == s.history
    ensures FocusMon(cfg, s, dir).history == s.history && TagMon(cfg, s, dir).history == s.history
    ensures FocusUrgent(cfg, s).history == s.history
  {
    hide ArrangeAll, FocusWindow, FocusedWindow, Select, Find, First, ZoomTarget, ToFront, MonitorData.View, DirToMonitor, St;
    ArrangingKeepsHistory(cfg);
  }

  predicate Viewing(a: Action) {
    a.ViewA? || a.ViewPrevA? || a.ViewNextOccTagA? || a.ToggleViewA? || a.TagA?
  }

  lemma OthersRecordNothing(cfg: Config, s: State, a: Action)
    requires cfg.Sane() && !Viewing(a)
    ensures AfterRecord(s, ActionRecords(cfg, s, a)) == s.history
  {
  }

  lemma MovesAct(cfg: Config, s: State, a: Action)
    requires cfg.Sane() && !Viewing(a) && !Tunes(a) && !TogglesScratch(a)
    ensures Act(cfg, s, a).history == s.history
  {
    hide FocusStackStep, Zoom, FocusMon, TagMon, FocusUrgent, ToggleTag;
    match a {
      case FocusStackA(dir) => MovesKeepHistory(cfg, s, dir);
      case ZoomA => MovesKeepHistory(cfg, s, 0);
      case FocusMonA(dir) => MovesKeepHistory(cfg, s, dir);
      case TagMonA(dir) => MovesKeepHistory(cfg, s, dir);
      case FocusUrgentA => MovesKeepHistory(cfg, s, 0);
      case ToggleTagA(mask) => TagsRecord(cfg, s, mask);
    }
  }

  lemma ViewsAct(cfg: Config, s: State, a: Action)
    requires cfg.Sane() && Viewing(a)
    ensures Act(cfg, s, a).history == AfterRecord(s, ActionRecords(cfg, s, a))
  {
    hide View, ViewPrev, ToggleView, Tag, NextOccTag, AfterRecord, Xor, TagMask, SelTags, FocusedWindow;
    NoRecord(s);
    match a {
      case ViewA(mask) => ViewsRecord(cfg, s, mask);
      case ViewPrevA => ViewsRecord(cfg, s, {});
      case ViewNextOccTagA(dir) =>
        if NextOccTag(cfg, s, dir).Some? {
          ViewsRecord(cfg, s, NextOccTag(cfg, s, dir).value);
        }
      case ToggleViewA(mask) => ViewsRecord(cfg, s, mask);
      case TagA(mask) => TagsRecord(cfg, s, mask);
    }
  }

  lemma ActRecords(cfg: Config, s: State, a: Action)
    requires cfg.Sane()
    ensures Act(cfg, s, a).history == AfterRecord(s, ActionRecords(cfg, s, a))
  {
    hide Act, ActionRecords, AfterRecord;
    if Viewing(a) {
      ViewsAct(cfg, s, a);
    } else {
      OthersRecordNothing(cfg, s, a);
      if Tunes(a) {
        TuningKeepsHistory(cfg, s, a);
      } else if TogglesScratch(a) {
        ScratchKeepsHistory(cfg, s, a);
      } else {
        MovesAct(cfg, s, a);
      }
    }
  }

  lemma WindowsKeepHistory(cfg: Config, s: State, w: Window, float: bool, width: int, height: int)
    ensures NewToplevel(cfg, s, w).history == s.history
    ensures MapX11(cfg, s, w, float, width, height).history == s.history
    ensures ToplevelDestroyed(cfg, s, w).history == s.history
    ensures UnmapX11(cfg, s, w).history == s.history
    ensures Disconnected(cfg, s).history == s.history
  {
    hide ArrangeAll, ArrangeBoth, FocusWindow, FocusedWindow, TileMasterWindow, Select, First, ToFront, Without,
         MapElement, UnmapElem, UnmapAll, MonitorData.Centre, InitialTags, BaseLoc;
    ArrangingKeepsHistory(cfg);
  }

  lemma SwitchRecords(cfg: Config, s: State, w: Window, mon: nat, mask: Mask)
    ensures SwitchToTag(cfg, s, w, mon, mask).history == AfterRecord(s, Some(Recorded(mon, mask)))
  {
    hide Update, MonitorData.View, MonitorData.Tags, TagMask, St;
  }

  lemma RulesRecorded(cfg: Config, s: State, w: Window, verdict: Verdict)
    ensures ApplyRules(cfg, s, w, verdict).history == AfterRecord(s, RulesRecord(cfg, s, w, verdict))
  {
    hide FoldRules, TargetMonitor, InitialTags, SwitchToTag, MonitorData.Tags, TagMask, RecordTags, St;
    if verdict.Matched? {
      var acc := FoldRules(cfg, verdict.rules, verdict.floatType || St(s.info, w).isFloating);
      if acc.switchToTag.Some? {
        SwitchRecords(cfg, s, w, TargetMonitor(s, acc.monitor), acc.switchToTag.value);
      }
    }
  }

  lemma FirstCommitRecords(cfg: Config, s: State, w: Window, verdict: Verdict)
    ensures FirstCommit(cfg, s, w, verdict).history == AfterRecord(s, RulesRecord(cfg, s, w, verdict))
  {
    hide ArrangeAll, FocusWindow, FocusedWindow, ApplyRules, FoldRules, Update;
    ArrangingKeepsHistory(cfg);
    var t := s.(info := s.info[w := St(s.info, w).(rulesApplied := true)]);
    RulesRecorded(cfg, t, w, verdict);
  }

  lemma BufferKeepsHistory(cfg: Config, s: State, w: Window, width: int, height: int, floatType: bool)
    ensures BufferCommit(cfg, s, w, width, height, floatType).history == s.history
  {
    hide ArrangeAll, MapElement, MonitorData.Centre, AllVisible, Meets, St;
    ArrangingKeepsHistory(cfg);
  }

  lemma NotedAfter(s: State, rec: Option<Recorded>)
    requires |s.history| == |s.monitors|
    ensures AfterRecord(s, rec)
            == if rec.Some? && rec.value.mon < |s.monitors|
               then s.history[rec.value.mon := Noted(s.history[rec.value.mon], Call(s.monitors[rec.value.mon].Tags(), rec.value.target))]
               else s.history
  {
    hide Update, MonitorData.Tags;
  }

  /** The events that bring or take a window. */
  predicate Moving(e: Event) {
    e.WindowOpened? || e.X11Mapped? || e.WindowClosed? || e.X11Unmapped? || e.X11Gone?
  }

  lemma MovingKeepsHistory(cfg: Config, s: State, e: Event)
    requires cfg.Sane() && Moving(e)
    ensures Step(cfg, s, e).history == s.history
  {
    hide NewToplevel, MapX11, ToplevelDestroyed, UnmapX11, Disconnected, St;
    match e {
      case WindowOpened(w) => WindowsKeepHistory(cfg, s, w, false, 0, 0);
      case X11Mapped(w, float, width, height) => WindowsKeepHistory(cfg, s, w, float, width, height);
      case WindowClosed(w) => WindowsKeepHistory(cfg, s, w, false, 0, 0);
      case X11Unmapped(w) => WindowsKeepHistory(cfg, s, w, false, 0, 0);
      case X11Gone => WindowsKeepHistory(cfg, s, 0, false, 0, 0);
    }
  }

  lemma OutputsShiftHistory(cfg: Config, s: State, output: Output, rule: MonitorRule)
    requires |s.history| == |s.monitors|
    ensures OutputAdded(cfg, s, output, rule).history == s.history + [[]]
    ensures OutputRemoved(cfg, s, output).history
            == var idx := MonitorFor(s.monitors, output);
               if idx.Some? then s.history[..idx.value] + s.history[idx.value + 1..] else s.history
  {
    hide ArrangeAll, Fresh, MonitorData.Restore, MonitorData.Snapshot, AdoptAll, ShiftAll, MigrationTarget, MonitorFor, MonitorData.Tags;
    ArrangingKeepsHistory(cfg);
  }

  lemma QuietKeepsHistory(cfg: Config, s: State, e: Event)
    requires cfg.Sane() && !Moving(e) && !e.Dispatch? && !e.RulesCommit? && !e.Plugged? && !e.Unplugged?
    ensures Step(cfg, s, e).history == s.history
  {
    hide ArrangeAll, FocusWindow, BufferCommit, MapElement, AreaAt, ConfiguredLoc, St;
    ArrangingKeepsHistory(cfg);
    if e.Commit? {
      BufferKeepsHistory(cfg, s, e.w, e.width, e.height, e.floatType);
    }
  }

  lemma PlainStep(cfg: Config, s: State, e: Event)
    requires cfg.Sane()
    ensures e.Dispatch? ==> Enabled(s, e) && Step(cfg, s, e) == Act(cfg, s, e.action)
    ensures e.RulesCommit? ==> Step(cfg, s, e) == if Enabled(s, e) then FirstCommit(cfg, s, e.w, e.verdict) else s
    ensures e.Plugged? ==> Step(cfg, s, e) == if Enabled(s, e) then OutputAdded(cfg, s, e.output, e.rule) else s
    ensures e.Unplugged? ==> Step(cfg, s, e) == OutputRemoved(cfg, s, e.output)
  {
    hide Act, FirstCommit, OutputAdded, OutputRemoved;
  }

  /** Exactly what an event does to the histories. */
  lemma StepHistory(cfg: Config, s: State, e: Event)
    requires cfg.Sane() && |s.history| == |s.monitors|
    ensures Step(cfg, s, e).history == Followed(cfg, s, e, s.history, [], Noted)
  {
    hide Step, Act, FirstCommit, OutputAdded, OutputRemoved, Enabled, ActionRecords, RulesRecord, Noted, AfterRecord, MonitorFor;
    PlainStep(cfg, s, e);
    NotedAfter(s, Records(cfg, s, e));
    if e.Dispatch? {
      ActRecords(cfg, s, e.action);
    } else if e.RulesCommit? {
      FirstCommitRecords(cfg, s, e.w, e.verdict);
    } else if e.Plugged? {
      OutputsShiftHistory(cfg, s, e.output, e.rule);
    } else if e.Unplugged? {
      OutputsShiftHistory(cfg, s, e.output, MonitorRule(0, 0.0, 0, Rect(Point(0, 0), 0, 0)));
    } else if Moving(e) {
      MovingKeepsHistory(cfg, s, e);
    } else {
      QuietKeepsHistory(cfg, s, e);
    }
    assert AfterRecord(s, None) == s.history by { NotedAfter(s, None); }
  }

  // Whole runs.

  /** For every monitor now plugged, everything recorded for it since it was, oldest first. */
  function Logs(cfg: Config, events: seq<Event>): seq<seq<Call>>
    requires cfg.Sane()
  {
    if events == [] then []
    else
      var n := |events| - 1;
      Followed(cfg, Run(cfg, Initial, events[..n]), events[n], Logs(cfg, events[..n]), [], Logged)
  }

  lemma LoggedRuns(log: seq<Call>, c: Call)
    ensures RunCalls(Logged(log, c)) == Noted(RunCalls(log), c)
  {
    var all := log + [c];
    assert all[..|log|] == log;
  }

  lemma FollowedTogether(cfg: Config, s: State, e: Event, histories: seq<seq<Mask>>, logs: seq<seq<Call>>)
    requires cfg.Sane() && |histories| == |logs| && forall i :: 0 <= i < |logs| ==> histories[i] == RunCalls(logs[i])
    ensures var h, l := Followed(cfg, s, e, histories, [], Noted), Followed(cfg, s, e, logs, [], Logged);
            |h| == |l| && forall i :: 0 <= i < |l| ==> h[i] == RunCalls(l[i])
  {
    hide RunCalls, Noted, Logged, Records, Enabled, MonitorFor;
    assert RunCalls([]) == [] by { NoCalls(); }
    var rec := Records(cfg, s, e);
    if rec.Some? && rec.value.mon < |s.monitors| && rec.value.mon < |logs| {
      LoggedRuns(logs[rec.value.mon], Call(s.monitors[rec.value.mon].Tags(), rec.value.target));
    }
  }

  lemma NoCalls()
    ensures RunCalls([]) == []
  {
  }

  lemma HistoryLength(cfg: Config, events: seq<Event>)
    requires cfg.Sane()
    ensures var s := Run(cfg, Initial, events); |s.history| == |s.monitors|
  {
    hide Run, MonitorsOk, ListsOk, CellsOk, StraysOk;
    ReachableInv(cfg, events);
  }

  lemma {:induction false} RunHistories(cfg: Config, events: seq<Event>)
    requires cfg.Sane()
    ensures var s := Run(cfg, Initial, events);
            var logs := Logs(cfg, events);
            |s.history| == |logs| && forall i :: 0 <= i < |logs| ==> s.history[i] == RunCalls(logs[i])
  {
    hide Step, Followed, RunCalls;
    if events != [] {
      var n := |events| - 1;
      RunHistories(cfg, events[..n]);
      var s := Run(cfg, Initial, events[..n]);
      HistoryLength(cfg, events[..n]);
      StepHistory(cfg, s, events[n]);
      FollowedTogether(cfg, s, events[n], s.history, Logs(cfg, events[..n]));
    }
  }

  /**
   In every reachable state, the history of every monitor is the last 16 of the tagsets recorded as left since
   it was plugged, each at its latest occurrence, however the monitors have been renumbered in between.
   */
  lemma RunHistoryRefines(cfg: Config, events: seq<Event>, i: nat)
    requires cfg.Sane() && i < |Run(cfg, Initial, events).monitors|
    ensures i < |Logs(cfg, events)| && i < |Run(cfg, Initial, events).history|
    ensures Run(cfg, Initial, events).history[i] == LastOf(Latest(Left(Logs(cfg, events)[i])), LIMIT)
  {
    hide Run, Logs, RunCalls, Latest, Left, LastOf;
    HistoryLength(cfg, events);
    RunHistories(cfg, events);
    HistoryRefines(Logs(cfg, events)[i]);
  }

  /**
   What is recorded is not always what is left.  A `view` records exactly when the mask differs from what is
   shown, and leaves exactly when its configured part does and is not empty; so the two agree for a mask of
   configured tags, and for one without any a tagset is recorded that is never left.
   */
  lemma RecordedIsLeftIff(cfg: Config, s: State, mask: Mask)
    requires Inv(cfg, s) && s.selMon < |s.monitors|
    ensures var recorded := mask != SelTags(s);
            var left := SelTags(View(cfg, s, mask)) != SelTags(s);
            (recorded <==> left) <==> mask == SelTags(s) || (mask * TagMask(cfg.tagCount) != {} && mask * TagMask(cfg.tagCount) != SelTags(s))
  {
    hide View, SelTags, Inv, TagMask, SameButUrgent, First, ToFront, Update;
    ToggleParts(cfg, s);
    if mask * TagMask(cfg.tagCount) != {} {
      ViewShows(cfg, s, mask);
    } else {
      ViewNothing(cfg, s, mask);
    }
    if mask == SelTags(s) {
      assert mask * TagMask(cfg.tagCount) == mask;
    }
  }

  lemma ViewNothing(cfg: Config, s: State, mask: Mask)
    requires Inv(cfg, s) && s.selMon < |s.monitors| && mask * TagMask(cfg.tagCount) == {}
    ensures SelTags(View(cfg, s, mask)) == SelTags(s)
  {
    hide Refocus, ArrangeAll, SameButUrgent, First, ToFront, Update, MonitorData.View;
    var i := s.selMon;
    MonitorAt(cfg, s, i);
    ViewTags(s.monitors[i], cfg, mask);
    var u := ViewOn(cfg, RecordTags(s, i, mask), i, mask);
    RefocusArranged(cfg, u);
  }

  /** Focusing an urgent window is the other way round: its view is left without being recorded. */
  lemma UrgentIsNotRecorded(cfg: Config, s: State)
    requires cfg.Sane()
    ensures FocusUrgent(cfg, s).history == s.history
  {
    hide ActionRecords, FocusUrgent, AfterRecord;
    ActRecords(cfg, s, FocusUrgentA);
    assert ActionRecords(cfg, s, FocusUrgentA) == None by { UrgentRecords(cfg, s); }
    assert AfterRecord(s, None) == s.history by { NoRecord(s); }
  }

  lemma UrgentRecords(cfg: Config, s: State)
    requires cfg.Sane()
    ensures ActionRecords(cfg, s, FocusUrgentA) == None
  {
  }

  lemma NoRecord(s: State)
    ensures AfterRecord(s, None) == s.history
  {
  }
}
