/** Outputs coming and going: identity across the index shift, and layouts remembered by connector. */
module Hotplug {
  import opened Sequences
  import opened Tags
  import opened History
  import opened Monitors
  import opened Windows
  import opened Desktop
  import opened Compositor
  import opened Frames
  import opened Invariant
  import opened Reachability

  /** The monitor a window is assigned to. */
  function MonitorOf(s: State, w: Window): (r: Option<MonitorData>)
  {
    var i := St(s.info, w).monIdx;
    if i < |s.monitors| then Some(s.monitors[i]) else None
  }

  lemma RemovedAt<T>(xs: seq<T>, idx: nat, j: nat)
    requires idx < |xs| && j < |xs| && j != idx
    ensures Shift(j, idx) < |xs| - 1
    ensures (xs[..idx] + xs[idx + 1..])[Shift(j, idx)] == xs[j]
  {
  }

  /** Every surviving monitor keeps its state and its own tag history, one index lower if it came later. */
  lemma SurvivorsKeepHistory(cfg: Config, s: State, idx: nat, j: nat)
    requires Inv(cfg, s) && idx < |s.monitors| && j < |s.monitors| && j != idx
    ensures var t := UnplugMonitor(s, idx);
            && Shift(j, idx) < |t.monitors| == |t.history|
            && t.monitors[Shift(j, idx)] == s.monitors[j]
            && t.history[Shift(j, idx)] == s.history[j]
  {
    hide MonitorsOk, ListsOk, CellsOk, AdoptAll, ShiftAll, MigrationTarget;
    RemovedAt(s.monitors, idx, j);
    RemovedAt(s.history, idx, j);
  }

  /** A window on a surviving monitor still refers to that monitor, with everything else unchanged. */
  lemma SurvivingWindowsKeepMonitor(cfg: Config, s: State, idx: nat, w: Window)
    requires Inv(cfg, s) && idx < |s.monitors| && w in s.windows && St(s.info, w).monIdx != idx
    ensures var t := UnplugMonitor(s, idx);
            && St(t.info, w) == St(s.info, w).(monIdx := Shift(St(s.info, w).monIdx, idx))
            && MonitorOf(t, w) == MonitorOf(s, w)
  {
    hide MonitorsOk, AdoptAll, ShiftAll, MigrationTarget, TargetTags, MonitorData.Snapshot;
    StateAt(cfg, s, w);
    UnpluggedCell(s, idx, w);
    hide ListsOk, NoDup, CellsOk;
    RemovedAt(s.monitors, idx, St(s.info, w).monIdx);
  }

  /**
   Every orphaned window goes to one surviving monitor, if there is one, and takes its tags, unless it is
   hidden with none; so it becomes visible there.  With the last monitor every window takes the tags that
   monitor showed, and its own are lost.
   */
  lemma OrphansAdopted(cfg: Config, s: State, idx: nat, w: Window)
    requires Inv(cfg, s) && idx < |s.monitors| && w in s.windows && St(s.info, w).monIdx == idx
    ensures var t := UnplugMonitor(s, idx);
            var target := MigrationTarget(s, idx);
            && target < |s.monitors|
            && St(t.info, w).tags == (if St(s.info, w).tags == {} then {} else s.monitors[target].Tags())
            && (|s.monitors| > 1 ==>
                  && target != idx
                  && MonitorOf(t, w) == Some(s.monitors[target])
                  && (St(s.info, w).tags != {} ==> Meets(St(t.info, w).tags, MonitorOf(t, w).value.Tags())))
            && (|s.monitors| == 1 ==> target == idx && St(t.info, w).monIdx == 0)
  {
    hide ListsOk, NoDup, CellsOk, AdoptAll, ShiftAll, MonitorData.Snapshot, MigrationTarget, Migrated;
    var target, tags := MigrationTarget(s, idx), TargetTags(s, idx);
    assert NoDup(s.windows) by { ListsParts(s.windows, s.focus, s.popups); }
    UnpluggedCell(s, idx, w);
    TargetSurvives(s, idx);
    MigratedTags(St(s.info, w), idx, target, tags);
    OrphanIndex(St(s.info, w), idx, target, tags);
    assert |s.monitors| == 1 ==> target == idx;
    MonitorAt(cfg, s, target);
    assert tags != {} by { TagsNonempty(cfg, s.monitors[target]); }
    assert Meets(tags, tags) by { var t :| t in tags; assert t in tags * tags; }
    if |s.monitors| > 1 {
      RemovedAt(s.monitors, idx, target);
    }
  }

  lemma NoneLeft(s: State)
    requires |s.monitors| == 1
    ensures UnplugMonitor(s, 0).monitors == []
  {
  }

  lemma PluggedTags(cfg: Config, s: State, output: Output, rule: MonitorRule)
    ensures var u := PlugMonitor(cfg, s, output, rule); u.monitors[|s.monitors|].Tags() == {0}
  {
  }

  lemma MeetsZero(m: Mask)
    ensures Meets(m, {0}) <==> 0 in m
  {
    if 0 in m {
      assert 0 in m * {0};
    }
  }

  lemma OrphanIndex(st: WindowState, idx: nat, target: nat, tags: Mask)
    requires st.monIdx == idx
    ensures Migrated(st, idx, target, tags).monIdx == Shift(target, idx)
  {
  }

  lemma TagsNonempty(cfg: Config, m: MonitorData)
    requires m.TagsOk(cfg)
    ensures m.Tags() != {}
  {
  }

  /** Unless it is the one removed, the selected monitor stays selected and takes in the orphans. */
  lemma SelectionSurvives(cfg: Config, s: State, idx: nat)
    requires Inv(cfg, s) && idx < |s.monitors| && s.selMon != idx
    ensures var t := UnplugMonitor(s, idx);
            && MigrationTarget(s, idx) == s.selMon
            && t.selMon < |t.monitors|
            && t.selMon == Shift(s.selMon, idx)
            && t.monitors[t.selMon] == s.monitors[s.selMon]
  {
    hide MonitorsOk, ListsOk, CellsOk, AdoptAll, ShiftAll, MonitorData.Snapshot;
    RemovedAt(s.monitors, idx, s.selMon);
  }

  /** The re-arranging that follows changes none of this. */
  lemma RemovalSettles(cfg: Config, s: State, output: Output, idx: nat)
    requires MonitorFor(s.monitors, output) == Some(idx)
    ensures idx < |s.monitors| && Framed(cfg, UnplugMonitor(s, idx), OutputRemoved(cfg, s, output))
  {
    hide UnplugMonitor, ArrangeAll, Framed;
    ArrangeAllFramed(cfg, UnplugMonitor(s, idx));
  }

  // Layout memory.

  predicate Concerns(e: Event, name: string) {
    match e
    case Plugged(output, _) => output.name == name
    case Unplugged(output) => output.name == name
    case _ => false
  }

  ghost predicate Keeps(s: State, t: State, name: string) {
    name in s.memory ==> name in t.memory && t.memory[name] == s.memory[name]
  }

  lemma ArrangeAllKeepsMemory(cfg: Config)
    ensures forall s :: ArrangeAll(cfg, s).memory == s.memory
  {
    hide ArrangeAll, FramedMonitors, SameCore;
    forall s
      ensures ArrangeAll(cfg, s).memory == s.memory
    {
      ArrangeAllFramed(cfg, s);
    }
  }

  lemma ArrangeBothKeepsMemory(cfg: Config, s: State, mon: nat, prev: Option<nat>)
    ensures ArrangeBoth(cfg, s, mon, prev).memory == s.memory
  {
    hide ArrangeBoth, FramedMonitors, SameCore;
    ArrangeBothFramed(cfg, s, mon, prev);
  }

  lemma FocusKeepsMemory(cfg: Config)
    ensures forall s, w :: FocusWindow(cfg, s, w).memory == s.memory
  {
    hide FramedMonitors, SameButUrgent, ArrangeBoth;
    forall s, w
      ensures FocusWindow(cfg, s, w).memory == s.memory
    {
      if w.Some? {
        FocusWindowFramed(cfg, s, w.value);
      }
    }
  }

  lemma ViewsKeepMemory(cfg: Config, s: State, mask: Mask)
    ensures View(cfg, s, mask).memory == s.memory
    ensures ViewPrev(cfg, s).memory == s.memory
    ensures ToggleView(cfg, s, mask).memory == s.memory
  {
    hide ArrangeAll, FocusWindow, FocusedWindow, Update, Xor, TagMask, MonitorData.Tags,
         MonitorData.View, MonitorData.ViewPrev, MonitorData.ToggleView;
    ArrangeAllKeepsMemory(cfg);
    FocusKeepsMemory(cfg);
  }

  lemma TagsKeepMemory(cfg: Config, s: State, mask: Mask)
    ensures Tag(cfg, s, mask).memory == s.memory
    ensures ToggleTag(cfg, s, mask).memory == s.memory
  {
    hide ArrangeAll, FocusWindow, FocusedWindow, Update, Xor, TagMask, MonitorData.Tags, MonitorData.View, WithTags;
    ArrangeAllKeepsMemory(cfg);
    FocusKeepsMemory(cfg);
  }

  lemma TuningKeepsMemory(cfg: Config, s: State, a: Action)
    requires cfg.Sane() && Tunes(a)
    ensures Act(cfg, s, a).memory == s.memory
  {
    hide ArrangeAll, FocusedWindow, MonitorData.SetLayout, Clamp, St;
    ArrangeAllKeepsMemory(cfg);
  }

  lemma ScratchKeepsMemory(cfg: Config, s: State, a: Action)
    requires cfg.Sane() && TogglesScratch(a)
    ensures Act(cfg, s, a).memory == s.memory
  {
    hide ArrangeAll, FocusWindow, FocusedWindow, First, Meets, SelTags, InitialTags, WithTags, Without, St;
    ArrangeAllKeepsMemory(cfg);
    FocusKeepsMemory(cfg);
  }

  lemma MovesKeepMemory(cfg: Config, s: State, dir: int)
    ensures FocusStackStep(cfg, s, dir).memory == s.memory && Zoom(cfg, s).memory == s.memory
    ensures FocusMon(cfg, s, dir).memory == s.memory && TagMon(cfg, s, dir).memory == s.memory
    ensures FocusUrgent(cfg, s).memory == s.memory
  {
    hide ArrangeAll, FocusWindow, FocusedWindow, Select, Find, First, ZoomTarget, ToFront, MonitorData.View, DirToMonitor, St;
    ArrangeAllKeepsMemory(cfg);
    FocusKeepsMemory(cfg);
  }

  lemma ActKeepsMemory(cfg: Config, s: State, a: Action)
    requires cfg.Sane()
    ensures Act(cfg, s, a).memory == s.memory
  {
    if Tunes(a) {
      TuningKeepsMemory(cfg, s, a);
    } else if TogglesScratch(a) {
      ScratchKeepsMemory(cfg, s, a);
    } else {
      hide View, ViewPrev, ToggleView, Tag, ToggleTag, FocusStackStep, Zoom, FocusMon, TagMon, FocusUrgent, NextOccTag, SetLayout,
         CycleLayout, IncNmaster, SetMfact, ToggleFloating, ToggleFullscreen, ToggleScratch, FocusOrToggleScratch, ToggleMatching;
      match a {
        case FocusStackA(dir) => MovesKeepMemory(cfg, s, dir);
        case ZoomA => MovesKeepMemory(cfg, s, 0);
        case FocusMonA(dir) => MovesKeepMemory(cfg, s, dir);
        case TagMonA(dir) => MovesKeepMemory(cfg, s, dir);
        case FocusUrgentA => MovesKeepMemory(cfg, s, 0);
        case ViewA(mask) => ViewsKeepMemory(cfg, s, mask);
        case ViewPrevA => ViewsKeepMemory(cfg, s, {});
        case ViewNextOccTagA(dir) =>
          if NextOccTag(cfg, s, dir).Some? {
            ViewsKeepMemory(cfg, s, NextOccTag(cfg, s, dir).value);
          }
        case ToggleViewA(mask) => ViewsKeepMemory(cfg, s, mask);
        case TagA(mask) => TagsKeepMemory(cfg, s, mask);
        case ToggleTagA(mask) => TagsKeepMemory(cfg, s, mask);
      }
    }
  }

  lemma WindowsKeepMemory(cfg: Config, s: State, w: Window, float: bool, width: int, height: int)
    ensures NewToplevel(cfg, s, w).memory == s.memory
    ensures MapX11(cfg, s, w, float, width, height).memory == s.memory
    ensures ToplevelDestroyed(cfg, s, w).memory == s.memory
    ensures UnmapX11(cfg, s, w).memory == s.memory
    ensures Disconnected(cfg, s).memory == s.memory
  {
    hide ArrangeAll, ArrangeBoth, FocusWindow, FocusedWindow, TileMasterWindow, Select, First, ToFront, Without,
         MapElement, UnmapElem, UnmapAll, MonitorData.Centre, InitialTags, BaseLoc;
    ArrangeAllKeepsMemory(cfg);
    FocusKeepsMemory(cfg);
    forall t: State, mon, prev
      ensures ArrangeBoth(cfg, t, mon, prev).memory == t.memory
    {
      ArrangeBothKeepsMemory(cfg, t, mon, prev);
    }
  }

  lemma RulesKeepMemory(cfg: Config, s: State, w: Window, verdict: Verdict)
    ensures ApplyRules(cfg, s, w, verdict).memory == s.memory
  {
    hide MonitorData.View, FoldRules, TargetMonitor, InitialTags, Update;
  }

  lemma CommitsKeepMemory(cfg: Config, s: State, w: Window, verdict: Verdict, width: int, height: int, floatType: bool)
    ensures FirstCommit(cfg, s, w, verdict).memory == s.memory
    ensures BufferCommit(cfg, s, w, width, height, floatType).memory == s.memory
  {
    hide ArrangeAll, FocusWindow, FocusedWindow, ApplyRules, MapElement, MonitorData.Centre;
    ArrangeAllKeepsMemory(cfg);
    FocusKeepsMemory(cfg);
    RulesKeepMemory(cfg, s.(info := s.info[w := St(s.info, w).(rulesApplied := true)]), w, verdict);
  }

  lemma OutputsKeepMemory(cfg: Config, s: State, e: Event, name: string)
    requires cfg.Sane() && (e.Plugged? || e.Unplugged?) && !Concerns(e, name)
    ensures Keeps(s, Step(cfg, s, e), name)
  {
    hide ArrangeAll, Fresh, MonitorData.Restore, AdoptAll, ShiftAll, MigrationTarget, MonitorData.Snapshot, MonitorData.Tags;
    ArrangeAllKeepsMemory(cfg);
  }

  /** The events handled by a function of their own. */
  predicate Handled(e: Event) {
    e.Dispatch? || e.WindowOpened? || e.X11Mapped? || e.WindowClosed? || e.X11Unmapped? || e.X11Gone? || e.RulesCommit? || e.Commit?
  }

  lemma HandledKeepsMemory(cfg: Config, s: State, e: Event)
    requires cfg.Sane() && Handled(e)
    ensures Step(cfg, s, e).memory == s.memory
  {
    hide Act, NewToplevel, MapX11, ToplevelDestroyed, UnmapX11, Disconnected, FirstCommit, BufferCommit, St;
    match e {
      case Dispatch(a) => ActKeepsMemory(cfg, s, a);
      case WindowOpened(w) => WindowsKeepMemory(cfg, s, w, false, 0, 0);
      case X11Mapped(w, float, width, height) => WindowsKeepMemory(cfg, s, w, float, width, height);
      case WindowClosed(w) => WindowsKeepMemory(cfg, s, w, false, 0, 0);
      case X11Unmapped(w) => WindowsKeepMemory(cfg, s, w, false, 0, 0);
      case X11Gone => WindowsKeepMemory(cfg, s, 0, false, 0, 0);
      case RulesCommit(w, verdict) => CommitsKeepMemory(cfg, s, w, verdict, 0, 0, false);
      case Commit(w, width, height, floatType) => CommitsKeepMemory(cfg, s, w, Child(None), width, height, floatType);
    }
  }

  lemma OthersKeepMemory(cfg: Config, s: State, e: Event)
    requires cfg.Sane() && !Handled(e) && !e.Plugged? && !e.Unplugged?
    ensures Step(cfg, s, e).memory == s.memory
  {
    hide ArrangeAll, FocusWindow, MapElement, ConfiguredLoc, St;
    ArrangeAllKeepsMemory(cfg);
    FocusKeepsMemory(cfg);
  }

  /** No event but plugging or unplugging an output of that name touches what is remembered for it. */
  lemma StepKeepsMemory(cfg: Config, s: State, e: Event, name: string)
    requires cfg.Sane() && !Concerns(e, name)
    ensures Keeps(s, Step(cfg, s, e), name)
  {
    hide Step;
    if e.Plugged? || e.Unplugged? {
      OutputsKeepMemory(cfg, s, e, name);
    } else if Handled(e) {
      HandledKeepsMemory(cfg, s, e);
    } else {
      OthersKeepMemory(cfg, s, e);
    }
  }

  lemma {:induction false} RunKeepsMemory(cfg: Config, s: State, events: seq<Event>, name: string)
    requires cfg.Sane() && forall e :: e in events ==> !Concerns(e, name)
    ensures Keeps(s, Run(cfg, s, events), name)
  {
    hide Step;
    if events != [] {
      var n := |events| - 1;
      assert forall e :: e in events[..n] ==> e in events;
      RunKeepsMemory(cfg, s, events[..n], name);
      assert events[n] in events;
      StepKeepsMemory(cfg, Run(cfg, s, events[..n]), events[n], name);
    }
  }

  /**
   Unplugging an output and replugging one of the same name gives the new monitor the layout state of
   the old one, whatever happened in between that did not concern that name.
   */
  lemma ReplugRestores(cfg: Config, s: State, output: Output, idx: nat, events: seq<Event>, again: Output, rule: MonitorRule)
    requires cfg.Sane() && Inv(cfg, s) && MonitorFor(s.monitors, output) == Some(idx)
    requires again.name == output.name && forall e :: e in events ==> !Concerns(e, output.name)
    ensures var t := Run(cfg, OutputRemoved(cfg, s, output), events);
            var u := PlugMonitor(cfg, t, again, rule);
            var m, n := s.monitors[idx], u.monitors[|t.monitors|];
            && n.output == again
            && n.mfact == m.mfact && n.nmaster == m.nmaster
            && n.lt == m.lt && n.selLt == m.selLt && n.overrides == m.overrides
  {
    hide Run, ArrangeAll, AdoptAll, ShiftAll, MigrationTarget, Fresh, MonitorData.Restore, Framed;
    var r := OutputRemoved(cfg, s, output);
    ArrangeAllKeepsMemory(cfg);
    assert r.memory[output.name] == s.monitors[idx].Snapshot();
    RunKeepsMemory(cfg, r, events, output.name);
    MonitorAt(cfg, s, idx);
    RestoreIsExact(s.monitors[idx], Fresh(cfg, again, rule), cfg);
    RestoreOutput(cfg, again, rule, s.monitors[idx].Snapshot());
  }

  lemma RestoreOutput(cfg: Config, output: Output, rule: MonitorRule, mem: MonitorMemory)
    ensures Fresh(cfg, output, rule).Restore(cfg, mem).output == output
  {
  }
}
