/** The invariant over hotplug, window and client events, and over whole runs. */
module Reachability {
  import opened Sequences
  import opened Tags
  import opened History
  import opened Monitors
  import opened Windows
  import opened Desktop
  import opened Pointer
  import opened Compositor
  import opened Frames
  import opened Invariant

  // Windows.

  lemma ListsWithNew(windows: seq<Window>, focus: seq<Window>, popups: seq<Window>, w: Window)
    requires ListsOk(windows, focus, popups) && w !in windows && w !in popups
    ensures NoDup([w] + windows)
    ensures forall v :: v in [w] + windows <==> v in windows || v == w
    ensures forall v :: v in popups ==> v !in [w] + windows
  {
    NoDupConcat([w], windows);
  }

  lemma NewCells(cfg: Config, info: Info, ws: seq<Window>, n: nat, w: Window, st: WindowState)
    requires CellsOk(cfg, info, ws, n) && CellOk(cfg, st, n)
    ensures CellsOk(cfg, info[w := st], [w] + ws, n)
  {
    hide CellOk;
    forall v | v in [w] + ws
      ensures CellOk(cfg, St(info[w := st], v), n)
    {
      if v != w {
        assert v in ws;
      }
    }
  }

  /** A new managed window, before it enters the focus stack. */
  lemma InvOpened(cfg: Config, s: State, w: Window, st: WindowState, sp: Space)
    requires Inv(cfg, s) && Unknown(s, w) && CellOk(cfg, st, |s.monitors|)
    ensures Inv(cfg, s.(info := s.info[w := st], space := sp, windows := [w] + s.windows))
  {
    hide MonitorsOk, HistoryOk, CellOk, Stray;
    NewCells(cfg, s.info, s.windows, |s.monitors|, w, st);
    ListsWithNew(s.windows, s.focus, s.popups, w);
    hide CellsOk;
  }

  lemma InvBothArranged(cfg: Config, s: State, mon: nat, prev: Option<nat>)
    requires Inv(cfg, s)
    ensures Inv(cfg, ArrangeBoth(cfg, s, mon, prev))
  {
    hide Inv, ArrangeBoth, Framed;
    ArrangeBothFramed(cfg, s, mon, prev);
    InvFramed(cfg, s, ArrangeBoth(cfg, s, mon, prev));
  }

  lemma FreshCellOk(cfg: Config, s: State)
    requires cfg.Sane() && Inv(cfg, s)
    ensures CellOk(cfg, NewWindowState.(tags := InitialTags(s), monIdx := s.selMon), |s.monitors|)
  {
    SelTagsOk(cfg, s);
    hide MonitorsOk, ListsOk, CellsOk;
  }

  lemma InvNewToplevel(cfg: Config, s: State, w: Window)
    requires cfg.Sane() && Inv(cfg, s) && Unknown(s, w)
    ensures Inv(cfg, NewToplevel(cfg, s, w))
  {
    hide Inv, ArrangeBoth, MapElement, ToFront, CellOk, InitialTags, BaseLoc;
    var st := NewWindowState.(tags := InitialTags(s), monIdx := s.selMon);
    FreshCellOk(cfg, s);
    var sp := MapElement(s.space, w, BaseLoc(s));
    InvOpened(cfg, s, w, st, sp);
    var t := s.(info := s.info[w := st], space := sp, windows := [w] + s.windows);
    InvFronted(cfg, t, w);
    InvBothArranged(cfg, t.(focus := ToFront(s.focus, w)), s.selMon, FrontMonitor(s));
  }

  lemma InvFronted(cfg: Config, s: State, w: Window)
    requires Inv(cfg, s) && w in s.windows
    ensures Inv(cfg, s.(focus := ToFront(s.focus, w)))
  {
    hide MonitorsOk, CellsOk, ToFront, ListsOk, StraysOk;
    ListsAfterFocus(s.info, s.windows, s.focus, s.popups, w);
  }

  lemma InvCentred(cfg: Config, s: State, w: Window, width: int, height: int)
    requires Inv(cfg, s) && w in s.windows
    ensures Inv(cfg, CentreX11(s, w, width, height))
  {
    hide Inv, MapElement, MonitorData.Centre;
    var mon := St(s.info, w).monIdx;
    if width > 0 && height > 0 && mon < |s.monitors| {
      var loc := s.monitors[mon].Centre(width, height);
      var st := St(s.info, w).(savedLoc := Some(loc));
      InvFlag(cfg, s, w, st);
      InvRespaced(cfg, s.(info := s.info[w := st]), MapElement(s.space, w, loc));
    }
  }

  lemma InvMapX11(cfg: Config, s: State, w: Window, float: bool, width: int, height: int)
    requires cfg.Sane() && Inv(cfg, s) && Unknown(s, w)
    ensures Inv(cfg, MapX11(cfg, s, w, float, width, height))
  {
    hide Inv, FocusWindow, ArrangeAll, CentreX11, MapElement, InitialTags, BaseLoc, Unknown, CellOk;
    FreshCellOk(cfg, s);
    var st := NewWindowState.(tags := InitialTags(s), monIdx := s.selMon, isFloating := float, isX11 := true);
    assert CellOk(cfg, st, |s.monitors|) by { SameCellOk(cfg, NewWindowState.(tags := InitialTags(s), monIdx := s.selMon), st, |s.monitors|); }
    var sp := MapElement(s.space, w, BaseLoc(s));
    var t := s.(info := s.info[w := st], space := sp, windows := [w] + s.windows);
    InvOpened(cfg, s, w, st, sp);
    InvCentred(cfg, t, w, width, height);
    var u := if float then CentreX11(t, w, width, height) else t;
    assert w in u.windows by { CentreKeepsWindows(t, w, width, height); }
    InvFocus(cfg, u, w);
    InvArrangeAll(cfg, FocusWindow(cfg, u, Some(w)));
  }

  lemma CentreKeepsWindows(s: State, w: Window, width: int, height: int)
    ensures CentreX11(s, w, width, height).windows == s.windows
  {
  }

  lemma SameCellOk(cfg: Config, a: WindowState, b: WindowState, n: nat)
    requires CellOk(cfg, a, n) && a.tags == b.tags && a.monIdx == b.monIdx
    ensures CellOk(cfg, b, n)
  {
  }

  lemma InvMapPopup(cfg: Config, s: State, w: Window, loc: Point)
    requires Inv(cfg, s) && Unknown(s, w)
    ensures Inv(cfg, MapPopup(s, w, loc))
  {
    hide MonitorsOk, CellOk, MapElement;
    assert NoDup(s.popups + [w]) by { NoDupConcat(s.popups, [w]); }
  }

  lemma ListsWithout(windows: seq<Window>, focus: seq<Window>, popups: seq<Window>, rest: seq<Window>, w: Window)
    requires ListsOk(windows, focus, popups)
    requires NoDup(rest) && forall v :: v in rest ==> v in popups
    ensures ListsOk(Without(windows, w), Without(focus, w), rest)
    ensures forall info :: StraysOk(info, windows, focus, popups) ==> StraysOk(info, Without(windows, w), Without(focus, w), rest)
  {
    WithoutNoDup(windows, w);
    WithoutNoDup(focus, w);
    hide Without;
  }

  /** Windows leaving, and popups being dismissed, keep everything about those that stay. */
  lemma InvFewer(cfg: Config, s: State, windows: seq<Window>, focus: seq<Window>, popups: seq<Window>, sp: Space)
    requires Inv(cfg, s) && ListsOk(windows, focus, popups) && forall w :: w in windows ==> w in s.windows
    requires StraysOk(s.info, windows, focus, popups)
    ensures Inv(cfg, s.(windows := windows, focus := focus, popups := popups, space := sp))
  {
    hide MonitorsOk, ListsOk, CellOk, StraysOk;
  }

  lemma TileMasterManaged(cfg: Config, s: State)
    ensures TileMasterWindow(cfg, s).Some? ==> TileMasterWindow(cfg, s).value in s.windows
  {
    hide First;
  }

  lemma InvToplevelDestroyed(cfg: Config, s: State, w: Window)
    requires Inv(cfg, s)
    ensures Inv(cfg, ToplevelDestroyed(cfg, s, w))
  {
    hide FocusWindow, ArrangeAll, TileMasterWindow, FocusedWindow, UnmapElem, Without, ListsOk, MonitorsOk, CellsOk, StraysOk;
    var t := s.(windows := Without(s.windows, w), focus := Without(s.focus, w), space := UnmapElem(s.space, w));
    assert NoDup(s.popups) by { ListsParts(s.windows, s.focus, s.popups); }
    ListsWithout(s.windows, s.focus, s.popups, s.popups, w);
    InvFewer(cfg, s, t.windows, t.focus, s.popups, t.space);
    TileMasterManaged(cfg, t);
    FocusedIsManaged(cfg, t);
    hide Inv;
    var master := if St(s.info, w).bufferMapped then TileMasterWindow(cfg, t) else None;
    var top := if master.Some? then master else FocusedWindow(t);
    InvFocusHeld(cfg, t, top);
    InvArrangeAll(cfg, FocusWindow(cfg, t, top));
  }

  lemma ListsParts(windows: seq<Window>, focus: seq<Window>, popups: seq<Window>)
    requires ListsOk(windows, focus, popups)
    ensures NoDup(windows) && NoDup(focus) && NoDup(popups)
  {
  }

  lemma InvRefocusArranged(cfg: Config, s: State)
    requires Inv(cfg, s)
    ensures Inv(cfg, ArrangeAll(cfg, Refocus(cfg, s)))
  {
    hide Inv, Refocus, ArrangeAll;
    InvRefocus(cfg, s);
    InvArrangeAll(cfg, Refocus(cfg, s));
  }

  lemma InvUnmapX11(cfg: Config, s: State, w: Window)
    requires Inv(cfg, s)
    ensures Inv(cfg, UnmapX11(cfg, s, w))
  {
    hide Refocus, ArrangeAll, UnmapElem, UnmapAll, Without, MonitorsOk, CellsOk, Stray;
    if w in s.popups {
      WithoutNoDup(s.popups, w);
      InvFewer(cfg, s, s.windows, s.focus, Without(s.popups, w), UnmapElem(s.space, w));
    } else if w in s.windows {
      hide ListsOk, StraysOk;
      var sp := UnmapAll(UnmapElem(s.space, w), s.popups);
      ListsWithout(s.windows, s.focus, s.popups, [], w);
      InvFewer(cfg, s, Without(s.windows, w), Without(s.focus, w), [], sp);
      hide Inv;
      InvRefocusArranged(cfg, s.(windows := Without(s.windows, w), focus := Without(s.focus, w), popups := [], space := sp));
    }
  }

  lemma ListsSelected(q: Query, info: Info, windows: seq<Window>, focus: seq<Window>, popups: seq<Window>)
    requires ListsOk(windows, focus, popups)
    requires StraysOk(info, windows, focus, popups)
    ensures ListsOk(Select(q, info, windows), Select(q, info, focus), [])
    ensures StraysOk(info, Select(q, info, windows), Select(q, info, focus), [])
  {
    hide Sat;
    SelectNoDup(q, info, windows);
    SelectNoDup(q, info, focus);
    hide Select;
  }

  lemma InvDisconnected(cfg: Config, s: State)
    requires Inv(cfg, s)
    ensures Inv(cfg, Disconnected(cfg, s))
  {
    hide Refocus, ArrangeAll, UnmapAll, Select, MonitorsOk, CellsOk, ListsOk, StraysOk;
    var dead := Select(IsX11, s.info, s.windows);
    if dead != [] || s.popups != [] {
      ListsSelected(NotX11, s.info, s.windows, s.focus, s.popups);
      var windows, focus := Select(NotX11, s.info, s.windows), Select(NotX11, s.info, s.focus);
      var sp := UnmapAll(UnmapAll(s.space, dead), s.popups);
      InvFewer(cfg, s, windows, focus, [], sp);
      hide Inv;
      InvRefocusArranged(cfg, s.(windows := windows, focus := focus, popups := [], space := sp));
    }
  }

  // Rules.

  lemma {:induction false} FoldRulesMasked(cfg: Config, rules: seq<Rule>, float: bool)
    ensures var acc := FoldRules(cfg, rules, float);
            acc.switchToTag.Some? ==> acc.switchToTag.value <= TagMask(cfg.tagCount)
  {
    if rules != [] {
      FoldRulesMasked(cfg, rules[..|rules| - 1], float);
    }
  }

  lemma TargetInRange(cfg: Config, s: State, ruleMonitor: int)
    requires Inv(cfg, s)
    ensures TargetMonitor(s, ruleMonitor) < IndexBound(|s.monitors|)
  {
    hide MonitorsOk, ListsOk, CellsOk;
  }

  lemma InvSwitchToTag(cfg: Config, s: State, w: Window, mon: nat, mask: Mask)
    requires Inv(cfg, s) && w in s.windows
    ensures Inv(cfg, SwitchToTag(cfg, s, w, mon, mask))
    ensures SwitchToTag(cfg, s, w, mon, mask).windows == s.windows
    ensures |SwitchToTag(cfg, s, w, mon, mask).monitors| == |s.monitors|
  {
    hide Inv, MonitorData.View, Update;
    var t := RecordTags(s, mon, mask);
    InvRecord(cfg, s, mon, mask);
    if mon < |t.monitors| && t.monitors[mon].Tags() != mask * TagMask(cfg.tagCount) {
      var u := ViewOn(cfg, t, mon, mask);
      InvViewOn(cfg, t, mon, mask);
      InvFlag(cfg, u, w, St(u.info, w).(switchToTag := Some(t.monitors[mon].Tags())));
    }
  }

  lemma InvChild(cfg: Config, s: State, w: Window, parent: Option<Window>)
    requires cfg.Sane() && Inv(cfg, s) && w in s.windows
    ensures Inv(cfg, ApplyRules(cfg, s, w, Child(parent)))
  {
    hide Inv, InitialTags;
    var known := parent.Some? && parent.value in s.windows;
    if known {
      StateAt(cfg, s, parent.value);
    } else {
      FreshCellOk(cfg, s);
    }
    var mon := if known then St(s.info, parent.value).monIdx else s.selMon;
    var tags := if known then St(s.info, parent.value).tags else InitialTags(s);
    InvCell(cfg, s, w, St(s.info, w).(tags := tags, isFloating := true, needsCentering := true, monIdx := mon));
  }

  lemma InvMatched(cfg: Config, s: State, w: Window, rules: seq<Rule>, floatType: bool)
    requires cfg.Sane() && Inv(cfg, s) && w in s.windows
    ensures Inv(cfg, ApplyRules(cfg, s, w, Matched(rules, floatType)))
  {
    hide Inv, SwitchToTag, FoldRules, TargetMonitor;
    var acc := FoldRules(cfg, rules, floatType || St(s.info, w).isFloating);
    var mon := TargetMonitor(s, acc.monitor);
    TargetInRange(cfg, s, acc.monitor);
    if mon < |s.monitors| {
      MonitorAt(cfg, s, mon);
    }
    var tags := if acc.tags != {} then acc.tags * TagMask(cfg.tagCount)
                else if mon < |s.monitors| then s.monitors[mon].Tags() else {0};
    assert tags <= TagMask(cfg.tagCount);
    var t := if acc.switchToTag.Some? then SwitchToTag(cfg, s, w, mon, acc.switchToTag.value) else s;
    if acc.switchToTag.Some? {
      InvSwitchToTag(cfg, s, w, mon, acc.switchToTag.value);
    }
    InvCell(cfg, t, w, St(t.info, w).(
      tags := tags, isFloating := acc.isFloating, needsCentering := acc.isFloating && !St(t.info, w).isX11,
      scratchKey := acc.scratchKey, monIdx := mon));
  }

  lemma InvFirstCommit(cfg: Config, s: State, w: Window, verdict: Verdict)
    requires cfg.Sane() && Inv(cfg, s) && w in s.windows
    ensures Inv(cfg, FirstCommit(cfg, s, w, verdict))
  {
    hide Inv, ApplyRules, Refocus, ArrangeAll;
    var st := St(s.info, w).(rulesApplied := true);
    InvFlag(cfg, s, w, st);
    var t := s.(info := s.info[w := st]);
    match verdict {
      case Child(parent) => InvChild(cfg, t, w, parent);
      case Matched(rules, floatType) => InvMatched(cfg, t, w, rules, floatType);
    }
    InvArrangeRefocus(cfg, ApplyRules(cfg, t, w, verdict));
  }

  lemma InvRespaced(cfg: Config, s: State, sp: Space)
    requires Inv(cfg, s)
    ensures Inv(cfg, s.(space := sp))
  {
    hide MonitorsOk, ListsOk, CellsOk;
  }

  lemma InvCentre(cfg: Config, s: State, w: Window, width: int, height: int)
    requires Inv(cfg, s) && w in s.windows
    ensures Inv(cfg, CentreWindow(s, w, width, height))
  {
    hide Inv, MonitorData.Centre, MapElement, AllVisible;
    var st := St(s.info, w);
    if st.monIdx < |s.monitors| {
      var loc := s.monitors[st.monIdx].Centre(width, height);
      InvFlag(cfg, s, w, st.(needsCentering := false));
      InvFlag(cfg, s, w, st.(needsCentering := false, savedLoc := Some(loc)));
      InvRespaced(cfg, s.(info := s.info[w := st.(needsCentering := false)]), MapElement(s.space, w, loc));
    }
  }

  lemma InvBufferCommit(cfg: Config, s: State, w: Window, width: int, height: int, floatType: bool)
    requires Inv(cfg, s) && w in s.windows
    ensures Inv(cfg, BufferCommit(cfg, s, w, width, height, floatType))
  {
    hide Inv, ArrangeAll, CentreWindow, FramedMonitors;
    if width > 0 && height > 0 {
      var st := St(s.info, w);
      var mapped := st.(bufferMapped := true);
      var afloat := mapped.(isFloating := true, needsCentering := true);
      InvFlag(cfg, s, w, mapped);
      InvFlagArranged(cfg, s, w, afloat);
      ArrangeAllFramed(cfg, s.(info := s.info[w := afloat]));
      var t :=
        if st.bufferMapped then s
        else if !st.isX11 && !st.isFloating && !st.isFullscreen && floatType
        then ArrangeAll(cfg, s.(info := s.info[w := afloat]))
        else s.(info := s.info[w := mapped]);
      InvCentre(cfg, t, w, width, height);
    }
  }

  // Outputs.

  lemma FreshOk(cfg: Config, output: Output, rule: MonitorRule)
    requires cfg.Sane()
    ensures Fresh(cfg, output, rule).TagsOk(cfg) && Fresh(cfg, output, rule).LayoutsOk(cfg)
  {
  }

  lemma RestoreTags(m: MonitorData, cfg: Config, mem: MonitorMemory)
    requires m.TagsOk(cfg)
    ensures m.Restore(cfg, mem).TagsOk(cfg)
  {
  }

  lemma InvMonitorAdded(cfg: Config, s: State, m: MonitorData, memory: map<string, MonitorMemory>)
    requires Inv(cfg, s) && m.TagsOk(cfg) && m.LayoutsOk(cfg)
    ensures Inv(cfg, s.(monitors := s.monitors + [m], history := s.history + [[]], memory := memory))
  {
    hide ListsOk, MonitorData.TagsOk, MonitorData.LayoutsOk;
  }

  lemma InvOutputAdded(cfg: Config, s: State, output: Output, rule: MonitorRule)
    requires cfg.Sane() && Inv(cfg, s)
    ensures Inv(cfg, OutputAdded(cfg, s, output, rule))
  {
    hide Inv, ArrangeAll, MonitorData.Restore, MonitorData.TagsOk, MonitorData.LayoutsOk, Fresh;
    FreshOk(cfg, output, rule);
    var m := Fresh(cfg, output, rule);
    if output.name in s.memory {
      RestoreTags(m, cfg, s.memory[output.name]);
      RestoreInRange(m, cfg, s.memory[output.name]);
      InvMonitorAdded(cfg, s, m.Restore(cfg, s.memory[output.name]), s.memory - {output.name});
    } else {
      InvMonitorAdded(cfg, s, m, s.memory - {output.name});
    }
    InvArrangeAll(cfg, PlugMonitor(cfg, s, output, rule));
  }

  lemma {:induction false} AdoptAllAt(info: Info, ws: seq<Window>, idx: nat, target: nat, tags: Mask, w: Window)
    requires NoDup(ws)
    ensures St(AdoptAll(info, ws, idx, target, tags), w)
            == if w in ws then Adopt(St(info, w), idx, target, tags) else St(info, w)
  {
    hide Adopt;
    if ws != [] {
      var n := |ws| - 1;
      assert ws == ws[..n] + [ws[n]] && ws[n] !in ws[..n];
      AdoptAllAt(info, ws[..n], idx, target, tags, w);
    }
  }

  lemma {:induction false} ShiftAllAt(info: Info, ws: seq<Window>, idx: nat, w: Window)
    requires NoDup(ws)
    ensures St(ShiftAll(info, ws, idx), w)
            == if w in ws then St(info, w).(monIdx := Shift(St(info, w).monIdx, idx)) else St(info, w)
  {
    hide Shift;
    if ws != [] {
      var n := |ws| - 1;
      assert ws == ws[..n] + [ws[n]] && ws[n] !in ws[..n];
      ShiftAllAt(info, ws[..n], idx, w);
    }
  }

  /** What the migration makes of one window: adopted if it was orphaned, then re-indexed. */
  function Migrated(st: WindowState, idx: nat, target: nat, tags: Mask): WindowState {
    var a := Adopt(st, idx, target, tags);
    a.(monIdx := Shift(a.monIdx, idx))
  }

  function TargetTags(s: State, idx: nat): Mask {
    var target := MigrationTarget(s, idx);
    if target < |s.monitors| then s.monitors[target].Tags() else {0}
  }

  lemma UnpluggedCell(s: State, idx: nat, w: Window)
    requires idx < |s.monitors| && NoDup(s.windows) && w in s.windows
    ensures St(UnplugMonitor(s, idx).info, w)
            == Migrated(St(s.info, w), idx, MigrationTarget(s, idx), TargetTags(s, idx))
  {
    hide Adopt, Shift, AdoptAll, ShiftAll, MigrationTarget;
    var target, tags := MigrationTarget(s, idx), TargetTags(s, idx);
    var adopted := AdoptAll(s.info, s.windows, idx, target, tags);
    AdoptAllAt(s.info, s.windows, idx, target, tags, w);
    ShiftAllAt(adopted, s.windows, idx, w);
  }

  lemma UnpluggedOther(s: State, idx: nat, w: Window)
    requires idx < |s.monitors| && NoDup(s.windows) && w !in s.windows
    ensures St(UnplugMonitor(s, idx).info, w) == St(s.info, w)
  {
    hide Adopt, Shift, AdoptAll, ShiftAll, MigrationTarget;
    var target, tags := MigrationTarget(s, idx), TargetTags(s, idx);
    AdoptAllAt(s.info, s.windows, idx, target, tags, w);
    ShiftAllAt(AdoptAll(s.info, s.windows, idx, target, tags), s.windows, idx, w);
  }

  lemma TargetTagsOk(cfg: Config, s: State, idx: nat)
    requires cfg.Sane() && Inv(cfg, s)
    ensures TargetTags(s, idx) <= TagMask(cfg.tagCount)
  {
    hide Inv;
    if MigrationTarget(s, idx) < |s.monitors| {
      MonitorAt(cfg, s, MigrationTarget(s, idx));
    }
  }

  /** The target is a monitor that survives, unless none does. */
  lemma TargetSurvives(s: State, idx: nat)
    requires idx < |s.monitors| && s.selMon < |s.monitors|
    ensures MigrationTarget(s, idx) < |s.monitors|
    ensures |s.monitors| > 1 ==> MigrationTarget(s, idx) != idx
  {
  }

  lemma MigratedIndex(st: WindowState, n: nat, idx: nat, target: nat, tags: Mask)
    requires idx < n && st.monIdx < IndexBound(n) && target < n && (n > 1 ==> target != idx)
    ensures Migrated(st, idx, target, tags).monIdx < IndexBound(n - 1)
  {
  }

  lemma MigratedTags(st: WindowState, idx: nat, target: nat, tags: Mask)
    ensures Migrated(st, idx, target, tags).tags == if st.monIdx == idx && st.tags != {} then tags else st.tags
  {
    hide Adopt;
    AdoptTags(st, idx, target, tags);
  }

  lemma AdoptTags(st: WindowState, idx: nat, target: nat, tags: Mask)
    ensures Adopt(st, idx, target, tags).tags == if st.monIdx == idx && st.tags != {} then tags else st.tags
  {
  }

  lemma MigratedOk(cfg: Config, st: WindowState, s: State, idx: nat, tags: Mask)
    requires idx < |s.monitors| && s.selMon < |s.monitors| && CellOk(cfg, st, |s.monitors|) && tags <= TagMask(cfg.tagCount)
    ensures CellOk(cfg, Migrated(st, idx, MigrationTarget(s, idx), tags), |s.monitors| - 1)
  {
    hide TagMask, MigrationTarget, Migrated, IndexBound;
    var target := MigrationTarget(s, idx);
    TargetSurvives(s, idx);
    MigratedIndex(st, |s.monitors|, idx, target, tags);
    MigratedTags(st, idx, target, tags);
  }

  lemma InvUnplugMonitor(cfg: Config, s: State, idx: nat)
    requires cfg.Sane() && Inv(cfg, s) && idx < |s.monitors|
    ensures Inv(cfg, UnplugMonitor(s, idx))
  {
    hide ListsOk, AdoptAll, ShiftAll, MigrationTarget, TargetTags, Migrated, MonitorData.TagsOk, MonitorData.LayoutsOk,
         MonitorData.Snapshot, CellOk, NoDup, Stray;
    var t := UnplugMonitor(s, idx);
    TargetTagsOk(cfg, s, idx);
    ListsParts(s.windows, s.focus, s.popups);
    forall w | w in s.windows
      ensures CellOk(cfg, St(t.info, w), |t.monitors|)
    {
      UnpluggedCell(s, idx, w);
      MigratedOk(cfg, St(s.info, w), s, idx, TargetTags(s, idx));
    }
    forall w | w !in s.windows
      ensures St(t.info, w) == St(s.info, w)
    {
      UnpluggedOther(s, idx, w);
    }
    hide St;
  }

  lemma InvOutputRemoved(cfg: Config, s: State, output: Output)
    requires cfg.Sane() && Inv(cfg, s)
    ensures Inv(cfg, OutputRemoved(cfg, s, output))
  {
    hide Inv, UnplugMonitor, ArrangeAll, MonitorFor;
    var idx := MonitorFor(s.monitors, output);
    if idx.Some? {
      InvUnplugMonitor(cfg, s, idx.value);
      InvArrangeAll(cfg, UnplugMonitor(s, idx.value));
    } else {
      InvArrangeAll(cfg, s);
    }
  }

  // Runs.

  lemma InvZone(cfg: Config, s: State, i: nat, zone: Rect, exclusive: bool)
    requires Inv(cfg, s) && i < |s.monitors|
    ensures Inv(cfg, ArrangeAll(cfg, s.(monitors := s.monitors[i := s.monitors[i].(zone := zone, exclusive := exclusive)])))
  {
    hide Inv, ArrangeAll;
    MonitorAt(cfg, s, i);
    var m := s.monitors[i].(zone := zone, exclusive := exclusive);
    InvMonitor(cfg, s, i, m);
    InvArrangeAll(cfg, s.(monitors := s.monitors[i := m]));
  }

  lemma InvPointer(cfg: Config, s: State, p: Spot)
    requires Inv(cfg, s)
    ensures Inv(cfg, MoveGrabbed(SelectUnder(s, p), p))
  {
    hide Inv, AreaAt, MapElement, DraggedTo;
    var at := AreaAt(Areas(s.monitors), p);
    if at.Some? {
      InvSelMon(cfg, s, at.value);
    }
    var t := SelectUnder(s, p);
    if s.grab.Some? && s.grab.value.origin.Some? {
      var g := s.grab.value;
      InvRespaced(cfg, t, MapElement(t.space, g.w, DraggedTo(g.origin.value, g.start, p)));
    }
  }

  lemma InvUngrabbed(cfg: Config, s: State, grab: Option<Grab>)
    requires Inv(cfg, s)
    ensures Inv(cfg, s.(grab := grab))
  {
    hide MonitorsOk, ListsOk, CellsOk, StraysOk;
  }

  lemma InvFloating(cfg: Config, s: State, w: Window, floating: bool)
    requires Inv(cfg, s)
    ensures Inv(cfg, s.(info := s.info[w := St(s.info, w).(isFloating := floating)]))
  {
    var st := St(s.info, w).(isFloating := floating);
    if Held(s, w) {
      hide Inv, Held;
      InvFlag(cfg, s, w, st);
    } else {
      InvCell(cfg, s, w, st);
    }
  }

  lemma InvStartMove(cfg: Config, s: State, w: Window, at: Spot)
    requires Inv(cfg, s) && Held(s, w)
    ensures Inv(cfg, StartMove(cfg, s, w, at))
  {
    hide Inv, FocusWindow, LocOf;
    InvFloating(cfg, s, w, true);
    var st := St(s.info, w);
    var t := s.(info := s.info[w := st.(isFloating := true)]);
    var grab := Some(Grab(w, st.isFloating, at, LocOf(s.space, w)));
    InvUngrabbed(cfg, t, grab);
    InvFocusHeld(cfg, t.(grab := grab), Some(w));
  }

  lemma InvEndMove(cfg: Config, s: State)
    requires Inv(cfg, s)
    ensures Inv(cfg, EndMove(cfg, s))
  {
    hide Inv, ArrangeAll;
    InvUngrabbed(cfg, s, None);
    if s.grab.Some? {
      var t := s.(grab := None);
      InvFloating(cfg, t, s.grab.value.w, false);
      InvArrangeAll(cfg, t.(info := t.info[s.grab.value.w := St(t.info, s.grab.value.w).(isFloating := false)]));
    }
  }

  lemma InvConfigure(cfg: Config, s: State, w: Window, at: Point, x: Option<int>, y: Option<int>)
    requires Inv(cfg, s) && Held(s, w)
    ensures Inv(cfg, ConfigureX11(s, w, at, x, y))
  {
    hide Inv, MapElement, ConfiguredLoc;
    var st := St(s.info, w);
    var placed := st.(savedLoc := Some(ConfiguredLoc(st, at, x, y)));
    InvFlag(cfg, s, w, placed);
    InvRespaced(cfg, s.(info := s.info[w := placed]), MapElement(s.space, w, ConfiguredLoc(st, at, x, y)));
  }

  lemma InvLocked(cfg: Config, s: State, locked: bool)
    requires Inv(cfg, s)
    ensures Inv(cfg, s.(locked := locked))
  {
    hide MonitorsOk, ListsOk, CellsOk;
  }

  /** Every event keeps the invariant. */
  lemma InvStep(cfg: Config, s: State, e: Event)
    requires cfg.Sane() && Inv(cfg, s)
    ensures Inv(cfg, Step(cfg, s, e))
  {
    hide Inv, Act, FocusWindow, ArrangeAll, NewToplevel, MapX11, MapPopup, ToplevelDestroyed, UnmapX11, Disconnected,
         FirstCommit, BufferCommit, OutputAdded, OutputRemoved, WindowState.Core, StartMove, EndMove, MoveGrabbed, SelectUnder, St;
    if Enabled(s, e) {
      match e
      case Dispatch(a) => InvAct(cfg, s, a);
      case PointerFocus(w) => InvFocusHeld(cfg, s, Some(w));
      case PointerMoved(p) => InvPointer(cfg, s, p);
      case MoveStarted(w, from) => InvStartMove(cfg, s, w, from);
      case MoveLost => InvUngrabbed(cfg, s, None);
      case MoveEnded => InvEndMove(cfg, s);
      case SetLocked(b) => InvLocked(cfg, s, b);
      case SetUrgent(w) => InvFlag(cfg, s, w, St(s.info, w).(isUrgent := true));
      case SetZone(i, zone, exclusive) =>
        if i < |s.monitors| {
          InvZone(cfg, s, i, zone, exclusive);
        }
      case WindowOpened(w) => InvNewToplevel(cfg, s, w);
      case X11Mapped(w, float, width, height) => InvMapX11(cfg, s, w, float, width, height);
      case PopupMapped(w, loc) => InvMapPopup(cfg, s, w, loc);
      case WindowClosed(w) => InvToplevelDestroyed(cfg, s, w);
      case X11Configured(w, at, x, y) => InvConfigure(cfg, s, w, at, x, y);
      case X11Moved(w, loc) => InvRespaced(cfg, s, MapElement(s.space, w, loc));
      case X11Unmapped(w) => InvUnmapX11(cfg, s, w);
      case X11Gone => InvDisconnected(cfg, s);
      case FullscreenRequest(w, on) => InvFlagArranged(cfg, s, w, St(s.info, w).(isFullscreen := on));
      case ParentChanged(w) => InvFlag(cfg, s, w, St(s.info, w).(rulesApplied := false));
      case RulesCommit(w, verdict) => InvFirstCommit(cfg, s, w, verdict);
      case Commit(w, width, height, floatType) => InvBufferCommit(cfg, s, w, width, height, floatType);
      case Plugged(output, rule) => InvOutputAdded(cfg, s, output, rule);
      case Unplugged(output) => InvOutputRemoved(cfg, s, output);
    }
  }

  lemma {:induction false} InvRun(cfg: Config, s: State, events: seq<Event>)
    requires cfg.Sane() && Inv(cfg, s)
    ensures Inv(cfg, Run(cfg, s, events))
  {
    hide Inv, Step;
    if events != [] {
      InvRun(cfg, s, events[..|events| - 1]);
      InvStep(cfg, Run(cfg, s, events[..|events| - 1]), events[|events| - 1]);
    }
  }

  /** Every state reachable from start-up, by any sequence of events, satisfies the invariant. */
  lemma ReachableInv(cfg: Config, events: seq<Event>)
    requires cfg.Sane()
    ensures Inv(cfg, Run(cfg, Initial, events))
  {
    assert Inv(cfg, Initial);
    hide Inv;
    InvRun(cfg, Initial, events);
  }
}
