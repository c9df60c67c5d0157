/** Scratchpads: what hiding and showing one achieves, and where a hidden one is kept over whole runs. */
module Scratchpads {
  import opened Sequences
  import opened Tags
  import opened History
  import opened Monitors
  import opened Windows
  import opened Desktop
  import opened Pointer
  import opened Compositor
  import opened Frames
  import opened Arranging
  import opened Invariant
  import opened Reachability
  import opened Actions
  import opened Strays
  import opened Lifecycle

  // What a toggle achieves.

  lemma HideParts(cfg: Config, s: State, w: Window)
    ensures var a := s.(info := WithTags(s.info, w, {}), focus := Without(s.focus, w));
            HideScratch(cfg, s, w) == ArrangeAll(cfg, Refocus(cfg, a))
  {
    hide ArrangeAll, Refocus;
  }

  lemma BareNotShown(s: State, w: Window)
    requires St(s.info, w).tags == {}
    ensures !Shown(s, w)
  {
  }

  /**
   A hidden scratchpad is on no tag, off the screen and out of the focus stack; no view and no other window
   changes, and the focus goes to the most recent of the windows left.
   */
  lemma HiddenIsAway(cfg: Config, s: State, w: Window)
    requires cfg.Sane() && s.monitors != [] && w in s.windows
    ensures var t := HideScratch(cfg, s, w);
            && St(t.info, w).tags == {} && Absent(t, w) && LocOf(t.space, w) == None
            && t.selMon == s.selMon && t.windows == s.windows && SameTags(s.monitors, t.monitors)
            && SameButUrgent(WithTags(s.info, w, {}), t.info)
            && FocusedWindow(t) == FocusedWindow(s.(focus := Without(s.focus, w)))
  {
    hide ArrangeAll, Refocus, FocusedWindow, SameButUrgent, SameTags, LocOf, Without, ToFront, HideScratch, Shown;
    var a := s.(info := WithTags(s.info, w, {}), focus := Without(s.focus, w));
    HideParts(cfg, s, w);
    RefocusSameView(cfg, a);
    var b := Refocus(cfg, a);
    ArrangeAllSameView(cfg, b);
    SameViewTransitive(a, b, ArrangeAll(cfg, b));
    UrgentDoesNotMatter(a.info, b.info, w, IsX11);
    UrgentDoesNotMatter(a.info, ArrangeAll(cfg, b).info, w, IsX11);
    BareNotShown(b, w);
    assert |b.monitors| == |s.monitors| by { SameCount(a, b); }
    ArrangeAllShowsExactly(cfg, b, w);
    HideTakesOut(cfg, s, w);
    assert FocusedWindow(a) == FocusedWindow(s.(focus := Without(s.focus, w))) by { UnstackedFocus(s, w); }
  }

  /** The tags of a window that is not in the stack do not matter for the focus. */
  lemma UnstackedFocus(s: State, w: Window)
    ensures var rest := Without(s.focus, w);
            FocusedWindow(s.(info := WithTags(s.info, w, {}), focus := rest)) == FocusedWindow(s.(focus := rest))
  {
    hide Without;
    FirstElsewhere(OnMonitor(SelTags(s), s.selMon), s.info, WithTags(s.info, w, {}), Without(s.focus, w));
  }

  lemma {:induction false} FirstElsewhere(q: Query, a: Info, b: Info, ws: seq<Window>)
    requires forall w :: w in ws ==> St(a, w) == St(b, w)
    ensures First(q, a, ws) == First(q, b, ws)
  {
    if ws != [] {
      assert ws[0] in ws;
      assert forall w :: w in ws[1..] ==> w in ws;
      FirstElsewhere(q, a, b, ws[1..]);
    }
  }

  /**
   A scratchpad assigned to the selected monitor is shown on what that monitor shows and focused, and one that
   floats is back exactly where it was; no view and no other window changes.
   */
  lemma ShownIsFocused(cfg: Config, s: State, w: Window)
    requires cfg.Sane() && Inv(cfg, s) && s.monitors != [] && w in s.windows && St(s.info, w).monIdx == s.selMon
    ensures var t := ShowScratch(cfg, s, w);
            && St(t.info, w).tags == SelTags(s) && FocusedWindow(t) == Some(w)
            && t.selMon == s.selMon && t.windows == s.windows && SameTags(s.monitors, t.monitors)
            && SameButUrgent(WithTags(s.info, w, SelTags(s)), t.info)
            && t.focus == ToFront(s.focus, w)
            && forall loc :: Resting(s, w, loc) ==> LocOf(t.space, w) == Some(loc)
  {
    hide FocusWindow, ArrangeAll, FocusedWindow, SameButUrgent, SameTags, ToFront, Inv, Meets, LocOf, MonitorData.Tags;
    SelectedExists(cfg, s);
    MonitorAt(cfg, s, s.selMon);
    TagsMeetThemselves(cfg, s.monitors[s.selMon]);
    var b := s.(info := WithTags(s.info, w, SelTags(s)));
    FocusedAndArranged(cfg, b, w);
    var t := ArrangeAll(cfg, FocusWindow(cfg, b, Some(w)));
    UrgentDoesNotMatter(b.info, t.info, w, IsX11);
    assert ShowScratch(cfg, s, w) == t;
    forall loc | Resting(s, w, loc)
      ensures Resting(b, w, loc)
    {
    }
  }

  /**
   In general a scratchpad stays assigned to its own monitor.  Shown from another, it is focused exactly when
   that monitor gets selected with it, or was, and shows one of the tags it has been given.
   */
  lemma ShownIsFocusedIff(cfg: Config, s: State, w: Window)
    ensures var t := ShowScratch(cfg, s, w);
            && St(t.info, w).tags == InitialTags(s) && St(t.info, w).monIdx == St(s.info, w).monIdx
            && t.selMon == (if s.locked || InFront(s, w) then s.selMon else St(s.info, w).monIdx)
            && |t.monitors| == |s.monitors|
            && (FocusedWindow(t) == Some(w) <==>
                  St(s.info, w).monIdx == t.selMon && Meets(InitialTags(s), SelTags(t)))
  {
    hide FocusWindow, ArrangeAll, FocusedWindow, SameButUrgent, ToFront, Meets, SelTags, InitialTags, SameTags, FramedMonitors;
    var b := s.(info := WithTags(s.info, w, InitialTags(s)));
    FocusWindowFramed(cfg, b, w);
    var c := FocusWindow(cfg, b, Some(w));
    ArrangeAllSameView(cfg, c);
    var t := ArrangeAll(cfg, c);
    SameButUrgentTransitive(b.info, c.info, t.info);
    UrgentDoesNotMatter(b.info, t.info, w, IsX11);
    FocusedFirst(t, w);
    FramedTagsSame(cfg, b.monitors, c.monitors);
    SameLength(b.monitors, c.monitors);
    SameLength(c.monitors, t.monitors);
    assert ShowScratch(cfg, s, w) == t;
  }

  lemma SameLength(ms: seq<MonitorData>, ns: seq<MonitorData>)
    requires SameTags(ms, ns)
    ensures |ns| == |ms|
  {
  }

  /** Toggling a visible scratchpad of the selected monitor away and back brings it back, focused, to where it was. */
  lemma ScratchTogglesBack(cfg: Config, s: State, key: char, w: Window, loc: Point)
    requires cfg.Sane() && Inv(cfg, s) && s.monitors != [] && FindScratch(s, key) == Some(w)
    requires Meets(St(s.info, w).tags, SelTags(s)) && St(s.info, w).monIdx == s.selMon && Resting(s, w, loc)
    ensures var u := ToggleScratch(cfg, ToggleScratch(cfg, s, key), key);
            && FocusedWindow(u) == Some(w) && LocOf(u.space, w) == Some(loc)
            && St(u.info, w).tags == SelTags(s) && u.selMon == s.selMon && u.windows == s.windows
            && SameTags(s.monitors, u.monitors)
  {
    hide HideScratch, ShowScratch, FocusedWindow, SameButUrgent, SameTags, Inv, Meets, LocOf, Resting, SelTags, First;
    var t := HideScratch(cfg, s, w);
    assert w in s.windows by { FoundIsManaged(s, key); }
    assert ToggleScratch(cfg, s, key) == t;
    HiddenIsAway(cfg, s, w);
    InvScratch(cfg, s, w);
    HideRests(cfg, s, w, loc);
    UrgentDoesNotMatter(WithTags(s.info, w, {}), t.info, w, IsX11);
    FoundAgain(s, t, key, w);
    MeetsItself(SelTags(t));
    assert t.monitors != [] by { SameLength(s.monitors, t.monitors); }
    ShownIsFocused(cfg, t, w);
    assert SelTags(t) == SelTags(s) by { SameSelTagsOf(s, t); }
    assert ToggleScratch(cfg, t, key) == ShowScratch(cfg, t, w);
    SameTagsTransitive(s.monitors, t.monitors, ShowScratch(cfg, t, w).monitors);
  }

  lemma FoundIsManaged(s: State, key: char)
    ensures FindScratch(s, key).Some? ==> FindScratch(s, key).value in s.windows
  {
    hide First;
  }

  lemma FoundAgain(s: State, t: State, key: char, w: Window)
    requires t.windows == s.windows && SameButUrgent(WithTags(s.info, w, {}), t.info)
    ensures FindScratch(t, key) == FindScratch(s, key)
  {
    hide SameButUrgent, First;
    var a := WithTags(s.info, w, {});
    FirstQuiet(Keyed(key), a, t.info, s.windows);
    FirstKeyed(key, s.info, w, s.windows);
  }

  lemma {:induction false} FirstKeyed(key: char, info: Info, w: Window, ws: seq<Window>)
    ensures First(Keyed(key), WithTags(info, w, {}), ws) == First(Keyed(key), info, ws)
  {
    if ws != [] {
      FirstKeyed(key, info, w, ws[1..]);
    }
  }

  lemma SameSelTagsOf(s: State, t: State)
    requires SameTags(s.monitors, t.monitors) && t.selMon == s.selMon
    ensures SelTags(t) == SelTags(s)
  {
  }

  lemma SameTagsTransitive(a: seq<MonitorData>, b: seq<MonitorData>, c: seq<MonitorData>)
    requires SameTags(a, b) && SameTags(b, c)
    ensures SameTags(a, c)
  {
  }

  lemma HideRests(cfg: Config, s: State, w: Window, loc: Point)
    requires Resting(s, w, loc)
    ensures Resting(HideScratch(cfg, s, w), w, loc)
  {
    hide ArrangeAll, FocusWindow, FocusedWindow, LocOf, Without, HideScratch;
    var a := s.(info := WithTags(s.info, w, {}), focus := Without(s.focus, w));
    HideParts(cfg, s, w);
    assert Resting(a, w, loc);
    FocusRests(cfg, a, FocusedWindow(a), w, loc);
    ArrangeAllRests(cfg, Refocus(cfg, a), w, loc);
  }

  // Whole runs: a window missing from the stack is on no tag.

  /** The windows outside the stack keep their tags, except perhaps one. */
  ghost predicate TagsBut(s: State, t: State, x: Option<Window>) {
    forall w {:trigger St(t.info, w)} :: w !in s.focus && x != Some(w) ==> St(t.info, w).tags == St(s.info, w).tags
  }

  lemma TagsFramed(cfg: Config)
    ensures forall s: State, w: Window {:trigger St(ArrangeAll(cfg, s).info, w)} ::
      St(ArrangeAll(cfg, s).info, w).tags == St(s.info, w).tags
    ensures forall s: State, v, w: Window {:trigger St(FocusWindow(cfg, s, v).info, w)} ::
      St(FocusWindow(cfg, s, v).info, w).tags == St(s.info, w).tags
    ensures forall s: State, mon, prev, w: Window {:trigger St(ArrangeBoth(cfg, s, mon, prev).info, w)} ::
      St(ArrangeBoth(cfg, s, mon, prev).info, w).tags == St(s.info, w).tags
  {
    hide ArrangeAll, FocusWindow, ArrangeBoth, FramedMonitors, SameCore, SameButUrgent, ToFront, St;
    forall s: State, w: Window
      ensures St(ArrangeAll(cfg, s).info, w).tags == St(s.info, w).tags
    {
      ArrangeAllFramed(cfg, s);
      CoreKeepsRest(s.info, ArrangeAll(cfg, s).info, w);
      UrgentDoesNotMatter(s.info, ArrangeAll(cfg, s).info, w, IsX11);
    }
    forall s: State, v, w: Window
      ensures St(FocusWindow(cfg, s, v).info, w).tags == St(s.info, w).tags
    {
      if v.Some? {
        FocusWindowFramed(cfg, s, v.value);
        UrgentDoesNotMatter(s.info, FocusWindow(cfg, s, v).info, w, IsX11);
      } else {
        NoFocus(cfg, s);
      }
    }
    forall s: State, mon, prev, w: Window
      ensures St(ArrangeBoth(cfg, s, mon, prev).info, w).tags == St(s.info, w).tags
    {
      ArrangeBothFramed(cfg, s, mon, prev);
      CoreKeepsRest(s.info, ArrangeBoth(cfg, s, mon, prev).info, w);
      UrgentDoesNotMatter(s.info, ArrangeBoth(cfg, s, mon, prev).info, w, IsX11);
    }
  }

  lemma ViewsKeepTags(cfg: Config, s: State, mask: Mask)
    ensures TagsBut(s, View(cfg, s, mask), None) && TagsBut(s, ViewPrev(cfg, s), None) && TagsBut(s, ToggleView(cfg, s, mask), None)
  {
    hide ArrangeAll, FocusWindow, FocusedWindow, Update, Xor, TagMask, MonitorData.Tags, St,
         MonitorData.View, MonitorData.ViewPrev, MonitorData.ToggleView;
    TagsFramed(cfg);
  }

  lemma TagsKeepTags(cfg: Config, s: State, mask: Mask)
    ensures TagsBut(s, Tag(cfg, s, mask), None) && TagsBut(s, ToggleTag(cfg, s, mask), None)
  {
    hide ArrangeAll, FocusWindow, FocusedWindow, Update, Xor, TagMask, MonitorData.Tags, MonitorData.View;
    TagsFramed(cfg);
    TopsInLists(cfg);
  }

  lemma MovesKeepTags(cfg: Config, s: State, dir: int)
    ensures TagsBut(s, FocusStackStep(cfg, s, dir), None) && TagsBut(s, FocusMon(cfg, s, dir), None)
    ensures TagsBut(s, TagMon(cfg, s, dir), None) && TagsBut(s, FocusUrgent(cfg, s), None)
  {
    hide ArrangeAll, FocusWindow, FocusedWindow, Select, Find, First, DirToMonitor, MonitorData.Tags, MonitorData.View;
    TagsFramed(cfg);
    TopsInLists(cfg);
  }

  lemma ZoomKeepsTags(cfg: Config, s: State)
    ensures TagsBut(s, Zoom(cfg, s), None)
  {
    hide ArrangeAll, FocusWindow, ZoomTarget, ToFront, St;
    TagsFramed(cfg);
  }

  lemma ScratchKeepsTags(cfg: Config, s: State, w: Window)
    ensures TagsBut(s, HideScratch(cfg, s, w), Some(w)) && TagsBut(s, ShowScratch(cfg, s, w), Some(w))
    ensures St(HideScratch(cfg, s, w).info, w).tags == {}
  {
    hide ArrangeAll, FocusWindow, FocusedWindow, InitialTags;
    TagsFramed(cfg);
  }

  lemma TuningKeepsTags(cfg: Config, s: State, a: Action)
    requires cfg.Sane() && Tunes(a)
    ensures TagsBut(s, Act(cfg, s, a), None)
  {
    hide ArrangeAll, FocusedWindow, MonitorData.SetLayout, Clamp;
    TagsFramed(cfg);
  }

  lemma ActKeepsTags(cfg: Config, s: State, a: Action)
    requires cfg.Sane() && !TogglesScratch(a)
    ensures TagsBut(s, Act(cfg, s, a), None)
  {
    if Tunes(a) {
      TuningKeepsTags(cfg, s, a);
      return;
    }
    hide View, ViewPrev, ToggleView, Tag, ToggleTag, FocusStackStep, Zoom, FocusMon, TagMon, FocusUrgent, NextOccTag, SetLayout,
         CycleLayout, IncNmaster, SetMfact, ToggleFloating, ToggleFullscreen, ToggleScratch, FocusOrToggleScratch, ToggleMatching,
         TagsBut;
    match a {
      case FocusStackA(dir) => MovesKeepTags(cfg, s, dir);
      case ZoomA => ZoomKeepsTags(cfg, s);
      case ViewA(mask) => ViewsKeepTags(cfg, s, mask);
      case ViewPrevA => ViewsKeepTags(cfg, s, {});
      case ViewNextOccTagA(dir) =>
        if NextOccTag(cfg, s, dir).Some? {
          ViewsKeepTags(cfg, s, NextOccTag(cfg, s, dir).value);
        } else {
          SameTagsBut(s);
        }
      case ToggleViewA(mask) => ViewsKeepTags(cfg, s, mask);
      case TagA(mask) => TagsKeepTags(cfg, s, mask);
      case ToggleTagA(mask) => TagsKeepTags(cfg, s, mask);
      case FocusMonA(dir) => MovesKeepTags(cfg, s, dir);
      case TagMonA(dir) => MovesKeepTags(cfg, s, dir);
      case FocusUrgentA => MovesKeepTags(cfg, s, 0);
    }
  }

  lemma SameTagsBut(s: State)
    ensures forall x :: TagsBut(s, s, x)
  {
  }

  lemma ToplevelKeepsTags(cfg: Config, s: State, w: Window, at: Point)
    ensures TagsBut(s, NewToplevel(cfg, s, w), Some(w)) && TagsBut(s, MapPopup(s, w, at), Some(w))
  {
    hide ArrangeBoth, ToFront, MapElement, InitialTags, BaseLoc;
    TagsFramed(cfg);
  }

  lemma X11KeepsTags(cfg: Config, s: State, w: Window, float: bool, width: int, height: int)
    ensures TagsBut(s, MapX11(cfg, s, w, float, width, height), Some(w))
  {
    hide ArrangeAll, FocusWindow, MapElement, MonitorData.Centre, InitialTags, BaseLoc;
    TagsFramed(cfg);
  }

  lemma ClosingKeepsTags(cfg: Config, s: State, w: Window)
    ensures TagsBut(s, ToplevelDestroyed(cfg, s, w), None) && TagsBut(s, UnmapX11(cfg, s, w), None)
    ensures TagsBut(s, Disconnected(cfg, s), None)
  {
    hide ArrangeAll, FocusWindow, FocusedWindow, TileMasterWindow, Without, UnmapElem, UnmapAll, Select, St;
    TagsFramed(cfg);
    assert TagsBut(s, s, None);
  }

  lemma RulesTouchOne(cfg: Config, s: State, w: Window, verdict: Verdict)
    ensures TagsBut(s, FirstCommit(cfg, s, w, verdict), Some(w))
    ensures St(FirstCommit(cfg, s, w, verdict).info, w).tags
            == St(ApplyRules(cfg, s.(info := s.info[w := St(s.info, w).(rulesApplied := true)]), w, verdict).info, w).tags
  {
    hide ArrangeAll, FocusWindow, FocusedWindow, ApplyRules;
    TagsFramed(cfg);
    var a := s.(info := s.info[w := St(s.info, w).(rulesApplied := true)]);
    RulesOnlyCell(cfg, a, w, verdict);
  }

  lemma RulesOnlyCell(cfg: Config, s: State, w: Window, verdict: Verdict)
    ensures forall v :: v != w ==> St(ApplyRules(cfg, s, w, verdict).info, v) == St(s.info, v)
  {
    hide FoldRules, TargetMonitor, InitialTags, Update, MonitorData.View, MonitorData.Tags;
  }

  lemma CellKeepsTags(info: Info, w: Window, st: WindowState, v: Window)
    requires st.tags == St(info, w).tags
    ensures St(info[w := st], v).tags == St(info, v).tags
  {
  }

  lemma CentreKeepsTags(s: State, w: Window, width: int, height: int, v: Window)
    ensures St(CentreWindow(s, w, width, height).info, v).tags == St(s.info, v).tags
  {
    hide *;
    var st := St(s.info, w);
    if st.monIdx < |s.monitors| {
      CentreWindowCases(s, w, width, height);
      var loc := s.monitors[st.monIdx].Centre(width, height);
      CellKeepsTags(s.info, w, st.(needsCentering := false), v);
      CellKeepsTags(s.info, w, st.(needsCentering := false, savedLoc := Some(loc)), v);
    } else {
      CentreNowhere(s, w, width, height);
    }
  }

  lemma MappedKeepsTags(cfg: Config, s: State, w: Window, floatType: bool, v: Window)
    ensures St(Mapped(cfg, s, w, floatType).info, v).tags == St(s.info, v).tags
  {
    hide ArrangeAll, St;
    var st := St(s.info, w);
    CellKeepsTags(s.info, w, st.(bufferMapped := true), v);
    var floating := st.(bufferMapped := true, isFloating := true, needsCentering := true);
    CellKeepsTags(s.info, w, floating, v);
    var a := s.(info := s.info[w := floating]);
    ArrangeAllFramed(cfg, a);
    hide Framed, FramedMonitors;
    CoreKeepsRest(a.info, ArrangeAll(cfg, a).info, v);
    UrgentDoesNotMatter(a.info, ArrangeAll(cfg, a).info, v, IsX11);
  }

  lemma BufferKeepsTags(cfg: Config, s: State, w: Window, width: int, height: int, floatType: bool)
    ensures TagsBut(s, BufferCommit(cfg, s, w, width, height, floatType), None)
  {
    if width > 0 && height > 0 {
      hide CentreWindow, Mapped, BufferCommit, St;
      BufferIsMappedThenCentred(cfg, s, w, width, height, floatType);
      forall v
        ensures St(BufferCommit(cfg, s, w, width, height, floatType).info, v).tags == St(s.info, v).tags
      {
        MappedKeepsTags(cfg, s, w, floatType, v);
        CentreKeepsTags(Mapped(cfg, s, w, floatType), w, width, height, v);
      }
    }
  }

  lemma UnplugKeepsBare(cfg: Config, s: State, output: Output, w: Window)
    requires Inv(cfg, s) && St(s.info, w).tags == {}
    ensures St(OutputRemoved(cfg, s, output).info, w).tags == {}
  {
    hide ArrangeAll, UnplugMonitor, MonitorFor, Inv, St, TargetTags, MigrationTarget;
    TagsFramed(cfg);
    var idx := MonitorFor(s.monitors, output);
    if idx.Some? {
      assert NoDup(s.windows) by { Strays.InvParts(cfg, s); }
      if w in s.windows {
        UnpluggedCell(s, idx.value, w);
        MigratedTags(St(s.info, w), idx.value, MigrationTarget(s, idx.value), TargetTags(s, idx.value));
      } else {
        UnpluggedOther(s, idx.value, w);
      }
    }
  }

  /** The window whose tags an event may write though it is not in the stack. */
  function Retagged(e: Event): Option<Window> {
    match e
    case WindowOpened(w) => Some(w)
    case X11Mapped(w, _, _, _) => Some(w)
    case PopupMapped(w, _) => Some(w)
    case RulesCommit(w, _) => Some(w)
    case _ => None
  }

  predicate Toggles(e: Event) {
    e.Dispatch? && TogglesScratch(e.action)
  }

  lemma QuietKeepsTags(cfg: Config, s: State, e: Event)
    requires cfg.Sane() && !Toggles(e) && !e.Unplugged? && !e.WindowOpened? && !e.X11Mapped? && !e.PopupMapped? && !e.RulesCommit?
    requires !e.Dispatch? && !e.WindowClosed? && !e.X11Unmapped? && !e.X11Gone? && !e.Commit?
    ensures TagsBut(s, Step(cfg, s, e), None)
  {
    hide ArrangeAll, FocusWindow, MapElement, AreaAt, ConfiguredLoc, DraggedTo, Fresh, MonitorData.Restore, LocOf;
    TagsFramed(cfg);
  }

  lemma ClientKeepsTags(cfg: Config, s: State, e: Event)
    requires cfg.Sane()
    requires e.WindowOpened? || e.X11Mapped? || e.PopupMapped? || e.RulesCommit? || e.WindowClosed? || e.X11Unmapped? || e.X11Gone? || e.Commit?
    ensures TagsBut(s, Step(cfg, s, e), Retagged(e))
  {
    hide NewToplevel, MapX11, MapPopup, ToplevelDestroyed, UnmapX11, Disconnected, FirstCommit, BufferCommit, St, TagsBut;
    SameTagsBut(s);
    if Enabled(s, e) {
      match e {
        case WindowOpened(w) => ToplevelKeepsTags(cfg, s, w, Point(0, 0));
        case X11Mapped(w, float, width, height) => X11KeepsTags(cfg, s, w, float, width, height);
        case PopupMapped(w, loc) => ToplevelKeepsTags(cfg, s, w, loc);
        case WindowClosed(w) => ClosingKeepsTags(cfg, s, w);
        case X11Unmapped(w) => ClosingKeepsTags(cfg, s, w);
        case X11Gone => ClosingKeepsTags(cfg, s, 0);
        case RulesCommit(w, verdict) => RulesTouchOne(cfg, s, w, verdict);
        case Commit(w, width, height, floatType) => BufferKeepsTags(cfg, s, w, width, height, floatType);
      }
    }
  }

  lemma StepKeepsTags(cfg: Config, s: State, e: Event)
    requires cfg.Sane() && !Toggles(e) && !e.Unplugged?
    ensures TagsBut(s, Step(cfg, s, e), Retagged(e))
  {
    if e.Dispatch? {
      DispatchStep(cfg, s, e);
      ActKeepsTags(cfg, s, e.action);
    } else if e.WindowOpened? || e.X11Mapped? || e.PopupMapped? || e.RulesCommit? || e.WindowClosed? || e.X11Unmapped? || e.X11Gone? || e.Commit? {
      ClientKeepsTags(cfg, s, e);
    } else {
      QuietKeepsTags(cfg, s, e);
    }
  }

  /** Every managed window with tags is in the focus stack: one that is missing is on no tag. */
  ghost predicate OnNoTag(s: State) {
    forall w :: Absent(s, w) ==> St(s.info, w).tags == {}
  }

  /** Rules that give tags to a window missing from the stack, as they may after its parent has changed. */
  predicate Resurfaces(cfg: Config, s: State, e: Event) {
    && e.RulesCommit? && Enabled(s, e) && Absent(s, e.w)
    && St(ApplyRules(cfg, s.(info := s.info[e.w := St(s.info, e.w).(rulesApplied := true)]), e.w, e.verdict).info, e.w).tags != {}
  }

  lemma ToggleKeepsBare(cfg: Config, s: State, e: Event, w: Window)
    requires cfg.Sane() && Inv(cfg, s) && Toggles(e) && OnNoTag(s) && Absent(Step(cfg, s, e), w)
    ensures St(Step(cfg, s, e).info, w).tags == {}
  {
    hide Inv, HideScratch, ShowScratch, HiddenBy, Act, InFront, Step;
    DispatchStep(cfg, s, e);
    StepAbsent(cfg, s, e, w);
    TogglesAre(cfg, s, e.action);
    var t := Act(cfg, s, e.action);
    var h := HiddenBy(s, e);
    assert h == HiddenBy(s, Dispatch(e.action));
    if h.Some? {
      ScratchKeepsTags(cfg, s, h.value);
    } else if t != s {
      var x :| x in s.windows && t == ShowScratch(cfg, s, x);
      ScratchKeepsTags(cfg, s, x);
      ShownInFront(cfg, s, x);
      assert w != x;
    }
  }

  lemma ShownInFront(cfg: Config, s: State, w: Window)
    ensures InFront(ShowScratch(cfg, s, w), w)
  {
    hide ArrangeAll, FocusWindow, ToFront, InitialTags, WithTags;
    ArrangeAllLists(cfg);
    FocusLists(cfg);
  }

  /** After any event but such a `Resurfaces`, a window missing from the stack is on no tag if that was so before. */
  lemma StaysBare(cfg: Config, s: State, e: Event, w: Window)
    requires cfg.Sane() && Inv(cfg, s) && OnNoTag(s) && !Resurfaces(cfg, s, e) && Absent(Step(cfg, s, e), w)
    ensures St(Step(cfg, s, e).info, w).tags == {}
  {
    if Toggles(e) {
      ToggleKeepsBare(cfg, s, e, w);
      return;
    }
    hide Inv, Step, InFront;
    StepAbsent(cfg, s, e, w);
    assert HiddenBy(s, e) == None;
    assert Absent(s, w);
    if e.Unplugged? {
      UnplugStep(cfg, s, e);
      UnplugKeepsBare(cfg, s, e.output, w);
    } else {
      StepKeepsTags(cfg, s, e);
      if Retagged(e) == Some(w) {
        RetaggedStep(cfg, s, e, w);
      }
    }
  }

  lemma UnplugStep(cfg: Config, s: State, e: Event)
    requires cfg.Sane() && e.Unplugged?
    ensures Step(cfg, s, e) == OutputRemoved(cfg, s, e.output)
  {
    hide OutputRemoved;
  }

  /** Only a commit of rules can retag a window that is managed already. */
  lemma RetaggedStep(cfg: Config, s: State, e: Event, w: Window)
    requires cfg.Sane() && Retagged(e) == Some(w) && w in s.windows
    ensures Enabled(s, e) ==> e.RulesCommit? && Step(cfg, s, e) == FirstCommit(cfg, s, w, e.verdict)
    ensures !Enabled(s, e) ==> Step(cfg, s, e) == s
    ensures e.RulesCommit? ==>
      var a := s.(info := s.info[w := St(s.info, w).(rulesApplied := true)]);
      St(FirstCommit(cfg, s, w, e.verdict).info, w).tags == St(ApplyRules(cfg, a, w, e.verdict).info, w).tags
  {
    hide NewToplevel, MapX11, MapPopup, FirstCommit, ApplyRules;
    if e.RulesCommit? {
      RulesTouchOne(cfg, s, w, e.verdict);
    }
  }

  /** Exactly which events put an end to that: rules that give tags to a window missing from the stack. */
  lemma OnNoTagIff(cfg: Config, s: State, e: Event)
    requires cfg.Sane() && Inv(cfg, s) && OnNoTag(s)
    ensures OnNoTag(Step(cfg, s, e)) <==> !Resurfaces(cfg, s, e)
  {
    hide Inv, Step, Resurfaces;
    if Resurfaces(cfg, s, e) {
      ResurfacedIsAbsent(cfg, s, e);
    } else {
      forall w | Absent(Step(cfg, s, e), w)
        ensures St(Step(cfg, s, e).info, w).tags == {}
      {
        StaysBare(cfg, s, e, w);
      }
    }
  }

  lemma ResurfacedIsAbsent(cfg: Config, s: State, e: Event)
    requires cfg.Sane() && Resurfaces(cfg, s, e)
    ensures var t := Step(cfg, s, e); Absent(t, e.w) && St(t.info, e.w).tags != {}
  {
    hide ApplyRules, FirstCommit, ArrangeAll, FocusWindow, FocusedWindow, ToFront, Step;
    RetaggedStep(cfg, s, e, e.w);
    CommitStack(cfg, s, e.w, e.verdict);
  }

  lemma CommitStack(cfg: Config, s: State, w: Window, verdict: Verdict)
    ensures var t := FirstCommit(cfg, s, w, verdict);
            t.windows == s.windows && forall v :: v in t.focus <==> v in s.focus
  {
    hide ArrangeAll, FocusWindow, FocusedWindow, ToFront, ApplyRules;
    ArrangeAllLists(cfg);
    FocusLists(cfg);
    TopsInLists(cfg);
    RulesKeepLists(cfg, s.(info := s.info[w := St(s.info, w).(rulesApplied := true)]), w, verdict);
  }

  ghost predicate NoneResurfaces(cfg: Config, events: seq<Event>)
    requires cfg.Sane()
  {
    forall k :: 0 <= k < |events| ==> !Resurfaces(cfg, Run(cfg, Initial, events[..k]), events[k])
  }

  /**
   In every state reachable without that, every managed window with tags is exactly once in the focus stack, and
   one that is missing from it is a hidden one, on no tag.
   */
  lemma {:induction false} ReachableOnNoTag(cfg: Config, events: seq<Event>)
    requires cfg.Sane() && NoneResurfaces(cfg, events)
    ensures var s := Run(cfg, Initial, events);
            && OnNoTag(s)
            && forall w :: w in s.windows && St(s.info, w).tags != {} ==> multiset(s.focus)[w] == 1
  {
    hide Inv, Step, Resurfaces;
    if events != [] {
      var n := |events| - 1;
      var init := events[..n];
      forall k | 0 <= k < n
        ensures !Resurfaces(cfg, Run(cfg, Initial, init[..k]), init[k])
      {
        assert init[..k] == events[..k];
      }
      ReachableOnNoTag(cfg, init);
      ReachableInv(cfg, init);
      OnNoTagIff(cfg, Run(cfg, Initial, init), events[n]);
    }
    ReachableInv(cfg, events);
    var s := Run(cfg, Initial, events);
    Strays.InvParts(cfg, s);
    forall w | w in s.windows && St(s.info, w).tags != {}
      ensures multiset(s.focus)[w] == 1
    {
      assert !Absent(s, w);
      CountOne(s.focus, w);
    }
  }
}
