/**
 What the focus stack holds over whole runs: the managed windows, less the scratchpads that are hidden, and,
 once the pointer has focused an override-redirect window, strays.
 */
module Strays {
  import opened Sequences
  import opened Tags
  import opened History
  import opened Monitors
  import opened Windows
  import opened Desktop
  import opened Pointer
  import opened Compositor
  import opened Frames
  import opened Invariant
  import opened Reachability
  import opened Actions

  /** In the focus stack though not managed. */
  predicate Strayed(s: State, w: Window) {
    w in s.focus && w !in s.windows
  }

  /** Managed though not in the focus stack. */
  predicate Absent(s: State, w: Window) {
    w in s.windows && w !in s.focus
  }

  /** The focus stack is a permutation of the managed windows. */
  ghost predicate Permuted(s: State) {
    forall w :: !Strayed(s, w) && !Absent(s, w)
  }

  ghost predicate SameStrays(s: State, t: State) {
    forall w :: w in t.focus && w !in t.windows <==> w in s.focus && w !in s.windows
  }

  predicate InFront(s: State, w: Window) {
    s.focus != [] && s.focus[0] == w
  }

  /** Of the windows that are managed in `t`, those absent are the ones absent before and not brought to the front. */
  ghost predicate SameAbsent(s: State, t: State) {
    forall w :: w in t.windows ==> (w !in t.focus <==> w in s.windows && w !in s.focus && !InFront(t, w))
  }

  ghost predicate SameStack(s: State, t: State) {
    SameStrays(s, t) && SameAbsent(s, t)
  }

  /** Without duplicates the two lists are equal up to order exactly when neither holds a window the other lacks. */
  lemma PermutedIsPermutation(cfg: Config, s: State)
    requires Inv(cfg, s)
    ensures Permuted(s) <==> multiset(s.focus) == multiset(s.windows)
  {
    hide MonitorsOk, CellsOk, StraysOk, NoDup;
    InvParts(cfg, s);
    forall w
      ensures multiset(s.focus)[w] == if w in s.focus then 1 else 0
      ensures multiset(s.windows)[w] == if w in s.windows then 1 else 0
    {
      CountOne(s.focus, w);
      CountOne(s.windows, w);
    }
    if Permuted(s) {
      forall w
        ensures multiset(s.focus)[w] == multiset(s.windows)[w]
      {
        assert !Strayed(s, w) && !Absent(s, w);
      }
    } else {
      var w :| Strayed(s, w) || Absent(s, w);
      assert multiset(s.focus)[w] != multiset(s.windows)[w];
    }
  }

  lemma {:induction false} CountOne(ws: seq<Window>, w: Window)
    requires NoDup(ws)
    ensures multiset(ws)[w] == if w in ws then 1 else 0
  {
    if ws != [] {
      var n := |ws| - 1;
      CountOne(ws[..n], w);
      assert ws == ws[..n] + [ws[n]];
      NotBefore(ws, n);
    }
  }

  lemma InvParts(cfg: Config, s: State)
    requires Inv(cfg, s)
    ensures NoDup(s.windows) && NoDup(s.focus)
  {
  }

  // Events and strays.

  /** Focusing makes a stray of a window exactly when it is not managed. */
  lemma FocusStrays(cfg: Config, s: State, w: Window)
    ensures var t := FocusWindow(cfg, s, Some(w));
            && t.windows == s.windows && t.popups == s.popups
            && forall v :: Strayed(t, v) <==> Strayed(s, v) || (v == w && w !in s.windows)
  {
    hide FocusWindow, FramedMonitors, SameButUrgent, ToFront;
    FocusWindowFramed(cfg, s, w);
  }

  /** A permutation survives a focus exactly when the window is managed. */
  lemma FocusKeepsPermutation(cfg: Config, s: State, w: Window)
    requires Permuted(s)
    ensures Permuted(FocusWindow(cfg, s, Some(w))) <==> w in s.windows
  {
    hide FocusWindow, Strayed, Absent, FramedMonitors, SameButUrgent, ToFront;
    FocusStrays(cfg, s, w);
    var t := FocusWindow(cfg, s, Some(w));
    assert Strayed(t, w) <==> w !in s.windows by { assert !Strayed(s, w); }
    forall v
      ensures !Absent(t, v)
    {
      FocusWindowFramed(cfg, s, w);
      assert !Absent(s, v);
      FrontStays(s, t, w, v);
    }
  }

  lemma FrontStays(s: State, t: State, w: Window, v: Window)
    requires t.windows == s.windows && t.focus == ToFront(s.focus, w)
    ensures Absent(t, v) <==> Absent(s, v) && v != w
  {
    hide ToFront;
  }

  lemma ArrangeAllLists(cfg: Config)
    ensures forall s {:trigger ArrangeAll(cfg, s)} ::
      ArrangeAll(cfg, s).windows == s.windows && ArrangeAll(cfg, s).focus == s.focus && ArrangeAll(cfg, s).popups == s.popups
  {
    hide ArrangeAll, FramedMonitors, SameCore;
    forall s
      ensures ArrangeAll(cfg, s).windows == s.windows && ArrangeAll(cfg, s).focus == s.focus && ArrangeAll(cfg, s).popups == s.popups
    {
      ArrangeAllFramed(cfg, s);
    }
  }

  lemma FocusLists(cfg: Config)
    ensures forall s, w {:trigger FocusWindow(cfg, s, w)} ::
      && FocusWindow(cfg, s, w).windows == s.windows && FocusWindow(cfg, s, w).popups == s.popups
      && FocusWindow(cfg, s, w).focus == if w.None? then s.focus else ToFront(s.focus, w.value)
  {
    hide FocusWindow, FramedMonitors, SameButUrgent, ToFront;
    forall s, w
      ensures
        && FocusWindow(cfg, s, w).windows == s.windows && FocusWindow(cfg, s, w).popups == s.popups
        && FocusWindow(cfg, s, w).focus == if w.None? then s.focus else ToFront(s.focus, w.value)
    {
      if w.Some? {
        FocusWindowFramed(cfg, s, w.value);
      } else {
        NoFocus(cfg, s);
      }
    }
  }

  lemma TopsInLists(cfg: Config)
    ensures forall s {:trigger FocusedWindow(s)} :: FocusedWindow(s).Some? ==> FocusedWindow(s).value in s.focus
    ensures forall s {:trigger TileMasterWindow(cfg, s)} :: TileMasterWindow(cfg, s).Some? ==> TileMasterWindow(cfg, s).value in s.windows
  {
    hide FocusedWindow, TileMasterWindow;
    forall s
      ensures FocusedWindow(s).Some? ==> FocusedWindow(s).value in s.focus
      ensures TileMasterWindow(cfg, s).Some? ==> TileMasterWindow(cfg, s).value in s.windows
    {
      TopVisible(cfg, s);
    }
  }

  /** At most one window has come to the front, and it was managed or in the stack already. */
  ghost predicate Brought(s: State, t: State) {
    && t.windows == s.windows && t.popups == s.popups
    && (t.focus == s.focus
        || exists x {:trigger ToFront(s.focus, x)} :: (x in s.windows || x in s.focus) && t.focus == ToFront(s.focus, x))
  }

  lemma BroughtStack(s: State, t: State)
    requires Brought(s, t)
    ensures SameStack(s, t)
  {
    hide ToFront;
  }

  lemma ViewBrings(cfg: Config, s: State, mask: Mask)
    ensures Brought(s, View(cfg, s, mask))
  {
    hide ArrangeAll, FocusWindow, ToFront, FocusedWindow, Update, MonitorData.Tags, MonitorData.View;
    ArrangeAllLists(cfg);
    FocusLists(cfg);
    TopsInLists(cfg);
  }

  lemma OtherViewsBring(cfg: Config, s: State, mask: Mask)
    ensures Brought(s, ViewPrev(cfg, s)) && Brought(s, ToggleView(cfg, s, mask))
  {
    hide ArrangeAll, FocusWindow, ToFront, FocusedWindow, Update, Xor, TagMask, MonitorData.Tags,
         MonitorData.ViewPrev, MonitorData.ToggleView;
    ArrangeAllLists(cfg);
    FocusLists(cfg);
    TopsInLists(cfg);
  }

  lemma TagsBring(cfg: Config, s: State, mask: Mask)
    ensures Brought(s, Tag(cfg, s, mask)) && Brought(s, ToggleTag(cfg, s, mask))
  {
    hide ArrangeAll, FocusWindow, ToFront, FocusedWindow, Update, Xor, TagMask, MonitorData.Tags, MonitorData.View, WithTags;
    ArrangeAllLists(cfg);
    FocusLists(cfg);
    TopsInLists(cfg);
  }

  lemma StepsBring(cfg: Config, s: State, dir: int)
    ensures Brought(s, FocusStackStep(cfg, s, dir)) && Brought(s, FocusMon(cfg, s, dir))
  {
    hide ArrangeAll, FocusWindow, ToFront, FocusedWindow, Select, Find, First, DirToMonitor, MonitorData.Tags;
    ArrangeAllLists(cfg);
    FocusLists(cfg);
    TopsInLists(cfg);
    var eligible := Select(Steppable(SelTags(s), s.selMon), s.info, s.windows);
    assert forall k :: 0 <= k < |eligible| ==> eligible[k] in eligible;
  }

  lemma MovesBring(cfg: Config, s: State, dir: int)
    ensures Brought(s, TagMon(cfg, s, dir)) && Brought(s, FocusUrgent(cfg, s))
  {
    hide ArrangeAll, FocusWindow, ToFront, FocusedWindow, First, DirToMonitor, MonitorData.Tags, MonitorData.View;
    ArrangeAllLists(cfg);
    FocusLists(cfg);
    TopsInLists(cfg);
  }

  lemma ZoomKeepsStack(cfg: Config, s: State)
    requires Inv(cfg, s)
    ensures SameStack(s, Zoom(cfg, s))
  {
    hide ArrangeAll, FocusWindow, ZoomTarget, ToFront, Inv;
    ArrangeAllLists(cfg);
    FocusLists(cfg);
    ZoomTargetManaged(cfg, s);
  }

  /** Which window an event hides: out of the stack, on no tag. */
  function HiddenBy(s: State, e: Event): Option<Window> {
    if !e.Dispatch? then None
    else
      match e.action
      case ToggleScratchA(key) =>
        var w := FindScratch(s, key);
        if w.Some? && Meets(St(s.info, w.value).tags, SelTags(s)) then w else None
      case FocusOrToggleScratchA(key) =>
        var w := FindScratch(s, key);
        if w.Some? && FocusedWindow(s) == w then w else None
      case ToggleMatchingA(w) =>
        if w.Some? && w.value in s.windows && Meets(St(s.info, w.value).tags, SelTags(s)) then w else None
      case _ => None
  }

  lemma ShowBrings(cfg: Config, s: State, w: Window)
    requires w in s.windows
    ensures Brought(s, ShowScratch(cfg, s, w))
  {
    hide ArrangeAll, FocusWindow, ToFront, InitialTags, WithTags;
    ArrangeAllLists(cfg);
    FocusLists(cfg);
  }

  /** Hiding takes the window out of the stack; of the others at most the focused one comes to the front. */
  lemma HideTakesOut(cfg: Config, s: State, w: Window)
    ensures var t := HideScratch(cfg, s, w);
            && t.windows == s.windows && t.popups == s.popups
            && (forall v :: v in t.focus <==> v in s.focus && v != w)
            && (t.focus == [] || t.focus[0] in s.focus)
  {
    hide ArrangeAll, FocusWindow, ToFront, FocusedWindow, WithTags, Without;
    ArrangeAllLists(cfg);
    FocusLists(cfg);
    TopsInLists(cfg);
    var a := s.(info := WithTags(s.info, w, {}), focus := Without(s.focus, w));
    assert a.focus != [] ==> a.focus[0] in a.focus;
    assert HideScratch(cfg, s, w).focus == Refocus(cfg, a).focus;
  }

  /** What the toggles do: hide, show, or nothing. */
  lemma TogglesAre(cfg: Config, s: State, a: Action)
    requires cfg.Sane() && TogglesScratch(a)
    ensures var t := Act(cfg, s, a);
            var h := HiddenBy(s, Dispatch(a));
            if h.Some? then h.value in s.windows && t == HideScratch(cfg, s, h.value)
            else t == s || exists w {:trigger ShowScratch(cfg, s, w)} :: w in s.windows && t == ShowScratch(cfg, s, w)
  {
    hide HideScratch, ShowScratch, First, FocusedWindow, Meets, SelTags;
  }

  /** What an event does to the stack: hides one window, or brings at most one to the front. */
  ghost predicate StackStep(s: State, e: Event, t: State) {
    && SameStrays(s, t)
    && forall w :: w in t.windows ==>
         (w !in t.focus <==> HiddenBy(s, e) == Some(w) || (w in s.windows && w !in s.focus && !InFront(t, w)))
  }

  lemma TogglesStep(cfg: Config, s: State, a: Action)
    requires cfg.Sane() && TogglesScratch(a)
    ensures StackStep(s, Dispatch(a), Act(cfg, s, a))
  {
    hide Act, HideScratch, ShowScratch, ToFront, HiddenBy;
    TogglesAre(cfg, s, a);
    var t := Act(cfg, s, a);
    var h := HiddenBy(s, Dispatch(a));
    if h.Some? {
      HideTakesOut(cfg, s, h.value);
    } else if t != s {
      var w :| w in s.windows && t == ShowScratch(cfg, s, w);
      ShowBrings(cfg, s, w);
      BroughtStack(s, t);
    } else {
      BroughtStack(s, t);
    }
  }

  lemma ActStep(cfg: Config, s: State, a: Action)
    requires cfg.Sane() && Inv(cfg, s)
    ensures StackStep(s, Dispatch(a), Act(cfg, s, a))
  {
    if TogglesScratch(a) {
      TogglesStep(cfg, s, a);
      return;
    }
    hide Inv, SameStrays, InFront;
    var t := Act(cfg, s, a);
    if a.ZoomA? {
      ZoomKeepsStack(cfg, s);
      assert t == Zoom(cfg, s);
    } else {
      ActBrings(cfg, s, a);
      BroughtStack(s, t);
    }
    assert HiddenBy(s, Dispatch(a)) == None;
    hide Act, HiddenBy;
  }

  lemma ActBrings(cfg: Config, s: State, a: Action)
    requires cfg.Sane() && !TogglesScratch(a) && !a.ZoomA?
    ensures Brought(s, Act(cfg, s, a))
  {
    hide ArrangeAll, FocusedWindow, FocusStackStep, View, ViewPrev, ToggleView, Tag, ToggleTag, FocusMon, TagMon,
         FocusUrgent, NextOccTag, MonitorData.SetLayout, Clamp, ToFront, St;
    ArrangeAllLists(cfg);
    match a {
      case FocusStackA(dir) => StepsBring(cfg, s, dir);
      case ViewA(mask) => ViewBrings(cfg, s, mask);
      case ViewPrevA => OtherViewsBring(cfg, s, {});
      case ViewNextOccTagA(dir) =>
        if NextOccTag(cfg, s, dir).Some? {
          ViewBrings(cfg, s, NextOccTag(cfg, s, dir).value);
        }
      case ToggleViewA(mask) => OtherViewsBring(cfg, s, mask);
      case TagA(mask) => TagsBring(cfg, s, mask);
      case ToggleTagA(mask) => TagsBring(cfg, s, mask);
      case FocusMonA(dir) => StepsBring(cfg, s, dir);
      case TagMonA(dir) => MovesBring(cfg, s, dir);
      case FocusUrgentA => MovesBring(cfg, s, 0);
      case _ =>
    }
  }

  lemma ToplevelStack(cfg: Config, s: State, w: Window)
    requires Unknown(s, w)
    ensures SameStack(s, NewToplevel(cfg, s, w))
  {
    hide ArrangeBoth, ToFront, MapElement, InitialTags, BaseLoc, FramedMonitors, SameCore;
    forall t: State, mon, prev
      ensures ArrangeBoth(cfg, t, mon, prev).windows == t.windows && ArrangeBoth(cfg, t, mon, prev).focus == t.focus
    {
      ArrangeBothFramed(cfg, t, mon, prev);
    }
    var t := NewToplevel(cfg, s, w);
    assert t.windows == [w] + s.windows && t.focus == ToFront(s.focus, w);
    OpenedStack(s, t, w);
  }

  lemma X11Stack(cfg: Config, s: State, w: Window, float: bool, width: int, height: int)
    requires Unknown(s, w)
    ensures SameStack(s, MapX11(cfg, s, w, float, width, height))
  {
    hide ArrangeAll, FocusWindow, ToFront, MapElement, MonitorData.Centre, InitialTags, BaseLoc;
    ArrangeAllLists(cfg);
    FocusLists(cfg);
    var t := MapX11(cfg, s, w, float, width, height);
    assert t.windows == [w] + s.windows && t.focus == ToFront(s.focus, w);
    OpenedStack(s, t, w);
  }

  lemma OpenedStack(s: State, t: State, w: Window)
    requires Unknown(s, w) && t.windows == [w] + s.windows && t.focus == ToFront(s.focus, w)
    ensures SameStack(s, t)
  {
    hide ToFront;
  }

  lemma ClosingKeepsStrays(cfg: Config, s: State, w: Window)
    requires w in s.windows
    ensures SameStack(s, ToplevelDestroyed(cfg, s, w))
    ensures SameStack(s, UnmapX11(cfg, s, w))
  {
    hide ArrangeAll, FocusWindow, ToFront, FocusedWindow, TileMasterWindow, Without, UnmapElem, UnmapAll;
    ArrangeAllLists(cfg);
    FocusLists(cfg);
    TopsInLists(cfg);
  }

  lemma GoneClearsStrays(cfg: Config, s: State)
    requires Inv(cfg, s)
    ensures if Select(IsX11, s.info, s.windows) == [] && s.popups == [] then Disconnected(cfg, s) == s
            else (forall w :: !Strayed(Disconnected(cfg, s), w)) && SameAbsent(s, Disconnected(cfg, s))
  {
    hide ArrangeAll, FocusWindow, ToFront, FocusedWindow, Select, UnmapAll, MonitorsOk, CellsOk, ListsOk;
    ArrangeAllLists(cfg);
    FocusLists(cfg);
    TopsInLists(cfg);
  }

  lemma SwitchKeepsLists(cfg: Config, s: State, w: Window, mon: nat, mask: Mask)
    ensures var t := SwitchToTag(cfg, s, w, mon, mask);
            t.windows == s.windows && t.focus == s.focus && t.popups == s.popups && t.space == s.space
  {
    hide Update, MonitorData.View, MonitorData.Tags, TagMask, St;
  }

  lemma RulesKeepLists(cfg: Config, s: State, w: Window, verdict: Verdict)
    ensures var t := ApplyRules(cfg, s, w, verdict);
            t.windows == s.windows && t.focus == s.focus && t.popups == s.popups && t.space == s.space
  {
    hide FoldRules, TargetMonitor, InitialTags, SwitchToTag, MonitorData.Tags, TagMask, St;
    if verdict.Matched? {
      var acc := FoldRules(cfg, verdict.rules, verdict.floatType || St(s.info, w).isFloating);
      if acc.switchToTag.Some? {
        SwitchKeepsLists(cfg, s, w, TargetMonitor(s, acc.monitor), acc.switchToTag.value);
      }
    }
  }

  lemma RulesKeepStrays(cfg: Config, s: State, w: Window, verdict: Verdict)
    ensures Brought(s, FirstCommit(cfg, s, w, verdict))
  {
    hide ArrangeAll, FocusWindow, ToFront, FocusedWindow, ApplyRules;
    ArrangeAllLists(cfg);
    FocusLists(cfg);
    TopsInLists(cfg);
    RulesKeepLists(cfg, s.(info := s.info[w := St(s.info, w).(rulesApplied := true)]), w, verdict);
  }

  lemma CentreKeepsLists(s: State, w: Window, width: int, height: int)
    ensures var t := CentreWindow(s, w, width, height); t.windows == s.windows && t.focus == s.focus && t.popups == s.popups
  {
    hide MapElement, MonitorData.Centre, AllVisible, Meets, St;
  }

  lemma BufferKeepsLists(cfg: Config, s: State, w: Window, width: int, height: int, floatType: bool)
    ensures var t := BufferCommit(cfg, s, w, width, height, floatType);
            t.windows == s.windows && t.focus == s.focus && t.popups == s.popups
  {
    hide ArrangeAll, CentreWindow, St;
    ArrangeAllLists(cfg);
    forall t: State
      ensures CentreWindow(t, w, width, height).windows == t.windows && CentreWindow(t, w, width, height).focus == t.focus
      ensures CentreWindow(t, w, width, height).popups == t.popups
    {
      CentreKeepsLists(t, w, width, height);
    }
  }

  /** When XWayland ends with an X11 window or popup left, every X11 window leaves the lists. */
  predicate Purges(s: State, e: Event) {
    e.X11Gone? && !(Select(IsX11, s.info, s.windows) == [] && s.popups == [])
  }

  /** The events that only write cells, monitors, places or the grab. */
  predicate Listless(e: Event) {
    e.PointerMoved? || e.MoveLost? || e.MoveEnded? || e.SetLocked? || e.SetUrgent? || e.SetZone? || e.PopupMapped? ||
    e.X11Configured? || e.X11Moved? || e.FullscreenRequest? || e.ParentChanged? || e.Commit? || e.Plugged? || e.Unplugged?
  }

  lemma OthersKeepLists(cfg: Config, s: State, e: Event)
    requires cfg.Sane() && Listless(e)
    ensures var t := Step(cfg, s, e); t.windows == s.windows && t.focus == s.focus && (!e.PopupMapped? ==> t.popups == s.popups)
  {
    hide ArrangeAll, BufferCommit, Fresh, MonitorData.Restore, MonitorData.Snapshot, MapElement, AdoptAll, ShiftAll,
         MigrationTarget, AreaAt, ConfiguredLoc, DraggedTo, St;
    ArrangeAllLists(cfg);
    if Enabled(s, e) && e.Commit? {
      BufferKeepsLists(cfg, s, e.w, e.width, e.height, e.floatType);
    }
  }

  /** The window the pointer hands to `focus_window`, by focusing or by starting to move it. */
  function PointsAt(e: Event): Option<Window> {
    match e
    case PointerFocus(w) => Some(w)
    case MoveStarted(w, _) => Some(w)
    case _ => None
  }

  lemma ClientStep(cfg: Config, s: State, e: Event)
    requires cfg.Sane() && Inv(cfg, s) && !Listless(e) && !e.Dispatch? && PointsAt(e).None? && !e.X11Gone?
    ensures SameStack(s, Step(cfg, s, e))
  {
    hide Inv, NewToplevel, MapX11, ToplevelDestroyed, UnmapX11, FirstCommit, St, ToFront;
    if Enabled(s, e) {
      match e {
        case WindowOpened(v) => ToplevelStack(cfg, s, v);
        case X11Mapped(v, float, width, height) => X11Stack(cfg, s, v, float, width, height);
        case WindowClosed(v) => ClosingKeepsStrays(cfg, s, v);
        case X11Unmapped(v) =>
          if v in s.windows {
            ClosingKeepsStrays(cfg, s, v);
          } else {
            PopupUnmapped(cfg, s, v);
          }
        case RulesCommit(v, verdict) => RulesKeepStrays(cfg, s, v, verdict); BroughtStack(s, FirstCommit(cfg, s, v, verdict));
      }
    }
  }

  lemma PointerStep(cfg: Config, s: State, w: Window)
    requires cfg.Sane()
    ensures Step(cfg, s, PointerFocus(w)) == if w in s.windows || w in s.popups then FocusWindow(cfg, s, Some(w)) else s
    ensures Step(cfg, s, X11Gone) == Disconnected(cfg, s) && Step(cfg, s, X11Unmapped(w)) == UnmapX11(cfg, s, w)
  {
    hide FocusWindow, Disconnected, UnmapX11;
  }

  lemma PointedStep(cfg: Config, s: State, e: Event)
    requires cfg.Sane() && PointsAt(e).Some?
    ensures var t := Step(cfg, s, e);
            var w := PointsAt(e).value;
            && t.windows == s.windows
            && t.focus == if w in s.windows || w in s.popups then ToFront(s.focus, w) else s.focus
  {
    hide FocusWindow, ToFront, LocOf, St;
    FocusLists(cfg);
  }

  /**
   Exactly how every event changes the strays: the pointer focusing, or starting to move, a window that is not
   managed adds it, the end of XWayland removes them all, and nothing else, not even the popup's own unmap, has
   any effect.
   */
  lemma StepStrays(cfg: Config, s: State, e: Event, w: Window)
    requires cfg.Sane() && Inv(cfg, s)
    ensures Strayed(Step(cfg, s, e), w) <==>
              !Purges(s, e) && (Strayed(s, w) || (PointsAt(e) == Some(w) && w in s.popups))
  {
    StepStack(cfg, s, e);
    hide Step, StackStep;
    if PointsAt(e).Some? {
      PopupsUnmanaged(cfg, s);
      hide Inv, ToFront;
      PointedStep(cfg, s, e);
    } else if e.X11Gone? {
      hide Inv, Disconnected;
      PointerStep(cfg, s, w);
      GoneClearsStrays(cfg, s);
    } else {
      StackStrays(s, e, Step(cfg, s, e), w);
    }
  }

  lemma StackStrays(s: State, e: Event, t: State, w: Window)
    requires StackStep(s, e, t)
    ensures Strayed(t, w) <==> Strayed(s, w)
  {
  }

  lemma StepStack(cfg: Config, s: State, e: Event)
    requires cfg.Sane() && Inv(cfg, s)
    ensures PointsAt(e).None? && !e.X11Gone? ==> StackStep(s, e, Step(cfg, s, e))
  {
    hide Inv, Step, StackStep, SameStack;
    if e.Dispatch? {
      DispatchStep(cfg, s, e);
      ActStep(cfg, s, e.action);
      assert e == Dispatch(e.action);
    } else if Listless(e) {
      OthersKeepLists(cfg, s, e);
      ListsStack(s, Step(cfg, s, e));
      NothingHidden(s, e, Step(cfg, s, e));
    } else if PointsAt(e).None? && !e.X11Gone? {
      ClientStep(cfg, s, e);
      NothingHidden(s, e, Step(cfg, s, e));
    }
  }

  lemma ListsStack(s: State, t: State)
    requires t.windows == s.windows && t.focus == s.focus
    ensures SameStack(s, t)
  {
  }

  lemma NothingHidden(s: State, e: Event, t: State)
    requires !e.Dispatch? && SameStack(s, t)
    ensures StackStep(s, e, t)
  {
  }

  lemma DispatchStep(cfg: Config, s: State, e: Event)
    requires cfg.Sane() && e.Dispatch?
    ensures Step(cfg, s, e) == Act(cfg, s, e.action)
  {
    hide Act;
  }

  /**
   Exactly which managed windows are missing from the stack after an event: the one it hides, and those that
   were missing before and that it has not brought to the front.
   */
  lemma StepAbsent(cfg: Config, s: State, e: Event, w: Window)
    requires cfg.Sane() && Inv(cfg, s)
    ensures var t := Step(cfg, s, e);
            Absent(t, w) <==> w in t.windows && (HiddenBy(s, e) == Some(w) || (Absent(s, w) && !InFront(t, w)))
  {
    StepStack(cfg, s, e);
    if PointsAt(e).Some? {
      PointedStep(cfg, s, e);
      hide Inv, Step, ToFront;
    } else if e.X11Gone? {
      PointerStep(cfg, s, w);
      GoneClearsStrays(cfg, s);
      SameStackReflexive(s);
      hide Inv, Step, Disconnected;
    } else {
      hide Inv, Step;
    }
  }

  lemma SameStackReflexive(s: State)
    ensures SameStack(s, s)
  {
  }

  lemma PopupsUnmanaged(cfg: Config, s: State)
    requires Inv(cfg, s)
    ensures forall v :: v in s.popups ==> v !in s.windows
  {
  }

  lemma PopupUnmapped(cfg: Config, s: State, w: Window)
    requires w !in s.windows
    ensures var t := UnmapX11(cfg, s, w);
            && t.windows == s.windows && t.focus == s.focus
            && t.popups == Without(s.popups, w) && (w in s.popups ==> LocOf(t.space, w) == None)
  {
    hide LocOf;
  }

  /** Whatever the pointer focuses or moves in the run is managed, and no scratchpad is hidden. */
  ghost predicate Undivided(cfg: Config, s: State, events: seq<Event>)
    requires cfg.Sane()
  {
    forall k :: 0 <= k < |events| ==>
      && !(PointsAt(events[k]).Some? && PointsAt(events[k]).value in Run(cfg, s, events[..k]).popups)
      && HiddenBy(Run(cfg, s, events[..k]), events[k]).None?
  }

  lemma {:induction false} PermutedRun(cfg: Config, s: State, events: seq<Event>)
    requires cfg.Sane() && Inv(cfg, s) && Permuted(s) && Undivided(cfg, s, events)
    ensures Permuted(Run(cfg, s, events))
  {
    hide Inv, Step, Strayed, Absent, Purges, HiddenBy, PointsAt, InFront;
    if events != [] {
      var n := |events| - 1;
      var init := events[..n];
      forall k | 0 <= k < n
        ensures !(PointsAt(init[k]).Some? && PointsAt(init[k]).value in Run(cfg, s, init[..k]).popups)
        ensures HiddenBy(Run(cfg, s, init[..k]), init[k]).None?
      {
        assert init[..k] == events[..k];
      }
      PermutedRun(cfg, s, init);
      InvRun(cfg, s, init);
      var t := Run(cfg, s, init);
      forall w
        ensures !Strayed(Step(cfg, t, events[n]), w) && !Absent(Step(cfg, t, events[n]), w)
      {
        assert !Strayed(t, w) && !Absent(t, w);
        StepStrays(cfg, t, events[n], w);
        StepAbsent(cfg, t, events[n], w);
      }
    }
  }

  /**
   In every state reachable without the pointer touching an override-redirect window or a scratchpad being
   hidden, the focus stack is a permutation of the managed windows.
   */
  lemma ReachablePermutation(cfg: Config, events: seq<Event>)
    requires cfg.Sane() && Undivided(cfg, Initial, events)
    ensures var t := Run(cfg, Initial, events); multiset(t.focus) == multiset(t.windows)
  {
    hide Inv, Undivided, Run;
    ReachableInv(cfg, []);
    assert Run(cfg, Initial, []) == Initial by { EmptyRun(cfg); }
    PermutedRun(cfg, Initial, events);
    ReachableInv(cfg, events);
    PermutedIsPermutation(cfg, Run(cfg, Initial, events));
  }

  lemma EmptyRun(cfg: Config)
    requires cfg.Sane()
    ensures Run(cfg, Initial, []) == Initial
  {
  }

  /**
   What goes wrong otherwise: once the pointer has focused a popup, the popup's unmap takes it out of the
   space and out of its own list, but leaves it at the front of the focus stack.
   */
  lemma PopupOutlivesUnmap(cfg: Config, s: State, w: Window)
    requires cfg.Sane() && Inv(cfg, s) && w in s.popups
    ensures var t := Step(cfg, Step(cfg, s, PointerFocus(w)), X11Unmapped(w));
            && t.focus != [] && t.focus[0] == w
            && w !in t.windows && w !in t.popups && LocOf(t.space, w) == None
            && !Permuted(t)
            && FocusedWindow(t) != Some(w)
  {
    hide FocusWindow, FramedMonitors, SameButUrgent, LocOf, UnmapX11, Inv, ToFront, Step, FocusedWindow;
    PopupsUnmanaged(cfg, s);
    var t := FocusWindow(cfg, s, Some(w));
    PointerStep(cfg, s, w);
    FocusWindowFramed(cfg, s, w);
    PopupUnmapped(cfg, t, w);
    PointerStep(cfg, t, w);
    var u := UnmapX11(cfg, t, w);
    assert Strayed(u, w);
    InvStep(cfg, s, PointerFocus(w));
    InvStep(cfg, t, X11Unmapped(w));
    FocusedIsManaged(cfg, u);
  }

  /** A run of three events from start-up that ends so. */
  lemma StrayWitness(cfg: Config, w: Window, loc: Point)
    requires cfg.Sane()
    ensures var t := Run(cfg, Initial, [PopupMapped(w, loc), PointerFocus(w), X11Unmapped(w)]);
            Strayed(t, w) && multiset(t.focus) != multiset(t.windows)
  {
    hide Step, Inv;
    var events := [PopupMapped(w, loc), PointerFocus(w), X11Unmapped(w)];
    assert events[..2] == [PopupMapped(w, loc), PointerFocus(w)] && events[..2][..1] == [PopupMapped(w, loc)];
    assert events[..2][..1][..0] == [];
    var s := Run(cfg, Initial, [PopupMapped(w, loc)]);
    PopupStart(cfg, w, loc);
    ReachableInv(cfg, [PopupMapped(w, loc)]);
    PopupOutlivesUnmap(cfg, s, w);
    ReachableInv(cfg, events);
    PermutedIsPermutation(cfg, Run(cfg, Initial, events));
  }

  lemma PopupStart(cfg: Config, w: Window, loc: Point)
    requires cfg.Sane()
    ensures w in Run(cfg, Initial, [PopupMapped(w, loc)]).popups
  {
    hide MapElement;
    assert Run(cfg, Initial, [PopupMapped(w, loc)][..0]) == Initial;
  }
}
