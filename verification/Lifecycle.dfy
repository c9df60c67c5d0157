/** What the client's events achieve: X11 windows coming and going, window rules, first buffers. */
module Lifecycle {
  import opened Sequences
  import opened Tags
  import opened History
  import opened Monitors
  import opened Windows
  import opened Desktop
  import opened Compositor
  import opened Frames
  import opened Arranging
  import opened Invariant
  import opened Reachability
  import opened Actions

  // Windows no placement loop handles yet.

  /** Tiled, and waiting for its rules. */
  predicate Unplaced(st: WindowState) {
    !st.isFloating && !st.isFullscreen && !st.rulesApplied
  }

  /** Such a window, once visible, is neither hidden nor moved by arranging. */
  lemma ArrangeUnplaced(cfg: Config, s: State, i: nat, w: Window)
    requires Shown(s, w) && Unplaced(St(s.info, w))
    ensures LocOf(Arrange(cfg, s, i).space, w) == LocOf(s.space, w)
  {
    hide RunPass, ArrangedMonitor, FocusedOn, LocOf, WindowState.Core, Select, AllVisible, Meets;
    if i < |s.monitors| {
      var loc, area, focused := s.monitors[i].work.loc, s.monitors[i].area, FocusedOn(s, i);
      assert Meets(St(s.info, w).tags, AllVisible(s.monitors));
      PassFrame(HidePass, Desk(s.space, s.info), HiddenOf(s));
      PassFrame(TilePassOf(cfg, s, i), HiddenDesk(s), TiledOf(s, i));
      PassFrame(FloatPass(loc, focused), TiledDesk(cfg, s, i), FloatingOf(s, i));
      PassFrame(FullPass(area, focused), FloatingDesk(cfg, s, i), FullscreenOf(s, i));
      PassFrame(ScratchPass(loc), FullscreenDesk(cfg, s, i), ScratchOf(s, i));
    }
  }

  lemma FramedUnplaced(cfg: Config, s: State, t: State, w: Window)
    requires Framed(cfg, s, t) && Shown(s, w) && Unplaced(St(s.info, w))
    ensures Shown(t, w) && Unplaced(St(t.info, w))
  {
    hide FramedMonitors, AllVisible, Meets;
    FramedTags(cfg, s, t);
    CoreKeepsRest(s.info, t.info, w);
    UrgentDoesNotMatter(s.info, t.info, w, IsX11);
  }

  lemma ArrangeBothUnplaced(cfg: Config, s: State, mon: nat, prev: Option<nat>, w: Window)
    requires Shown(s, w) && Unplaced(St(s.info, w))
    ensures LocOf(ArrangeBoth(cfg, s, mon, prev).space, w) == LocOf(s.space, w)
  {
    hide Arrange, LocOf, Framed, Shown, Unplaced;
    ArrangeUnplaced(cfg, s, mon, w);
    if prev.Some? {
      ArrangeFramed(cfg, s, mon);
      FramedUnplaced(cfg, s, Arrange(cfg, s, mon), w);
      ArrangeUnplaced(cfg, Arrange(cfg, s, mon), prev.value, w);
    }
  }

  lemma SelectedShows(s: State, w: Window)
    requires s.selMon < |s.monitors| && Meets(St(s.info, w).tags, SelTags(s))
    ensures Shown(s, w)
  {
    MeetsMonotone(St(s.info, w).tags, SelTags(s), AllVisible(s.monitors));
  }

  /** A new toplevel is mapped where it was put, at the corner of the selected monitor's work area. */
  lemma OpenedIsMapped(cfg: Config, s: State, w: Window)
    requires Inv(cfg, s) && s.monitors != []
    ensures LocOf(NewToplevel(cfg, s, w).space, w) == Some(s.monitors[s.selMon].work.loc)
  {
    hide ArrangeBoth, ToFront, MapElement, Inv, Meets, LocOf, AllVisible;
    SelectedExists(cfg, s);
    MonitorAt(cfg, s, s.selMon);
    TagsMeetThemselves(cfg, s.monitors[s.selMon]);
    var st := NewWindowState.(tags := InitialTags(s), monIdx := s.selMon);
    var a := s.(info := s.info[w := st], space := MapElement(s.space, w, BaseLoc(s)), windows := [w] + s.windows, focus := ToFront(s.focus, w));
    SelectedShows(a, w);
    ArrangeBothUnplaced(cfg, a, s.selMon, FrontMonitor(s), w);
  }

  // X11 windows.

  lemma CentredIs(s: State, w: Window, width: int, height: int)
    requires width > 0 && height > 0 && St(s.info, w).monIdx < |s.monitors|
    requires St(s.info, w).isFloating && !St(s.info, w).isFullscreen
    ensures var t := CentreX11(s, w, width, height);
            && t.monitors == s.monitors && t.selMon == s.selMon && t.windows == s.windows && t.focus == s.focus
            && t.history == s.history && t.popups == s.popups
            && t.info == s.info[w := St(t.info, w)] && St(t.info, w) == St(s.info, w).(savedLoc := St(t.info, w).savedLoc)
            && Resting(t, w, s.monitors[St(s.info, w).monIdx].Centre(width, height))
  {
    hide LocOf, MapElement, MonitorData.Centre;
  }

  /** Focusing a visible window and arranging brings it, when it floats, to exactly where it rests. */
  lemma FocusedAndArranged(cfg: Config, s: State, w: Window)
    requires cfg.Sane() && s.selMon < |s.monitors| && w in s.windows
    requires Meets(St(s.info, w).tags, SelTags(s)) && St(s.info, w).monIdx == s.selMon
    ensures var t := ArrangeAll(cfg, FocusWindow(cfg, s, Some(w)));
            && SameView(s, t) && FocusedWindow(t) == Some(w) && t.focus == ToFront(s.focus, w)
            && forall loc :: Resting(s, w, loc) ==> LocOf(t.space, w) == Some(loc)
  {
    hide FocusWindow, ArrangeAll, ToFront, Meets, LocOf, AllVisible, SameButUrgent, SelTags, FocusedWindow, SameTags, Resting;
    FocusSameView(cfg, s, w);
    var c := FocusWindow(cfg, s, Some(w));
    ArrangeAllSameView(cfg, c);
    SameViewTransitive(s, c, ArrangeAll(cfg, c));
    UrgentDoesNotMatter(s.info, c.info, w, IsX11);
    SameViewTags(s, c);
    assert |c.monitors| == |s.monitors| by { SameCount(s, c); }
    SelectedShows(c, w);
    forall loc | Resting(s, w, loc)
      ensures LocOf(ArrangeAll(cfg, c).space, w) == Some(loc)
    {
      FocusRests(cfg, s, Some(w), w, loc);
      RestReturns(cfg, c, w, loc);
    }
  }

  lemma SameCount(s: State, t: State)
    requires SameView(s, t)
    ensures |t.monitors| == |s.monitors|
  {
  }

  /** A new X11 window, placed but not focused yet. */
  function X11Placed(s: State, w: Window, float: bool, width: int, height: int): State {
    var st := NewWindowState.(tags := InitialTags(s), monIdx := s.selMon, isFloating := float, isX11 := true);
    var t := s.(info := s.info[w := st], space := MapElement(s.space, w, BaseLoc(s)), windows := [w] + s.windows);
    if float then CentreX11(t, w, width, height) else t
  }

  lemma X11PlacedParts(cfg: Config, s: State, w: Window, float: bool, width: int, height: int)
    requires Inv(cfg, s) && s.monitors != []
    ensures var t := X11Placed(s, w, float, width, height);
            && MapX11(cfg, s, w, float, width, height) == ArrangeAll(cfg, FocusWindow(cfg, t, Some(w)))
            && s.selMon < |s.monitors|
            && t.monitors == s.monitors && t.selMon == s.selMon && t.windows == [w] + s.windows && t.focus == s.focus
            && St(t.info, w).isX11 && St(t.info, w).isFloating == float && St(t.info, w).tags == SelTags(s)
            && St(t.info, w).monIdx == s.selMon
            && Meets(St(t.info, w).tags, SelTags(t))
            && (float && width > 0 && height > 0 ==> Resting(t, w, s.monitors[s.selMon].Centre(width, height)))
  {
    hide FocusWindow, ArrangeAll, CentreX11, MapElement, Inv, Meets, Resting, BaseLoc, MonitorData.Centre, MonitorData.Tags;
    SelectedExists(cfg, s);
    MonitorAt(cfg, s, s.selMon);
    TagsMeetThemselves(cfg, s.monitors[s.selMon]);
    var st := NewWindowState.(tags := InitialTags(s), monIdx := s.selMon, isFloating := float, isX11 := true);
    var a := s.(info := s.info[w := st], space := MapElement(s.space, w, BaseLoc(s)), windows := [w] + s.windows);
    CentreKeeps(a, w, width, height);
    if float && width > 0 && height > 0 {
      CentredIs(a, w, width, height);
    }
  }

  /**
   A mapped X11 window is focused and first in tiling order; every view stays as it was.  One that floats
   and has a size ends up centred on its monitor.
   */
  lemma X11IsMapped(cfg: Config, s: State, w: Window, float: bool, width: int, height: int)
    requires cfg.Sane() && Inv(cfg, s) && s.monitors != []
    ensures var t := MapX11(cfg, s, w, float, width, height);
            && FocusedWindow(t) == Some(w)
            && t.windows == [w] + s.windows && t.focus == ToFront(s.focus, w)
            && t.selMon == s.selMon && SameTags(s.monitors, t.monitors)
            && St(t.info, w).isX11 && St(t.info, w).isFloating == float && St(t.info, w).tags == SelTags(s)
            && s.selMon < |s.monitors|
            && (float && width > 0 && height > 0 ==>
                  LocOf(t.space, w) == Some(s.monitors[s.selMon].Centre(width, height)))
  {
    hide FocusWindow, ArrangeAll, X11Placed, MapX11, ToFront, Inv, Meets, LocOf, SameButUrgent, MonitorData.Centre, FocusedWindow,
         SameTags, Resting, SelTags;
    X11PlacedParts(cfg, s, w, float, width, height);
    var b := X11Placed(s, w, float, width, height);
    FocusedAndArranged(cfg, b, w);
    UrgentDoesNotMatter(b.info, MapX11(cfg, s, w, float, width, height).info, w, IsX11);
    assert Sat(IsX11, St(b.info, w));
  }

  lemma SameViewTags(s: State, t: State)
    requires SameView(s, t)
    ensures SelTags(t) == SelTags(s)
  {
    hide SameButUrgent;
  }

  lemma CentreKeeps(s: State, w: Window, width: int, height: int)
    ensures var t := CentreX11(s, w, width, height);
            && t.monitors == s.monitors && t.selMon == s.selMon && t.windows == s.windows && t.focus == s.focus
            && t.history == s.history
            && St(t.info, w) == St(s.info, w).(savedLoc := St(t.info, w).savedLoc)
  {
    hide LocOf, MapElement, MonitorData.Centre;
  }

  /** The state a closing leaves to be refocused and arranged. */
  function Dismissed(s: State, windows: seq<Window>, focus: seq<Window>, space: Space): State {
    s.(windows := windows, focus := focus, popups := [], space := space)
  }

  lemma RefocusUnmanaged(cfg: Config, s: State, w: Window)
    requires w !in s.windows
    ensures LocOf(ArrangeAll(cfg, Refocus(cfg, s)).space, w) == LocOf(s.space, w)
  {
    hide FocusWindow, ArrangeAll, LocOf, FocusedWindow, FramedMonitors, SameButUrgent, ToFront;
    var top := FocusedWindow(s);
    FocusUnmanaged(cfg, s, top, w);
    if top.Some? {
      FocusWindowFramed(cfg, s, top.value);
    } else {
      NoFocus(cfg, s);
    }
    ArrangeAllUnmanaged(cfg, Refocus(cfg, s), w);
  }

  /**
   An unmapped X11 window is in no list and not in the space; every popup is dismissed with it, no view
   changes, and the focus goes to the most recent visible window that is left.
   */
  lemma UnmappedIsGone(cfg: Config, s: State, w: Window)
    requires Inv(cfg, s) && w in s.windows
    ensures var t := UnmapX11(cfg, s, w);
            && t.windows == Without(s.windows, w)
            && w !in t.windows && w !in t.focus && LocOf(t.space, w) == None
            && t.popups == [] && (forall p :: p in s.popups ==> LocOf(t.space, p) == None)
            && t.selMon == s.selMon && SameTags(s.monitors, t.monitors) && SameButUrgent(s.info, t.info)
            && FocusedWindow(t) == FocusedWindow(s.(focus := Without(s.focus, w)))
  {
    hide Refocus, ArrangeAll, SameButUrgent, SameTags, Inv, LocOf, Without, UnmapElem, UnmapAll, FocusedWindow, ToFront;
    PopupsApart(cfg, s);
    var rest := Dismissed(s, Without(s.windows, w), Without(s.focus, w), UnmapAll(UnmapElem(s.space, w), s.popups));
    RefocusThenArrange(cfg, rest);
    FocusedSame(rest, s.(focus := Without(s.focus, w)));
    FocusInStack(rest);
    var t := ArrangeAll(cfg, Refocus(cfg, rest));
    assert UnmapX11(cfg, s, w) == t;
    RefocusUnmanaged(cfg, rest, w);
    forall p | p in s.popups
      ensures LocOf(t.space, p) == None
    {
      RefocusUnmanaged(cfg, rest, p);
    }
    assert t.popups == [] by { RefocusPopups(cfg, rest); }
  }

  lemma PopupsApart(cfg: Config, s: State)
    requires Inv(cfg, s)
    ensures forall p :: p in s.popups ==> p !in s.windows
  {
  }

  lemma FocusInStack(s: State)
    ensures FocusedWindow(s).Some? ==> FocusedWindow(s).value in s.focus
  {
    hide First;
  }

  lemma RefocusPopups(cfg: Config, s: State)
    ensures ArrangeAll(cfg, Refocus(cfg, s)).popups == s.popups
  {
    hide FocusWindow, ArrangeAll, FocusedWindow, FramedMonitors, SameButUrgent, ToFront, SameCore;
    var top := FocusedWindow(s);
    if top.Some? {
      FocusWindowFramed(cfg, s, top.value);
    } else {
      NoFocus(cfg, s);
    }
    ArrangeAllFramed(cfg, Refocus(cfg, s));
  }

  /** An unmapped popup leaves its list and the space, and nothing else changes. */
  lemma PopupIsGone(cfg: Config, s: State, p: Window)
    requires p in s.popups
    ensures var t := UnmapX11(cfg, s, p);
            && t == s.(space := t.space, popups := t.popups)
            && p !in t.popups && LocOf(t.space, p) == None
            && (forall v :: v != p ==> LocOf(t.space, v) == LocOf(s.space, v) && (v in t.popups <==> v in s.popups))
  {
    hide LocOf, UnmapElem;
  }

  /**
   When XWayland ends, no X11 window is left in any list or in the space, the other windows keep their
   order, and no view changes.  Only with no X11 window and no popup left is a stray popup not taken out of
   the focus stack either: then nothing happens at all.
   */
  lemma NoX11Left(cfg: Config, s: State)
    requires Inv(cfg, s)
    ensures var t := Disconnected(cfg, s);
            && t.windows == Select(NotX11, s.info, s.windows) && t.popups == []
            && (forall w :: w in t.windows ==> !St(t.info, w).isX11)
            && (forall w :: w in t.focus && St(t.info, w).isX11 ==> t == s)
            && (forall w :: w in s.popups || (w in s.windows && St(s.info, w).isX11) ==> LocOf(t.space, w) == None)
            && t.selMon == s.selMon && SameTags(s.monitors, t.monitors) && SameButUrgent(s.info, t.info)
  {
    hide Refocus, ArrangeAll, SameButUrgent, SameTags, Inv, LocOf, UnmapAll, FocusedWindow, ToFront, Select;
    PopupsApart(cfg, s);
    var dead := Select(IsX11, s.info, s.windows);
    if dead == [] && s.popups == [] {
      NoneSelected(s.info, s.windows);
      SameViewReflexive(s);
      assert SameTags(s.monitors, s.monitors) && SameButUrgent(s.info, s.info);
    } else {
      var rest := Dismissed(s, Select(NotX11, s.info, s.windows), Select(NotX11, s.info, s.focus),
                            UnmapAll(UnmapAll(s.space, dead), s.popups));
      var t := ArrangeAll(cfg, Refocus(cfg, rest));
      assert Disconnected(cfg, s) == t;
      RefocusThenArrange(cfg, rest);
      FocusInStack(rest);
      RefocusPopups(cfg, rest);
      forall w | w in t.windows || w in t.focus
        ensures !St(t.info, w).isX11
      {
        assert w in rest.windows || w in rest.focus;
        UrgentDoesNotMatter(s.info, t.info, w, IsX11);
        assert Sat(NotX11, St(s.info, w));
      }
      forall w | w in s.popups || (w in s.windows && St(s.info, w).isX11)
        ensures LocOf(t.space, w) == None
      {
        assert w in dead || w in s.popups;
        RefocusUnmanaged(cfg, rest, w);
      }
    }
  }

  lemma NoneSelected(info: Info, ws: seq<Window>)
    ensures Select(IsX11, info, ws) == [] ==> Select(NotX11, info, ws) == ws && forall w :: w in ws ==> !St(info, w).isX11
  {
    if Select(IsX11, info, ws) == [] {
      assert forall w :: w in ws ==> !Sat(IsX11, St(info, w)) by {
        forall w | w in ws
          ensures !Sat(IsX11, St(info, w))
        {
          assert w !in Select(IsX11, info, ws);
        }
      }
      SelectAll(NotX11, info, ws);
    }
  }

  lemma {:induction false} SelectAll(q: Query, info: Info, ws: seq<Window>)
    requires forall w :: w in ws ==> Sat(q, St(info, w))
    ensures Select(q, info, ws) == ws
  {
    hide Sat, Select;
    if ws == [] {
      assert Select(q, info, ws) == [];
    } else {
      var n := |ws| - 1;
      assert ws[n] in ws;
      SelectAll(q, info, ws[..n]);
      SelectSnoc(q, info, ws[..n], ws[n]);
      assert ws == ws[..n] + [ws[n]];
    }
  }

  // Rules.

  /** The last matching rule that satisfies a condition, if any does. */
  ghost predicate LastRule(rules: seq<Rule>, k: nat, picks: Rule -> bool) {
    k < |rules| && picks(rules[k]) && forall j :: k < j < |rules| ==> !picks(rules[j])
  }

  predicate NamesMonitor(r: Rule) {
    r.monitor >= 0
  }

  predicate NamesKey(r: Rule) {
    r.scratchKey != NO_KEY
  }

  predicate Switches(r: Rule) {
    r.switchToTag && r.tags != {}
  }

  ghost predicate PicksLast<T(!new)>(rules: seq<Rule>, picks: Rule -> bool, value: Rule -> T, r: T, none: T) {
    (exists k: nat :: LastRule(rules, k, picks) && r == value(rules[k])) || (r == none && forall j :: 0 <= j < |rules| ==> !picks(rules[j]))
  }

  lemma PicksLastNext<T(!new)>(rules: seq<Rule>, picks: Rule -> bool, value: Rule -> T, before: T, none: T)
    requires rules != [] && PicksLast(rules[..|rules| - 1], picks, value, before, none)
    ensures PicksLast(rules, picks, value, if picks(rules[|rules| - 1]) then value(rules[|rules| - 1]) else before, none)
  {
    var n := |rules| - 1;
    if picks(rules[n]) {
      assert LastRule(rules, n, picks);
    } else if k: nat :| LastRule(rules[..n], k, picks) && before == value(rules[..n][k]) {
      assert LastRule(rules, k, picks);
    } else {
      assert forall j :: 0 <= j < n ==> rules[..n][j] == rules[j];
    }
  }

  /**
   What a window's matching rules amount to: the union of their tags; floating if any says so; the monitor,
   the scratchpad key and the view jump of the last that names one.
   */
  lemma {:induction false} FoldRulesMeans(cfg: Config, rules: seq<Rule>, float: bool)
    ensures var acc := FoldRules(cfg, rules, float);
            && (forall t :: t in acc.tags <==> exists k :: 0 <= k < |rules| && t in rules[k].tags)
            && (acc.isFloating <==> float || exists k :: 0 <= k < |rules| && rules[k].isFloating)
            && PicksLast(rules, NamesMonitor, (r: Rule) => r.monitor, acc.monitor, -1)
            && PicksLast(rules, NamesKey, (r: Rule) => r.scratchKey, acc.scratchKey, NO_KEY)
            && PicksLast(rules, Switches, (r: Rule) => Some(r.tags * TagMask(cfg.tagCount)), acc.switchToTag, None)
  {
    hide PicksLast, TagMask;
    if rules == [] {
      NoRules(cfg);
    } else {
      var n := |rules| - 1;
      FoldRulesMeans(cfg, rules[..n], float);
      var before := FoldRules(cfg, rules[..n], float);
      PicksLastNext(rules, NamesMonitor, (r: Rule) => r.monitor, before.monitor, -1);
      PicksLastNext(rules, NamesKey, (r: Rule) => r.scratchKey, before.scratchKey, NO_KEY);
      PicksLastNext(rules, Switches, (r: Rule) => Some(r.tags * TagMask(cfg.tagCount)), before.switchToTag, None);
      assert forall k :: 0 <= k < n ==> rules[..n][k] == rules[k];
    }
  }

  lemma NoRules(cfg: Config)
    ensures PicksLast([], NamesMonitor, (r: Rule) => r.monitor, -1, -1)
    ensures PicksLast([], NamesKey, (r: Rule) => r.scratchKey, NO_KEY, NO_KEY)
    ensures PicksLast([], Switches, (r: Rule) => Some(r.tags * TagMask(cfg.tagCount)), None, None)
  {
  }

  /** Nothing of the lists and the screen, and of no other window, changes when rules are applied. */
  ghost predicate OnlyCell(s: State, t: State, w: Window) {
    && t.windows == s.windows && t.focus == s.focus && t.popups == s.popups && t.space == s.space && t.selMon == s.selMon
    && forall v :: v != w ==> St(t.info, v) == St(s.info, v)
  }

  /** A transient child floats, to be centred, on the monitor and tags of its parent, or failing that the selected ones. */
  lemma ChildFloats(cfg: Config, s: State, w: Window, parent: Option<Window>)
    ensures var t := ApplyRules(cfg, s, w, Child(parent));
            var st := St(t.info, w);
            && OnlyCell(s, t, w) && t.monitors == s.monitors && t.history == s.history
            && st.isFloating && st.needsCentering
            && (parent.Some? && parent.value in s.windows ==>
                  st.tags == St(s.info, parent.value).tags && st.monIdx == St(s.info, parent.value).monIdx)
            && (!(parent.Some? && parent.value in s.windows) ==>
                  st.monIdx == s.selMon && st.tags == if s.selMon < |s.monitors| then SelTags(s) else {0})
  {
    hide MonitorData.Tags;
  }

  lemma SwitchShows(cfg: Config, s: State, w: Window, mon: nat, mask: Mask)
    requires Inv(cfg, s) && mask <= TagMask(cfg.tagCount)
    ensures var t := SwitchToTag(cfg, s, w, mon, mask);
            && OnlyCell(s, t, w) && St(t.info, w) == St(s.info, w).(switchToTag := St(t.info, w).switchToTag)
            && |t.monitors| == |s.monitors|
            && (forall j :: 0 <= j < |s.monitors| ==>
                  t.monitors[j].Tags() == if j == mon && mask != {} then mask else s.monitors[j].Tags())
            && St(t.info, w).switchToTag == if mon < |s.monitors| && s.monitors[mon].Tags() != mask
                                            then Some(s.monitors[mon].Tags()) else St(s.info, w).switchToTag
  {
    hide Inv, MonitorData.View, Update, MonitorData.Tags, MonitorData.TagsOk, MonitorData.LayoutsOk;
    assert mask * TagMask(cfg.tagCount) == mask;
    if mon < |s.monitors| {
      MonitorAt(cfg, s, mon);
      ViewTags(s.monitors[mon], cfg, mask);
    }
  }

  /**
   A window that matches rules goes to the monitor the last of them names, or the selected one, clamped to
   those that exist; it gets the configured ones of its rules' tags, or what that monitor shows; it floats if
   a rule, its type or its history says so.  The last rule that switches makes its tags shown there.
   */
  lemma RulesPlace(cfg: Config, s: State, w: Window, rules: seq<Rule>, floatType: bool)
    requires Inv(cfg, s)
    ensures var t := ApplyRules(cfg, s, w, Matched(rules, floatType));
            var acc := FoldRules(cfg, rules, floatType || St(s.info, w).isFloating);
            var st := St(t.info, w);
            && OnlyCell(s, t, w)
            && st.monIdx == TargetMonitor(s, acc.monitor)
            && (acc.monitor < 0 ==> st.monIdx == s.selMon)
            && (0 <= acc.monitor < |s.monitors| ==> st.monIdx == acc.monitor)
            && (acc.monitor >= |s.monitors| > 0 ==> st.monIdx == |s.monitors| - 1)
            && (acc.tags != {} ==> st.tags == acc.tags * TagMask(cfg.tagCount))
            && (acc.tags == {} && st.monIdx < |s.monitors| ==> st.tags == s.monitors[st.monIdx].Tags())
            && (st.isFloating <==> floatType || St(s.info, w).isFloating || exists k :: 0 <= k < |rules| && rules[k].isFloating)
            && (st.needsCentering <==> st.isFloating && !St(s.info, w).isX11)
            && st.scratchKey == acc.scratchKey
            && |t.monitors| == |s.monitors|
            && (forall j :: 0 <= j < |s.monitors| ==>
                  t.monitors[j].Tags() == if j == st.monIdx && acc.switchToTag.Some? && acc.switchToTag.value != {}
                                          then acc.switchToTag.value else s.monitors[j].Tags())
  {
    hide Inv, SwitchToTag, FoldRules, MonitorData.Tags, PicksLast;
    var float := floatType || St(s.info, w).isFloating;
    var acc := FoldRules(cfg, rules, float);
    FoldRulesMeans(cfg, rules, float);
    FoldRulesMasked(cfg, rules, float);
    var mon := TargetMonitor(s, acc.monitor);
    if acc.switchToTag.Some? {
      SwitchShows(cfg, s, w, mon, acc.switchToTag.value);
    }
  }

  // First buffers.

  lemma CentreWindowCases(s: State, w: Window, width: int, height: int)
    requires St(s.info, w).monIdx < |s.monitors|
    ensures var st := St(s.info, w);
            var loc := s.monitors[st.monIdx].Centre(width, height);
            CentreWindow(s, w, width, height)
            == if Shown(s, w) then s.(info := s.info[w := st.(needsCentering := false)], space := MapElement(s.space, w, loc))
               else s.(info := s.info[w := st.(needsCentering := false, savedLoc := Some(loc))])
  {
    hide MapElement, MonitorData.Centre, AllVisible, Meets, St;
    MeetsCommutes(AllVisible(s.monitors), St(s.info, w).tags);
  }

  lemma CentreWindowPlaces(s: State, w: Window, width: int, height: int)
    requires St(s.info, w).monIdx < |s.monitors|
    ensures var t := CentreWindow(s, w, width, height);
            var a, b := St(s.info, w), St(t.info, w);
            var loc := s.monitors[a.monIdx].Centre(width, height);
            && t.monitors == s.monitors && t.windows == s.windows && t.focus == s.focus
            && !b.needsCentering && b.tags == a.tags && b.isFloating == a.isFloating && b.bufferMapped == a.bufferMapped
            && (if Shown(s, w) then LocOf(t.space, w) == Some(loc) else b.savedLoc == Some(loc) && t.space == s.space)
  {
    hide *;
    CentreWindowCases(s, w, width, height);
    var st := St(s.info, w);
    var loc := s.monitors[st.monIdx].Centre(width, height);
    CellWritten(s.info, w, st.(needsCentering := false));
    CellWritten(s.info, w, st.(needsCentering := false, savedLoc := Some(loc)));
  }

  lemma CellWritten(info: Info, w: Window, st: WindowState)
    ensures St(info[w := st], w) == st
  {
  }

  lemma ShownSame(s: State, t: State, w: Window)
    requires t.monitors == s.monitors && St(t.info, w).tags == St(s.info, w).tags
    ensures Shown(t, w) <==> Shown(s, w)
  {
  }

  lemma MeetsCommutes(a: Mask, b: Mask)
    ensures Meets(a, b) <==> Meets(b, a)
  {
    assert a * b == b * a;
  }

  /** A first buffer makes a toplevel of a floating type float, unless it already is on its way to something else. */
  predicate BecomesFloating(st: WindowState, floatType: bool) {
    !st.bufferMapped && !st.isX11 && !st.isFloating && !st.isFullscreen && floatType
  }

  function Mapped(cfg: Config, s: State, w: Window, floatType: bool): State {
    var st := St(s.info, w);
    if st.bufferMapped then s
    else if BecomesFloating(st, floatType)
    then ArrangeAll(cfg, s.(info := s.info[w := st.(bufferMapped := true, isFloating := true, needsCentering := true)]))
    else s.(info := s.info[w := st.(bufferMapped := true)])
  }

  lemma MappedKeeps(cfg: Config, s: State, w: Window, floatType: bool)
    ensures var t := Mapped(cfg, s, w, floatType);
            var st := St(s.info, w);
            && t.windows == s.windows && t.focus == s.focus && |t.monitors| == |s.monitors|
            && St(t.info, w).bufferMapped && St(t.info, w).tags == st.tags && St(t.info, w).monIdx == st.monIdx
            && St(t.info, w).isFloating == (st.isFloating || BecomesFloating(st, floatType))
            && St(t.info, w).needsCentering == (st.needsCentering || BecomesFloating(st, floatType))
  {
    hide ArrangeAll, FramedMonitors, WindowState.Core;
    var st := St(s.info, w);
    if BecomesFloating(st, floatType) {
      var a := s.(info := s.info[w := st.(bufferMapped := true, isFloating := true, needsCentering := true)]);
      ArrangeAllFramed(cfg, a);
      CoreKeepsCell(a.info, ArrangeAll(cfg, a).info, w);
      assert |ArrangeAll(cfg, a).monitors| == |a.monitors| by { FramedCount(cfg, a.monitors, ArrangeAll(cfg, a).monitors); }
    }
  }

  lemma FramedCount(cfg: Config, ms: seq<MonitorData>, ns: seq<MonitorData>)
    requires FramedMonitors(cfg, ms, ns)
    ensures |ns| == |ms|
  {
  }

  lemma CoreKeepsCell(a: Info, b: Info, w: Window)
    requires SameCore(a, b)
    ensures St(b, w) == St(a, w).(savedLoc := St(b, w).savedLoc, pendingGeom := St(b, w).pendingGeom, lastFocused := St(b, w).lastFocused)
  {
    assert St(b, w).Core() == St(a, w).Core();
  }

  /**
   A commit with a buffer: whether the window floats from then on, and, if it was waiting to be centred and
   its monitor exists, that it is centred there once and for all: on the screen if it is visible, and where it
   will come back to if not.
   */
  lemma BufferPlaces(cfg: Config, s: State, w: Window, width: int, height: int, floatType: bool)
    requires width > 0 && height > 0
    ensures var t := BufferCommit(cfg, s, w, width, height, floatType);
            var st := St(s.info, w);
            var centred := (st.needsCentering || BecomesFloating(st, floatType)) && st.monIdx < |s.monitors|;
            && t.windows == s.windows && t.focus == s.focus && |t.monitors| == |s.monitors|
            && St(t.info, w).bufferMapped
            && St(t.info, w).isFloating == (st.isFloating || BecomesFloating(st, floatType))
            && St(t.info, w).needsCentering == ((st.needsCentering || BecomesFloating(st, floatType)) && !centred)
            && (centred ==>
                  var loc := t.monitors[st.monIdx].Centre(width, height);
                  && (Shown(t, w) ==> LocOf(t.space, w) == Some(loc))
                  && (!Shown(t, w) ==> St(t.info, w).savedLoc == Some(loc)))
  {
    hide ArrangeAll, CentreWindow, LocOf, MonitorData.Centre, Shown, Mapped;
    var u := Mapped(cfg, s, w, floatType);
    MappedKeeps(cfg, s, w, floatType);
    BufferIsMappedThenCentred(cfg, s, w, width, height, floatType);
    if St(u.info, w).needsCentering && St(u.info, w).monIdx < |u.monitors| {
      CentreWindowPlaces(u, w, width, height);
      ShownSame(u, CentreWindow(u, w, width, height), w);
    } else if St(u.info, w).needsCentering {
      CentreNowhere(u, w, width, height);
    }
  }

  lemma BufferIsMappedThenCentred(cfg: Config, s: State, w: Window, width: int, height: int, floatType: bool)
    requires width > 0 && height > 0
    ensures var u := Mapped(cfg, s, w, floatType);
            BufferCommit(cfg, s, w, width, height, floatType)
            == if St(u.info, w).needsCentering then CentreWindow(u, w, width, height) else u
  {
    hide ArrangeAll, CentreWindow, St;
  }

  lemma CentreNowhere(s: State, w: Window, width: int, height: int)
    requires St(s.info, w).monIdx >= |s.monitors|
    ensures CentreWindow(s, w, width, height) == s
  {
  }
}
