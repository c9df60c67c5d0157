/** What a user's action achieves, across recording, viewing, arranging and refocusing. */
module Actions {
  import opened Sequences
  import opened Tags
  import opened History
  import opened Monitors
  import opened Windows
  import opened Desktop
  import opened Compositor
  import opened Frames
  import opened Invariant
  import opened Focusing

  ghost predicate SameTags(ms: seq<MonitorData>, ns: seq<MonitorData>) {
    |ns| == |ms| && forall i :: 0 <= i < |ms| ==> ns[i].tagset == ms[i].tagset && ns[i].selTags == ms[i].selTags
  }

  /** What the user sees as unchanged: what every monitor shows, the selected one, the windows and their kinds. */
  ghost predicate SameView(s: State, t: State) {
    && SameTags(s.monitors, t.monitors)
    && t.selMon == s.selMon && t.windows == s.windows && t.history == s.history
    && SameButUrgent(s.info, t.info)
  }

  lemma SameViewTransitive(s: State, t: State, u: State)
    requires SameView(s, t) && SameView(t, u)
    ensures SameView(s, u)
  {
    hide SameButUrgent, MonitorData.Tags;
    SameButUrgentTransitive(s.info, t.info, u.info);
  }

  lemma FramedTagsSame(cfg: Config, ms: seq<MonitorData>, ns: seq<MonitorData>)
    requires FramedMonitors(cfg, ms, ns)
    ensures SameTags(ms, ns)
  {
    hide MonitorData.LayoutsOk;
    forall i | 0 <= i < |ms|
      ensures ns[i].tagset == ms[i].tagset && ns[i].selTags == ms[i].selTags
    {
      assert ns[i].Core().tagset == ms[i].Core().tagset && ns[i].Core().selTags == ms[i].Core().selTags;
    }
  }

  lemma ArrangeAllSameView(cfg: Config, s: State)
    ensures SameView(s, ArrangeAll(cfg, s)) && ArrangeAll(cfg, s).focus == s.focus
    ensures FocusedWindow(ArrangeAll(cfg, s)) == FocusedWindow(s)
  {
    hide ArrangeAll, FramedMonitors, SameCore, SameButUrgent, SameTags, FocusedWindow;
    ArrangeAllFramed(cfg, s);
    FramedTagsSame(cfg, s.monitors, ArrangeAll(cfg, s).monitors);
    CoreKeepsRest(s.info, ArrangeAll(cfg, s).info, 0);
    FramedFocused(cfg, s, ArrangeAll(cfg, s));
  }

  /** Focusing a visible window of the selected monitor. */
  lemma FocusSameView(cfg: Config, s: State, w: Window)
    requires Meets(St(s.info, w).tags, SelTags(s)) && St(s.info, w).monIdx == s.selMon
    ensures var t := FocusWindow(cfg, s, Some(w));
            SameView(s, t) && FocusedWindow(t) == Some(w) && t.focus == ToFront(s.focus, w) && !St(t.info, w).isUrgent
  {
    hide FocusWindow, FramedMonitors, SameButUrgent, SameTags, SelTags, FocusedWindow, ToFront;
    FocusOnSelected(cfg, s, w);
    FocusWindowFramed(cfg, s, w);
    FramedTagsSame(cfg, s.monitors, FocusWindow(cfg, s, Some(w)).monitors);
  }

  /** Refocusing keeps the focused window; that window comes to the front of the stack. */
  lemma RefocusSameView(cfg: Config, s: State)
    ensures var t := Refocus(cfg, s);
            && SameView(s, t) && FocusedWindow(t) == FocusedWindow(s)
            && t.focus == if FocusedWindow(s).Some? then ToFront(s.focus, FocusedWindow(s).value) else s.focus
  {
    hide FocusWindow, SameButUrgent, SameTags, SelTags, ToFront, First, Meets;
    var w := FocusedWindow(s);
    if w.Some? {
      assert Sat(OnMonitor(SelTags(s), s.selMon), St(s.info, w.value));
      FocusSameView(cfg, s, w.value);
    } else {
      SameViewReflexive(s);
      assert Refocus(cfg, s) == s by { NoFocus(cfg, s); }
    }
  }

  lemma NoFocus(cfg: Config, s: State)
    ensures FocusWindow(cfg, s, None) == s
  {
  }

  lemma SameViewReflexive(s: State)
    ensures SameView(s, s)
  {
  }

  lemma RefocusArranged(cfg: Config, s: State)
    ensures var t := Refocus(cfg, ArrangeAll(cfg, s));
            && SameView(s, t) && FocusedWindow(t) == FocusedWindow(s)
            && t.focus == if FocusedWindow(s).Some? then ToFront(s.focus, FocusedWindow(s).value) else s.focus
  {
    hide *;
    ArrangeAllSameView(cfg, s);
    RefocusSameView(cfg, ArrangeAll(cfg, s));
    SameViewTransitive(s, ArrangeAll(cfg, s), Refocus(cfg, ArrangeAll(cfg, s)));
  }

  // Views.

  /**
   `view` shows exactly the configured tags of the mask on the selected monitor and nothing new on the
   others, records the tags left, and focuses the most recent window it makes visible.
   */
  lemma ViewShows(cfg: Config, s: State, mask: Mask)
    requires Inv(cfg, s) && s.selMon < |s.monitors| && mask * TagMask(cfg.tagCount) != {}
    ensures var t := View(cfg, s, mask);
            var i := s.selMon;
            var shown := mask * TagMask(cfg.tagCount);
            && t.selMon == i && t.windows == s.windows && SameButUrgent(s.info, t.info)
            && SelTags(t) == shown
            && |t.monitors| == |s.monitors|
            && (forall j :: 0 <= j < |s.monitors| && j != i ==> t.monitors[j].Tags() == s.monitors[j].Tags())
            && t.history == s.history[i := Update(s.history[i], SelTags(s), mask)]
            && FocusedWindow(t) == First(OnMonitor(shown, i), s.info, s.focus)
            && t.focus == if FocusedWindow(t).Some? then ToFront(s.focus, FocusedWindow(t).value) else s.focus
  {
    hide Refocus, ArrangeAll, SameButUrgent, First, ToFront, Update, MonitorData.View;
    var i := s.selMon;
    MonitorAt(cfg, s, i);
    ViewTags(s.monitors[i], cfg, mask);
    var u := ViewOn(cfg, RecordTags(s, i, mask), i, mask);
    assert u.monitors[i] == s.monitors[i].View(cfg, mask);
    RefocusArranged(cfg, u);
  }

  lemma PrevTags(cfg: Config, m: MonitorData)
    ensures m.ViewPrev(cfg).Tags() == m.tagset.At(1 - m.selTags)
  {
    hide MonitorData.ApplyPertag;
    ApplyPertagKeeps(m.(selTags := 1 - m.selTags), cfg, m.tagset.At(1 - m.selTags));
  }

  lemma ViewPrevShows(cfg: Config, s: State)
    requires s.selMon < |s.monitors|
    ensures var t := ViewPrev(cfg, s);
            var m := s.monitors[s.selMon];
            && t.selMon == s.selMon && t.windows == s.windows && SameButUrgent(s.info, t.info)
            && SelTags(t) == m.tagset.At(1 - m.selTags)
            && |t.monitors| == |s.monitors|
            && (forall j :: 0 <= j < |s.monitors| && j != s.selMon ==> t.monitors[j].Tags() == s.monitors[j].Tags())
            && FocusedWindow(t) == First(OnMonitor(SelTags(t), s.selMon), s.info, s.focus)
  {
    hide Refocus, ArrangeAll, SameButUrgent, First, ToFront, Update, MonitorData.ViewPrev;
    var i := s.selMon;
    var m := s.monitors[i];
    var u := RecordTags(s, i, m.tagset.At(1 - m.selTags)).(monitors := s.monitors[i := m.ViewPrev(cfg)]);
    PrevTags(cfg, m);
    assert u.monitors[i] == m.ViewPrev(cfg);
    RefocusArranged(cfg, u);
  }

  lemma FirstQuiet(q: Query, a: Info, b: Info, ws: seq<Window>)
    requires SameButUrgent(a, b) && !q.Urgent?
    ensures First(q, a, ws) == First(q, b, ws)
  {
    hide SameButUrgent, Select;
    QuietSelect(q, a, b, ws);
    FirstIsHead(q, a, ws);
    FirstIsHead(q, b, ws);
  }

  /** Bringing a window to the front decides the first match exactly when that window is one. */
  lemma FirstToFront(q: Query, info: Info, ws: seq<Window>, x: Window)
    ensures First(q, info, ToFront(ws, x)) == if Sat(q, St(info, x)) then Some(x) else First(q, info, ws)
  {
    hide Sat, Select, Without;
    assert ToFront(ws, x)[1..] == Without(ws, x);
    if !Sat(q, St(info, x)) {
      FirstIsHead(q, info, ws);
      FirstIsHead(q, info, Without(ws, x));
      SelectWithout(q, info, ws, x);
    }
  }

  /**
   A view and `view_prev` bring back the tags on every monitor.  The focus comes back too, unless the
   window focused in between is visible on both views.
   */
  lemma ViewThenBack(cfg: Config, s: State, mask: Mask)
    requires Inv(cfg, s) && s.selMon < |s.monitors|
    requires mask * TagMask(cfg.tagCount) != {} && mask * TagMask(cfg.tagCount) != SelTags(s)
    ensures var t := View(cfg, s, mask);
            var u := ViewPrev(cfg, t);
            && u.selMon == s.selMon && u.windows == s.windows && SameButUrgent(s.info, u.info)
            && |u.monitors| == |s.monitors|
            && (forall j :: 0 <= j < |s.monitors| ==> u.monitors[j].Tags() == s.monitors[j].Tags())
            && FocusedWindow(u) == if FocusedWindow(t).Some? && Meets(St(s.info, FocusedWindow(t).value).tags, SelTags(s))
                                   then FocusedWindow(t) else FocusedWindow(s)
  {
    hide View, ViewPrev, SameButUrgent, First, ToFront, Update, FocusedWindow, Meets;
    var i := s.selMon;
    var t := View(cfg, s, mask);
    ViewShows(cfg, s, mask);
    ViewOtherSlot(cfg, s, mask);
    ViewPrevShows(cfg, t);
    SameButUrgentTransitive(s.info, t.info, ViewPrev(cfg, t).info);
    var q := OnMonitor(SelTags(s), i);
    FirstQuiet(q, s.info, t.info, t.focus);
    if FocusedWindow(t).Some? {
      FirstToFront(q, s.info, s.focus, FocusedWindow(t).value);
    }
    assert FocusedWindow(s) == First(q, s.info, s.focus) by { FocusIsFirst(s); }
  }

  lemma FocusIsFirst(s: State)
    ensures FocusedWindow(s) == First(OnMonitor(SelTags(s), s.selMon), s.info, s.focus)
  {
  }

  lemma OtherSlot(m: MonitorData, cfg: Config, mask: Mask)
    requires mask * TagMask(cfg.tagCount) != {} && mask * TagMask(cfg.tagCount) != m.Tags()
    ensures var r := m.View(cfg, mask);
            r.tagset.At(1 - r.selTags) == m.Tags()
  {
    hide MonitorData.ApplyPertag;
    var tags := mask * TagMask(cfg.tagCount);
    ApplyPertagKeeps(m.(selTags := 1 - m.selTags, tagset := m.tagset.Put(1 - m.selTags, tags)), cfg, tags);
  }

  lemma ViewOtherSlot(cfg: Config, s: State, mask: Mask)
    requires s.selMon < |s.monitors|
    requires mask * TagMask(cfg.tagCount) != {} && mask * TagMask(cfg.tagCount) != SelTags(s)
    ensures var t := View(cfg, s, mask);
            |t.monitors| == |s.monitors|
            && var m := t.monitors[s.selMon];
            m.tagset.At(1 - m.selTags) == SelTags(s)
  {
    hide Refocus, ArrangeAll, SameButUrgent, First, ToFront, Update, FocusedWindow, MonitorData.View;
    var i := s.selMon;
    OtherSlot(s.monitors[i], cfg, mask);
    var u := ViewOn(cfg, RecordTags(s, i, mask), i, mask);
    assert u.monitors[i] == s.monitors[i].View(cfg, mask);
    RefocusArranged(cfg, u);
  }

  /**
   `toggle_view` shows the views' difference with the mask on the selected monitor, unless that would leave
   nothing; only then is the view left recorded.  Other views and all windows stay as they were.
   */
  lemma ToggleViewShows(cfg: Config, s: State, mask: Mask)
    requires s.selMon < |s.monitors| == |s.history|
    ensures var t := ToggleView(cfg, s, mask);
            var i := s.selMon;
            var shown := Xor(SelTags(s), mask) * TagMask(cfg.tagCount);
            && t.selMon == i && t.windows == s.windows && SameButUrgent(s.info, t.info)
            && SelTags(t) == (if shown == {} then SelTags(s) else shown)
            && |t.monitors| == |s.monitors|
            && (forall j :: 0 <= j < |s.monitors| && j != i ==> t.monitors[j].Tags() == s.monitors[j].Tags())
            && t.history == (if shown == {} then s.history else s.history[i := Update(s.history[i], SelTags(s), shown)])
            && FocusedWindow(t) == First(OnMonitor(SelTags(t), i), s.info, s.focus)
  {
    hide Refocus, ArrangeAll, SameButUrgent, First, ToFront, Update, Xor, TagMask;
    var i := s.selMon;
    var shown := Xor(s.monitors[i].Tags(), mask) * TagMask(cfg.tagCount);
    var v := if shown != {} then RecordTags(s, i, shown) else s;
    var u := v.(monitors := v.monitors[i := v.monitors[i].ToggleView(cfg, mask)]);
    RefocusArranged(cfg, u);
  }

  /** Toggling the same mask twice shows the same tags again. */
  lemma ToggleViewTwice(cfg: Config, s: State, mask: Mask)
    requires Inv(cfg, s) && s.selMon < |s.monitors|
    ensures var u := ToggleView(cfg, ToggleView(cfg, s, mask), mask);
            u.selMon == s.selMon && SelTags(u) == SelTags(s)
  {
    hide ToggleView, SelTags, Inv, FocusedWindow, SameButUrgent, First, Update;
    ToggleParts(cfg, s);
    ToggleViewShows(cfg, s, mask);
    var t := ToggleView(cfg, s, mask);
    InvToggleView(cfg, s, mask);
    ToggleParts(cfg, t);
    ToggleViewShows(cfg, t, mask);
    var all := TagMask(cfg.tagCount);
    assert Xor(Xor(SelTags(s), mask) * all, mask) * all == SelTags(s);
  }

  lemma ToggleParts(cfg: Config, s: State)
    requires Inv(cfg, s) && s.selMon < |s.monitors|
    ensures |s.history| == |s.monitors| && SelTags(s) <= TagMask(cfg.tagCount) && SelTags(s) != {}
  {
    hide ListsOk, CellsOk, StraysOk;
    MonitorAt(cfg, s, s.selMon);
  }

  lemma {:induction false} OccupiedAt(info: Info, ws: seq<Window>, t: nat)
    ensures t in OccupiedTags(info, ws) <==> exists w :: w in ws && t in St(info, w).tags
  {
    if ws != [] {
      var n := |ws| - 1;
      OccupiedAt(info, ws[..n], t);
      assert ws == ws[..n] + [ws[n]];
    }
  }

  /**
   Going to the next occupied tag shows the nearest tag in that direction that some window, on any monitor,
   is on; with no window on a tag nothing changes.
   */
  lemma ViewNextOccShows(cfg: Config, s: State, dir: int) returns (d: nat)
    requires cfg.Sane() && Inv(cfg, s) && s.selMon < |s.monitors| && (dir == 1 || dir == -1)
    ensures SelTags(s) <= TagMask(MASK_BITS) && SelTags(s) != {}
    ensures var t := ViewNextOccTag(cfg, s, dir);
            var top := Highest(SelTags(s));
            if exists w :: w in s.windows && St(s.info, w).tags != {} then
              && FirstHit(top, OccupiedTags(s.info, s.windows), dir, cfg.tagCount, 1, d)
              && SelTags(t) == {Reach(top, dir, cfg.tagCount, d)} && t.selMon == s.selMon
              && |t.monitors| == |s.monitors|
              && (forall j :: 0 <= j < |s.monitors| && j != s.selMon ==> t.monitors[j].Tags() == s.monitors[j].Tags())
            else t == s
  {
    hide View, SelTags, OccupiedTags, NextOccupied, Highest, FirstHit, Inv, Reach;
    ToggleParts(cfg, s);
    var occupied := OccupiedTags(s.info, s.windows);
    d := NextOccupiedIsNearest(SelTags(s), occupied, dir, cfg.tagCount);
    SomeOccupied(cfg, s);
    var next := NextOccupied(SelTags(s), occupied, dir, cfg.tagCount);
    if next.Some? {
      var k := Reach(Highest(SelTags(s)), dir, cfg.tagCount, d);
      assert {k} * TagMask(cfg.tagCount) == {k};
      ViewShows(cfg, s, next.value);
    }
  }

  lemma SomeOccupied(cfg: Config, s: State)
    requires Inv(cfg, s)
    ensures (exists t :: t in OccupiedTags(s.info, s.windows) && t < cfg.tagCount)
            <==> exists w :: w in s.windows && St(s.info, w).tags != {}
  {
    hide Inv;
    if w :| w in s.windows && St(s.info, w).tags != {} {
      StateAt(cfg, s, w);
      var t :| t in St(s.info, w).tags;
      OccupiedAt(s.info, s.windows, t);
    }
    if t :| t in OccupiedTags(s.info, s.windows) && t < cfg.tagCount {
      OccupiedAt(s.info, s.windows, t);
    }
  }

  lemma {:induction false} OccupiedQuiet(a: Info, b: Info, ws: seq<Window>)
    requires SameButUrgent(a, b)
    ensures OccupiedTags(a, ws) == OccupiedTags(b, ws)
  {
    hide SameButUrgent;
    if ws != [] {
      OccupiedQuiet(a, b, ws[..|ws| - 1]);
      UrgentDoesNotMatter(a, b, ws[|ws| - 1], IsX11);
    }
  }

  /** From a single occupied tag, going to the next occupied tag and back shows it again. */
  lemma ViewNextOccReturns(cfg: Config, s: State, dir: int, t: nat)
    requires cfg.Sane() && Inv(cfg, s) && s.selMon < |s.monitors| && (dir == 1 || dir == -1)
    requires SelTags(s) == {t} && exists w :: w in s.windows && t in St(s.info, w).tags
    ensures var u := ViewNextOccTag(cfg, ViewNextOccTag(cfg, s, dir), -dir);
            u.selMon == s.selMon && SelTags(u) == {t}
  {
    hide View, SelTags, OccupiedTags, NextOccupied, Inv, SameButUrgent;
    ToggleParts(cfg, s);
    var occupied := OccupiedTags(s.info, s.windows);
    OccupiedAt(s.info, s.windows, t);
    assert t in TagMask(cfg.tagCount);
    NextOccupiedRoundTrip(t, occupied, dir, cfg.tagCount);
    var there := NextOccupied({t}, occupied, dir, cfg.tagCount).value;
    assert there * TagMask(cfg.tagCount) == there;
    ViewShows(cfg, s, there);
    var v := View(cfg, s, there);
    assert ViewNextOccTag(cfg, s, dir) == v;
    OccupiedQuiet(s.info, v.info, s.windows);
    InvView(cfg, s, there);
    assert {t} * TagMask(cfg.tagCount) == {t};
    ViewShows(cfg, v, {t});
  }

  // Moving windows.

  /** How many windows are ahead of `w` in the list. */
  function Ahead(ws: seq<Window>, w: Window): (n: nat)
    requires w in ws
    ensures n < |ws| && ws[n] == w && w !in ws[..n]
  {
    Find(ws, w).value
  }

  /** None of them matches. */
  ghost predicate NoneAhead(q: Query, info: Info, ws: seq<Window>, w: Window)
    requires w in ws
  {
    forall k :: 0 <= k < Ahead(ws, w) ==> !Sat(q, St(info, ws[k]))
  }

  lemma {:induction false} FirstIff(q: Query, info: Info, ws: seq<Window>, w: Window)
    requires w in ws
    ensures First(q, info, ws) == Some(w) <==> Sat(q, St(info, w)) && NoneAhead(q, info, ws, w)
  {
    hide Sat;
    if ws[0] != w {
      var rest := ws[1..];
      FirstIff(q, info, rest, w);
      assert Ahead(ws, w) == Ahead(rest, w) + 1;
      forall k | 0 <= k < Ahead(rest, w)
        ensures rest[k] == ws[k + 1]
      {
      }
      if !Sat(q, St(info, ws[0])) && NoneAhead(q, info, rest, w) {
        forall k | 0 <= k < Ahead(ws, w)
          ensures !Sat(q, St(info, ws[k]))
        {
          assert k > 0 ==> ws[k] == rest[k - 1];
        }
      }
    }
  }

  lemma AheadElsewhere(q: Query, a: Info, b: Info, ws: seq<Window>, w: Window)
    requires w in ws && forall v :: v != w ==> St(a, v) == St(b, v)
    ensures NoneAhead(q, a, ws, w) <==> NoneAhead(q, b, ws, w)
  {
    hide Sat;
    assert forall k :: 0 <= k < Ahead(ws, w) ==> ws[k] in ws[..Ahead(ws, w)];
  }

  /**
   Retagging the focused window.  It keeps the focus exactly when it stays visible and no window ahead
   of it in the focus stack becomes visible, which can only happen when the view follows.
   */
  lemma TagRetags(cfg: Config, s: State, mask: Mask, w: Window)
    requires Inv(cfg, s) && FocusedWindow(s) == Some(w) && mask * TagMask(cfg.tagCount) != {}
    ensures var t := Tag(cfg, s, mask);
            var tags := mask * TagMask(cfg.tagCount);
            && t.selMon == s.selMon && t.windows == s.windows
            && SameButUrgent(WithTags(s.info, w, tags), t.info)
            && SelTags(t) == (if cfg.follow then tags else SelTags(s))
            && w in s.focus
            && (FocusedWindow(t) == Some(w) <==>
                  Meets(tags, SelTags(t)) && NoneAhead(OnMonitor(SelTags(t), s.selMon), s.info, s.focus, w))
            && (!cfg.follow ==> NoneAhead(OnMonitor(SelTags(t), s.selMon), s.info, s.focus, w))
  {
    hide Refocus, ArrangeAll, SameButUrgent, ToFront, Update, MonitorData.View, Inv, First, NoneAhead, Meets;
    var i := s.selMon;
    var tags := mask * TagMask(cfg.tagCount);
    FocusedOnMonitor(s, w);
    MonitorAt(cfg, s, i);
    assert tags * TagMask(cfg.tagCount) == tags;
    ViewTags(s.monitors[i], cfg, tags);
    var t := s.(info := WithTags(s.info, w, tags));
    var u := if cfg.follow then ViewOn(cfg, RecordTags(t, i, tags), i, tags) else t;
    RefocusArranged(cfg, u);
    assert SelTags(u) == if cfg.follow then tags else SelTags(s);
    var q := OnMonitor(SelTags(u), i);
    FirstIff(q, t.info, s.focus, w);
    FirstIff(OnMonitor(SelTags(s), i), s.info, s.focus, w);
    AheadElsewhere(q, s.info, t.info, s.focus, w);
  }

  lemma FocusedOnMonitor(s: State, w: Window)
    requires FocusedWindow(s) == Some(w)
    ensures s.selMon < |s.monitors| && Meets(St(s.info, w).tags, SelTags(s)) && St(s.info, w).monIdx == s.selMon && w in s.focus
  {
  }

  // Moving between monitors.

  lemma ThereAndBack(n: nat, from: nat, dir: int, back: int)
    requires from < n && n >= 2 && Sign(back) == -Sign(dir)
    ensures var there := DirToMonitor(n, from, dir);
            && there.Some? && there.value < n && there.value != from
            && DirToMonitor(n, there.value, back) == Some(from)
  {
    Wrap(from + 1, n);
    Wrap(from + n - 1, n);
    var there := DirToMonitor(n, from, dir).value;
    Wrap(there + 1, n);
    Wrap(there + n - 1, n);
  }

  lemma Wrap(x: nat, n: nat)
    requires 1 <= n && x < 2 * n
    ensures x % n == if x < n then x else x - n
  {
    ModPlusMultiple(if x < n then x else x - n, if x < n then 0 else 1, n);
  }

  lemma RefocusThenArrange(cfg: Config, s: State)
    ensures var t := ArrangeAll(cfg, Refocus(cfg, s));
            && SameView(s, t) && FocusedWindow(t) == FocusedWindow(s)
            && t.focus == if FocusedWindow(s).Some? then ToFront(s.focus, FocusedWindow(s).value) else s.focus
  {
    hide *;
    RefocusSameView(cfg, s);
    ArrangeAllSameView(cfg, Refocus(cfg, s));
    SameViewTransitive(s, Refocus(cfg, s), ArrangeAll(cfg, Refocus(cfg, s)));
  }

  /** Selecting a neighbouring monitor and coming back leaves selection, views and focus as they were. */
  lemma FocusMonThereAndBack(cfg: Config, s: State, dir: int, back: int)
    requires s.selMon < |s.monitors| && |s.monitors| >= 2 && Sign(back) == -Sign(dir)
    ensures var u := FocusMon(cfg, FocusMon(cfg, s, dir), back);
            SameView(s, u) && FocusedWindow(u) == FocusedWindow(s)
  {
    hide Refocus, ArrangeAll, SameButUrgent, First, ToFront, DirToMonitor, Meets;
    var i := s.selMon;
    ThereAndBack(|s.monitors|, i, dir, back);
    var j := DirToMonitor(|s.monitors|, i, dir).value;
    var a := s.(selMon := j);
    var t := ArrangeAll(cfg, Refocus(cfg, a));
    RefocusThenArrange(cfg, a);
    var b := t.(selMon := i);
    RefocusThenArrange(cfg, b);
    var q := OnMonitor(SelTags(s), i);
    assert SelTags(b) == SelTags(s);
    FirstQuiet(q, s.info, t.info, t.focus);
    if FocusedWindow(a).Some? {
      FirstToFront(q, s.info, s.focus, FocusedWindow(a).value);
    }
    SameButUrgentTransitive(s.info, t.info, ArrangeAll(cfg, Refocus(cfg, b)).info);
  }

  /**
   Sending the focused window to another monitor: it becomes visible there, nothing else moves, and it
   keeps the focus exactly when the view follows it.
   */
  lemma TagMonSends(cfg: Config, s: State, dir: int, w: Window)
    requires Inv(cfg, s) && FocusedWindow(s) == Some(w) && |s.monitors| >= 2
    ensures var t := TagMon(cfg, s, dir);
            var next := DirToMonitor(|s.monitors|, s.selMon, dir);
            && next.Some? && next.value < |s.monitors| && next.value != s.selMon
            && var tags := s.monitors[next.value].Tags();
            && tags != {}
            && SameButUrgent(s.info[w := St(s.info, w).(tags := tags, monIdx := next.value)], t.info)
            && SameTags(s.monitors, t.monitors) && t.windows == s.windows
            && t.selMon == (if cfg.follow then next.value else s.selMon)
            && (FocusedWindow(t) == Some(w) <==> cfg.follow)
  {
    hide FocusWindow, ArrangeAll, SameButUrgent, First, ToFront, DirToMonitor, Inv, Meets;
    FocusedOnMonitor(s, w);
    ThereAndBack(|s.monitors|, s.selMon, dir, -Sign(dir));
    var next := DirToMonitor(|s.monitors|, s.selMon, dir).value;
    MonitorAt(cfg, s, next);
    var tags := s.monitors[next].Tags();
    TagsMeetThemselves(cfg, s.monitors[next]);
    var a := s.(info := s.info[w := St(s.info, w).(tags := tags, monIdx := next)]);
    if cfg.follow {
      var b := a.(selMon := next);
      FocusSameView(cfg, b, w);
      var c := FocusWindow(cfg, b, Some(w));
      ArrangeAllSameView(cfg, c);
      SameViewTransitive(b, c, ArrangeAll(cfg, c));
    } else {
      ArrangeAllSameView(cfg, a);
      assert FocusedWindow(a) != Some(w);
    }
  }

  lemma TagsMeetThemselves(cfg: Config, m: MonitorData)
    requires m.TagsOk(cfg)
    ensures m.Tags() != {} && Meets(m.Tags(), m.Tags())
  {
    var t :| t in m.Tags();
    assert t in m.Tags() * m.Tags();
  }

  // Urgency.

  function FirstUrgent(s: State): Option<Window> {
    var stacked := First(Urgent, s.info, s.focus);
    if stacked.Some? then stacked else First(Urgent, s.info, s.windows)
  }

  /**
   The first urgent window loses its hint and its monitor becomes the selected one.  It ends up visible
   and focused unless it is hidden with no tags, or there is no monitor.
   */
  lemma FocusUrgentReaches(cfg: Config, s: State, w: Window)
    requires Inv(cfg, s) && FirstUrgent(s) == Some(w)
    ensures var t := FocusUrgent(cfg, s);
            var st := St(s.info, w);
            && t.selMon == st.monIdx && t.windows == s.windows
            && SameButUrgent(s.info, t.info) && !St(t.info, w).isUrgent
            && |t.monitors| == |s.monitors|
            && (forall j :: 0 <= j < |s.monitors| && (j != st.monIdx || st.tags == {}) ==> t.monitors[j].Tags() == s.monitors[j].Tags())
            && (FocusedWindow(t) == Some(w) <==> st.tags != {} && s.monitors != [])
            && (st.tags != {} && s.monitors != [] ==> SelTags(t) == st.tags)
  {
    hide FocusWindow, ArrangeAll, SameButUrgent, First, ToFront, Inv, MonitorData.View, Meets, FocusedWindow;
    var st := St(s.info, w);
    UrgentIsHeld(s);
    HeldCellOk(cfg, s, w);
    var a := s.(selMon := st.monIdx);
    var b := if st.tags != {} then ViewOn(cfg, a, st.monIdx, st.tags) else a;
    if st.tags != {} && s.monitors != [] {
      MonitorAt(cfg, s, st.monIdx);
      assert st.tags * TagMask(cfg.tagCount) == st.tags;
      ViewTags(s.monitors[st.monIdx], cfg, st.tags);
      assert SelTags(b) == st.tags;
    }
    var c := ArrangeAll(cfg, b);
    ArrangeAllSameView(cfg, b);
    FocusWindowFramed(cfg, c, w);
    UrgentDoesNotMatter(s.info, c.info, w, IsX11);
    var t := FocusWindow(cfg, c, Some(w));
    FramedTagsSame(cfg, c.monitors, t.monitors);
    SameButUrgentTransitive(s.info, c.info, t.info);
    UrgentDoesNotMatter(s.info, t.info, w, IsX11);
    FocusedFirst(t, w);
    MeetsItself(st.tags);
    MeetsItself(SelTags(t));
    assert s.monitors != [] && st.tags != {} ==> SelTags(t) == st.tags;
    assert FocusedWindow(t) == Some(w) <==> st.tags != {} && s.monitors != [];
  }

  lemma MeetsItself(m: Mask)
    ensures Meets(m, m) <==> m != {}
    ensures !Meets(m, {}) && !Meets({}, m)
  {
    if t :| t in m {
      assert t in m * m;
    }
  }

  /** The window at the front of the stack is focused exactly when it is visible on the selected monitor. */
  lemma FocusedFirst(t: State, w: Window)
    requires t.focus != [] && t.focus[0] == w
    ensures FocusedWindow(t) == Some(w) <==> Meets(St(t.info, w).tags, SelTags(t)) && St(t.info, w).monIdx == t.selMon
  {
    hide Meets;
  }

  lemma UrgentIsHeld(s: State)
    ensures FirstUrgent(s).Some? ==> Held(s, FirstUrgent(s).value)
  {
    hide First;
  }

  // Windows coming and going.

  /** A new toplevel takes the focus and the first place in tiling order; every view stays as it was. */
  lemma OpenedIsFocused(cfg: Config, s: State, w: Window)
    requires Inv(cfg, s) && s.monitors != []
    ensures var t := NewToplevel(cfg, s, w);
            && FocusedWindow(t) == Some(w)
            && t.windows == [w] + s.windows && t.focus == ToFront(s.focus, w)
            && t.selMon == s.selMon && SameTags(s.monitors, t.monitors)
            && (forall v :: v != w ==> St(t.info, v).Core() == St(s.info, v).Core())
  {
    hide ArrangeBoth, ToFront, MapElement, Inv, Meets, MonitorData.Core, WindowState.Core, MonitorData.LayoutsOk, SameTags;
    SelectedExists(cfg, s);
    MonitorAt(cfg, s, s.selMon);
    TagsMeetThemselves(cfg, s.monitors[s.selMon]);
    var st := NewWindowState.(tags := InitialTags(s), monIdx := s.selMon);
    var a := s.(info := s.info[w := st], space := MapElement(s.space, w, BaseLoc(s)), windows := [w] + s.windows, focus := ToFront(s.focus, w));
    assert FocusedWindow(a) == Some(w) by { FocusedFirst(a, w); }
    SameViewReflexive(s);
    ArrangeBothFramed(cfg, a, s.selMon, FrontMonitor(s));
    var t := ArrangeBoth(cfg, a, s.selMon, FrontMonitor(s));
    FramedFocused(cfg, a, t);
    FramedTagsSame(cfg, s.monitors, t.monitors);
  }

  lemma SelectedExists(cfg: Config, s: State)
    requires Inv(cfg, s) && s.monitors != []
    ensures s.selMon < |s.monitors|
  {
  }

  /** Arranging never touches a window that is not managed, such as a popup. */
  lemma ArrangeUnmanaged(cfg: Config, s: State, i: nat, w: Window)
    requires w !in s.windows
    ensures LocOf(Arrange(cfg, s, i).space, w) == LocOf(s.space, w)
  {
    hide RunPass, Select, ArrangedMonitor, FocusedOn, LocOf, WindowState.Core;
    if i < |s.monitors| {
      var loc, area, focused := s.monitors[i].work.loc, s.monitors[i].area, FocusedOn(s, i);
      PassFrame(HidePass, Desk(s.space, s.info), HiddenOf(s));
      PassFrame(TilePassOf(cfg, s, i), HiddenDesk(s), TiledOf(s, i));
      PassFrame(FloatPass(loc, focused), TiledDesk(cfg, s, i), FloatingOf(s, i));
      PassFrame(FullPass(area, focused), FloatingDesk(cfg, s, i), FullscreenOf(s, i));
      PassFrame(ScratchPass(loc), FullscreenDesk(cfg, s, i), ScratchOf(s, i));
    }
  }

  lemma {:induction false} ArrangeUpToUnmanaged(cfg: Config, s: State, k: nat, w: Window)
    requires w !in s.windows
    ensures LocOf(ArrangeUpTo(cfg, s, k).space, w) == LocOf(s.space, w)
  {
    hide Arrange, LocOf, FramedMonitors, SameCore;
    if k > 0 {
      ArrangeUpToUnmanaged(cfg, s, k - 1, w);
      ArrangeUpToFramed(cfg, s, k - 1);
      ArrangeUnmanaged(cfg, ArrangeUpTo(cfg, s, k - 1), k - 1, w);
    }
  }

  lemma ArrangeAllUnmanaged(cfg: Config, s: State, w: Window)
    requires w !in s.windows
    ensures LocOf(ArrangeAll(cfg, s).space, w) == LocOf(s.space, w)
  {
    hide ArrangeUpTo, LocOf;
    ArrangeUpToUnmanaged(cfg, s.(monitors := Refits(s.monitors)), |s.monitors|, w);
  }

  lemma ArrangeBothUnmanaged(cfg: Config, s: State, mon: nat, prev: Option<nat>, w: Window)
    requires w !in s.windows
    ensures LocOf(ArrangeBoth(cfg, s, mon, prev).space, w) == LocOf(s.space, w)
  {
    hide Arrange, LocOf, FramedMonitors, SameCore;
    ArrangeUnmanaged(cfg, s, mon, w);
    ArrangeFramed(cfg, s, mon);
    if prev.Some? {
      ArrangeUnmanaged(cfg, Arrange(cfg, s, mon), prev.value, w);
    }
  }

  lemma FocusUnmanaged(cfg: Config, s: State, v: Option<Window>, w: Window)
    requires w !in s.windows
    ensures LocOf(FocusWindow(cfg, s, v).space, w) == LocOf(s.space, w)
  {
    hide ArrangeBoth, LocOf, ToFront;
    if v.Some? {
      var t := s.(info := WithUrgent(s.info, v.value, false), focus := ToFront(s.focus, v.value));
      var mon := St(t.info, v.value).monIdx;
      ArrangeBothUnmanaged(cfg, t.(selMon := mon), mon, FrontMonitor(s), w);
    }
  }

  /**
   A destroyed toplevel is gone from both lists and from the space, every view stays as it was, and the
   focus goes to the master in the tiling layout if the window was ever seen, and otherwise to the most
   recent visible window.
   */
  lemma DestroyedIsGone(cfg: Config, s: State, w: Window)
    requires Inv(cfg, s)
    ensures var t := ToplevelDestroyed(cfg, s, w);
            var rest := s.(windows := Without(s.windows, w), focus := Without(s.focus, w), space := UnmapElem(s.space, w));
            var master := if St(s.info, w).bufferMapped then TileMasterWindow(cfg, rest) else None;
            && SameView(rest, t)
            && w !in t.windows && w !in t.focus && LocOf(t.space, w) == None
            && FocusedWindow(t) == if master.Some? then master else FocusedWindow(s.(focus := Without(s.focus, w)))
  {
    hide FocusWindow, ArrangeAll, SameButUrgent, SameTags, First, Inv, LocOf, Without, UnmapElem, ToFront, Meets, FocusedWindow, TileMasterWindow, SelTags;
    var rest := s.(windows := Without(s.windows, w), focus := Without(s.focus, w), space := UnmapElem(s.space, w));
    var master := if St(s.info, w).bufferMapped then TileMasterWindow(cfg, rest) else None;
    FocusedSame(rest, s.(focus := Without(s.focus, w)));
    var top := if master.Some? then master else FocusedWindow(rest);
    var c := FocusWindow(cfg, rest, top);
    TopVisible(cfg, rest);
    FocusUnmanaged(cfg, rest, top, w);
    if top.Some? {
      FocusSameView(cfg, rest, top.value);
    } else {
      NoFocus(cfg, rest);
      SameViewReflexive(rest);
    }
    assert SameView(rest, c) && FocusedWindow(c) == top && w !in c.focus;
    ArrangeAllSameView(cfg, c);
    SameViewTransitive(rest, c, ArrangeAll(cfg, c));
    ArrangeAllUnmanaged(cfg, c, w);
  }

  lemma FocusedSame(a: State, b: State)
    requires a.monitors == b.monitors && a.selMon == b.selMon && a.info == b.info && a.focus == b.focus
    ensures FocusedWindow(a) == FocusedWindow(b)
  {
  }

  lemma TopVisible(cfg: Config, s: State)
    ensures var f := FocusedWindow(s);
            f.Some? ==> f.value in s.focus && Meets(St(s.info, f.value).tags, SelTags(s)) && St(s.info, f.value).monIdx == s.selMon
    ensures var m := TileMasterWindow(cfg, s);
            m.Some? ==> m.value in s.windows && Meets(St(s.info, m.value).tags, SelTags(s)) && St(s.info, m.value).monIdx == s.selMon
  {
    hide Meets, First;
  }
}
