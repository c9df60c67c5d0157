/** Cycling focus through the visible windows, and promoting windows to master. */
module Focusing {
  import opened Sequences
  import opened Tags
  import opened Monitors
  import opened Windows
  import opened Compositor
  import opened Frames
  import opened Invariant

  function Eligible(s: State): seq<Window> {
    Select(Steppable(SelTags(s), s.selMon), s.info, s.windows)
  }

  function Candidates(s: State): seq<Window> {
    Select(ZoomCandidate(SelTags(s), s.selMon), s.info, s.windows)
  }

  // Focusing a window of the selected monitor.

  lemma FramedSelTags(cfg: Config, s: State, t: State)
    requires FramedMonitors(cfg, s.monitors, t.monitors) && t.selMon == s.selMon
    ensures SelTags(t) == SelTags(s)
  {
    hide MonitorData.LayoutsOk;
    if s.selMon < |s.monitors| {
      assert t.monitors[s.selMon].Core().Tags() == s.monitors[s.selMon].Core().Tags();
    }
  }

  lemma QuietSelect(q: Query, a: Info, b: Info, ws: seq<Window>)
    requires SameButUrgent(a, b) && !q.Urgent?
    ensures Select(q, a, ws) == Select(q, b, ws)
  {
    hide Sat, WindowState.Quiet;
    forall w | w in ws
      ensures Sat(q, St(a, w)) == Sat(q, St(b, w))
    {
      UrgentDoesNotMatter(a, b, w, q);
    }
    SelectSame(q, a, b, ws);
  }

  /** Focusing a visible window of the selected monitor keeps the monitor and makes it the focused one. */
  lemma FocusOnSelected(cfg: Config, s: State, w: Window)
    requires Meets(St(s.info, w).tags, SelTags(s)) && St(s.info, w).monIdx == s.selMon
    ensures var t := FocusWindow(cfg, s, Some(w));
            && t.selMon == s.selMon && SelTags(t) == SelTags(s) && t.windows == s.windows
            && SameButUrgent(s.info, t.info)
            && FocusedWindow(t) == Some(w)
  {
    hide FocusWindow, FramedMonitors, SameButUrgent, SelTags;
    var t := FocusWindow(cfg, s, Some(w));
    FocusWindowFramed(cfg, s, w);
    FramedSelTags(cfg, s, t);
    UrgentDoesNotMatter(s.info, t.info, w, IsX11);
    assert t.focus[0] == w;
    hide ToFront;
  }

  lemma ArrangeAllKeepsView(cfg: Config, s: State)
    ensures var t := ArrangeAll(cfg, s);
            && t.selMon == s.selMon && SelTags(t) == SelTags(s) && t.windows == s.windows
            && SameButUrgent(s.info, t.info)
            && FocusedWindow(t) == FocusedWindow(s)
  {
    hide ArrangeAll, FramedMonitors, SameCore, SameButUrgent, SelTags, FocusedWindow;
    ArrangeAllFramed(cfg, s);
    FramedFocused(cfg, s, ArrangeAll(cfg, s));
    FramedTags(cfg, s, ArrangeAll(cfg, s));
    CoreKeepsRest(s.info, ArrangeAll(cfg, s).info, 0);
  }

  // The focus cycle.

  function Sign(dir: int): int {
    if dir > 0 then 1 else -1
  }

  function StepTimes(cfg: Config, s: State, dir: int, k: nat): State {
    if k == 0 then s else FocusStackStep(cfg, StepTimes(cfg, s, dir, k - 1), dir)
  }

  lemma FindUnique(xs: seq<Window>, p: nat)
    requires NoDup(xs) && p < |xs|
    ensures Find(xs, xs[p]) == Some(p)
  {
    var r := Find(xs, xs[p]);
    assert xs[p] in xs;
    assert xs[r.value] == xs[p];
  }

  lemma NextIsReach(p: nat, dir: int, n: nat)
    requires p < n
    ensures (if dir > 0 then (p + 1) % n else (p + n - 1) % n) == Reach(p, Sign(dir), n, 1)
  {
    if dir <= 0 {
      ModCongruent(p + n - 1, p - 1, 1, n);
    }
  }

  /** One step from the eligible window at position `p` focuses its cyclic neighbour. */
  lemma StepFocusesNeighbour(cfg: Config, s: State, dir: int, p: nat)
    requires NoDup(s.windows) && p < |Eligible(s)| && FocusedWindow(s) == Some(Eligible(s)[p])
    ensures var t := FocusStackStep(cfg, s, dir);
            && t.windows == s.windows
            && Eligible(t) == Eligible(s)
            && FocusedWindow(t) == Some(Eligible(s)[Reach(p, Sign(dir), |Eligible(s)|, 1)])
  {
    hide FocusWindow, Select, SameButUrgent, SelTags, Find, First, Reach, Meets;
    var q := Steppable(SelTags(s), s.selMon);
    var es := Select(q, s.info, s.windows);
    SelectNoDup(q, s.info, s.windows);
    FindUnique(es, p);
    NextIsReach(p, dir, |es|);
    var w := es[Reach(p, Sign(dir), |es|, 1)];
    assert w in es && Sat(q, St(s.info, w));
    FocusOnSelected(cfg, s, w);
    QuietSelect(q, s.info, FocusWindow(cfg, s, Some(w)).info, s.windows);
    hide FocusedWindow;
  }

  lemma ReachNext(p: nat, dir: int, n: nat, k: nat)
    requires 1 <= n
    ensures Reach(Reach(p, dir, n, k), dir, n, 1) == Reach(p, dir, n, k + 1)
  {
    var x := p + dir * k;
    assert dir * (k + 1) == dir * k + dir;
    ModCongruent(x % n + dir, x + dir, -(x / n), n);
  }

  /** After `k` steps the focus is `k` places further along the eligible windows. */
  lemma {:induction false} StepsWalk(cfg: Config, s: State, dir: int, p: nat, k: nat)
    requires NoDup(s.windows) && p < |Eligible(s)| && FocusedWindow(s) == Some(Eligible(s)[p])
    ensures var t := StepTimes(cfg, s, dir, k);
            && t.windows == s.windows
            && Eligible(t) == Eligible(s)
            && FocusedWindow(t) == Some(Eligible(s)[Reach(p, Sign(dir), |Eligible(s)|, k)])
  {
    hide FocusStackStep, Eligible, FocusedWindow, Reach;
    var n := |Eligible(s)|;
    if k == 0 {
      ReachZero(p, Sign(dir), n);
    } else {
      StepsWalk(cfg, s, dir, p, k - 1);
      var t := StepTimes(cfg, s, dir, k - 1);
      StepFocusesNeighbour(cfg, t, dir, Reach(p, Sign(dir), n, k - 1));
      ReachNext(p, Sign(dir), n, k - 1);
    }
  }

  lemma ReachZero(p: nat, dir: int, n: nat)
    requires p < n
    ensures Reach(p, dir, n, 0) == p
  {
    assert dir * 0 == 0;
  }

  lemma ModDistinct(x: int, y: int, n: int)
    requires n >= 1 && -n < x - y < n && x % n == y % n
    ensures x == y
  {
    var a, b := x / n, y / n;
    assert x == a * n + x % n && y == b * n + y % n;
    assert (a - b) * n == x - y;
    NonzeroMultiple(a - b, n);
  }

  lemma ReachInjective(p: nat, dir: int, n: nat, k: nat, l: nat)
    requires (dir == 1 || dir == -1) && 1 <= k <= n && 1 <= l <= n && Reach(p, dir, n, k) == Reach(p, dir, n, l)
    ensures k == l
  {
    if dir == 1 {
      ModDistinct(p + k, p + l, n);
    } else {
      ModDistinct(p - k, p - l, n);
    }
  }

  lemma ReachFull(p: nat, dir: int, n: nat)
    requires p < n
    ensures Reach(p, dir, n, n) == p
  {
    ModPlusMultiple(p, dir, n);
  }

  /**
   Starting from a focused eligible window, `n` steps in one direction focus each of the `n` eligible
   windows at exactly one of the steps, the starting one last.
   */
  lemma FocusCycle(cfg: Config, s: State, dir: int, p: nat, w: Window) returns (k: nat)
    requires NoDup(s.windows) && p < |Eligible(s)| && FocusedWindow(s) == Some(Eligible(s)[p])
    requires w in Eligible(s)
    ensures var n := |Eligible(s)|;
            && 1 <= k <= n
            && (forall l :: 1 <= l <= n ==> (FocusedWindow(StepTimes(cfg, s, dir, l)) == Some(w) <==> l == k))
            && FocusedWindow(StepTimes(cfg, s, dir, n)) == FocusedWindow(s)
  {
    hide StepTimes, FocusedWindow, Reach, Select;
    var es := Eligible(s);
    var n, d := |es|, Sign(dir);
    var j :| 0 <= j < n && es[j] == w;
    k := StepTo(p, d, n, j);
    SelectNoDup(Steppable(SelTags(s), s.selMon), s.info, s.windows);
    forall l | 1 <= l <= n
      ensures FocusedWindow(StepTimes(cfg, s, dir, l)) == Some(w) <==> l == k
    {
      StepsWalk(cfg, s, dir, p, l);
      if es[Reach(p, d, n, l)] == w {
        assert Reach(p, d, n, l) == j;
        ReachInjective(p, d, n, k, l);
      }
    }
    StepsWalk(cfg, s, dir, p, n);
    ReachFull(p, d, n);
  }

  /** A step and a step back restore the focused window. */
  lemma StepBackRestores(cfg: Config, s: State, dir: int, back: int, p: nat)
    requires NoDup(s.windows) && p < |Eligible(s)| && FocusedWindow(s) == Some(Eligible(s)[p])
    requires Sign(back) == -Sign(dir)
    ensures FocusedWindow(FocusStackStep(cfg, FocusStackStep(cfg, s, dir), back)) == FocusedWindow(s)
  {
    hide FocusStackStep, FocusedWindow, Reach, Eligible;
    var n := |Eligible(s)|;
    var q := Reach(p, Sign(dir), n, 1);
    StepFocusesNeighbour(cfg, s, dir, p);
    StepFocusesNeighbour(cfg, FocusStackStep(cfg, s, dir), back, q);
    WalkBack(p, Sign(dir), n, 1, 1);
    ReachZero(p, Sign(dir), n);
  }

  // Zoom.

  lemma MovedToFront(front: seq<Window>, x: Window, back: seq<Window>)
    ensures multiset([x] + (front + back)) == multiset(front + [x] + back)
  {
  }

  lemma ToFrontPermutes(xs: seq<Window>, x: Window)
    requires NoDup(xs) && x in xs
    ensures multiset(ToFront(xs, x)) == multiset(xs)
  {
    hide Without, NoDup;
    var pos :| 0 <= pos < |xs| && xs[pos] == x;
    WithoutAt(xs, pos);
    assert xs == xs[..pos] + [x] + xs[pos + 1..];
    MovedToFront(xs[..pos], x, xs[pos + 1..]);
  }

  lemma ToFrontRest(xs: seq<Window>, x: Window)
    ensures Without(ToFront(xs, x), x) == Without(xs, x)
  {
    hide Without;
    WithoutConcat([x], Without(xs, x), x);
    WithoutSnoc([], x, x);
    assert [] + [x] == [x];
    assert x !in Without(xs, x);
  }

  lemma SelectToFront(q: Query, info: Info, ws: seq<Window>, x: Window)
    requires Sat(q, St(info, x))
    ensures Select(q, info, ToFront(ws, x)) == ToFront(Select(q, info, ws), x)
  {
    SelectConcat(q, info, [x], Without(ws, x));
    SelectOne(q, info, x);
    SelectWithout(q, info, ws, x);
  }

  /**
   `zoom` permutes the windows, keeps the relative order of all but the promoted one, and leaves that
   one focused.  Once its rules are applied, it is also the first candidate.
   */
  lemma ZoomPromotes(cfg: Config, s: State, x: Window)
    requires Inv(cfg, s) && ZoomTarget(s) == Some(x)
    ensures var t := Zoom(cfg, s);
            && multiset(t.windows) == multiset(s.windows)
            && Without(t.windows, x) == Without(s.windows, x)
            && FocusedWindow(t) == Some(x)
            && SelTags(t) == SelTags(s) && t.selMon == s.selMon && SameButUrgent(s.info, t.info)
            && (St(s.info, x).rulesApplied ==> Candidates(t) == ToFront(Candidates(s), x))
            && (St(s.info, x).rulesApplied && !St(s.info, x).isFullscreen ==> TileMasterAmong(t) == Some(x))
  {
    hide FocusWindow, ArrangeAll, SameButUrgent, SelTags, FocusedWindow, Inv, ZoomTarget, ToFront, Select, First, TileMasterAmong;
    ZoomTargetPlace(s, x);
    ZoomTargetManaged(cfg, s);
    assert NoDup(s.windows) by { InvParts(cfg, s); }
    var a := s.(windows := ToFront(s.windows, x));
    assert SelTags(a) == SelTags(s) by { SameSelTags(s, a); }
    FocusOnSelected(cfg, a, x);
    var b := FocusWindow(cfg, a, Some(x));
    ArrangeAllKeepsView(cfg, b);
    var t := ArrangeAll(cfg, b);
    assert t == Zoom(cfg, s);
    SameButUrgentTransitive(s.info, b.info, t.info);
    ToFrontPermutes(s.windows, x);
    ToFrontRest(s.windows, x);
    if St(s.info, x).rulesApplied {
      var q := ZoomCandidate(SelTags(s), s.selMon);
      QuietSelect(q, s.info, t.info, t.windows);
      assert Sat(q, St(s.info, x));
      SelectToFront(q, s.info, s.windows, x);
      if !St(s.info, x).isFullscreen {
        UrgentDoesNotMatter(s.info, t.info, x, TileMaster(SelTags(s), s.selMon));
        FrontIsMaster(t, x);
      }
    }
  }

  /** The first window the tiling layout of the selected monitor places in its master area. */
  function TileMasterAmong(s: State): Option<Window> {
    First(TileMaster(SelTags(s), s.selMon), s.info, s.windows)
  }

  lemma FrontIsMaster(t: State, x: Window)
    requires t.windows != [] && t.windows[0] == x && Sat(TileMaster(SelTags(t), t.selMon), St(t.info, x))
    ensures TileMasterAmong(t) == Some(x)
  {
  }

  lemma SameSelTags(s: State, t: State)
    requires t.monitors == s.monitors && t.selMon == s.selMon
    ensures SelTags(t) == SelTags(s)
  {
  }

  lemma InvParts(cfg: Config, s: State)
    requires Inv(cfg, s)
    ensures NoDup(s.windows) && NoDup(s.focus)
  {
  }

  lemma ZoomTargetPlace(s: State, x: Window)
    requires ZoomTarget(s) == Some(x)
    ensures Meets(St(s.info, x).tags, SelTags(s)) && St(s.info, x).monIdx == s.selMon && !St(s.info, x).isFloating
  {
    hide Select, First, Without, SelTags;
    var q := ZoomCandidate(SelTags(s), s.selMon);
    var candidates := Select(q, s.info, s.windows);
    var others := Without(candidates, FocusedWindow(s).value);
    assert others[0] in others;
    assert others[0] in candidates;
  }

  /** With the master focused, the target is the second candidate. */
  lemma MasterZoomsSecond(s: State)
    requires NoDup(s.windows) && s.selMon < |s.monitors|
    requires |Candidates(s)| >= 2 && FocusedWindow(s) == Some(Candidates(s)[0])
    ensures ZoomTarget(s) == if St(s.info, Candidates(s)[0]).isFullscreen then None else Some(Candidates(s)[1])
  {
    hide Select, FocusedWindow, SelTags;
    var cs := Candidates(s);
    SelectNoDup(ZoomCandidate(SelTags(s), s.selMon), s.info, s.windows);
    assert cs[0] in cs;
    WithoutAt(cs, 0);
  }

  lemma SecondToFront(cs: seq<Window>)
    requires NoDup(cs) && |cs| >= 2
    ensures ToFront(cs, cs[1]) == [cs[1], cs[0]] + cs[2..]
  {
    WithoutAt(cs, 1);
  }

  /** Zooming the master swaps the first two candidates and moves the focus to the new first one. */
  lemma ZoomMaster(cfg: Config, s: State)
    requires Inv(cfg, s) && s.selMon < |s.monitors|
    requires |Candidates(s)| >= 2 && FocusedWindow(s) == Some(Candidates(s)[0])
    requires !St(s.info, Candidates(s)[0]).isFullscreen
    ensures var t := Zoom(cfg, s);
            var cs := Candidates(s);
            && Inv(cfg, t) && t.selMon < |t.monitors|
            && Candidates(t) == [cs[1], cs[0]] + cs[2..]
            && FocusedWindow(t) == Some(cs[1])
            && St(t.info, cs[0]).isFullscreen == St(s.info, cs[0]).isFullscreen
            && St(t.info, cs[1]).isFullscreen == St(s.info, cs[1]).isFullscreen
  {
    hide FocusWindow, ArrangeAll, SameButUrgent, SelTags, FocusedWindow, Inv, ZoomTarget, ToFront, Select, Zoom, NoDup, Meets;
    var q := ZoomCandidate(SelTags(s), s.selMon);
    var cs := Candidates(s);
    var t := Zoom(cfg, s);
    InvParts(cfg, s);
    InvZoom(cfg, s);
    assert cs[1] in cs;
    assert Sat(q, St(s.info, cs[1]));
    MasterZoomsSecond(s);
    ZoomPromotes(cfg, s, cs[1]);
    SelectNoDup(q, s.info, s.windows);
    SecondToFront(cs);
    UrgentDoesNotMatter(s.info, t.info, cs[1], q);
    UrgentDoesNotMatter(s.info, t.info, cs[0], q);
    ZoomKeepsMonitors(cfg, s);
  }

  /**
   Zooming twice with the master focused restores the order of the candidates and the focused window
   exactly when the second candidate, which the first zoom promotes, is not fullscreen.
   */
  lemma ZoomTwice(cfg: Config, s: State)
    requires Inv(cfg, s) && s.selMon < |s.monitors|
    requires |Candidates(s)| >= 2 && FocusedWindow(s) == Some(Candidates(s)[0])
    requires !St(s.info, Candidates(s)[0]).isFullscreen
    ensures var u := Zoom(cfg, Zoom(cfg, s));
            Candidates(u) == Candidates(s) && FocusedWindow(u) == FocusedWindow(s)
            <==> !St(s.info, Candidates(s)[1]).isFullscreen
  {
    hide Candidates, FocusedWindow, Inv, Zoom;
    var cs := Candidates(s);
    var t := Zoom(cfg, s);
    ZoomMaster(cfg, s);
    if St(s.info, cs[1]).isFullscreen {
      CandidatesDistinct(cfg, s);
      ZoomOnFullscreen(cfg, t);
    } else {
      ZoomMaster(cfg, t);
      assert Candidates(Zoom(cfg, t)) == cs;
    }
  }

  lemma CandidatesDistinct(cfg: Config, s: State)
    requires Inv(cfg, s) && |Candidates(s)| >= 2
    ensures Candidates(s)[0] != Candidates(s)[1]
  {
    hide Select, Inv, NoDup;
    InvParts(cfg, s);
    SelectNoDup(ZoomCandidate(SelTags(s), s.selMon), s.info, s.windows);
    Distinct(Candidates(s));
  }

  lemma ZoomOnFullscreen(cfg: Config, s: State)
    requires FocusedWindow(s).Some? && St(s.info, FocusedWindow(s).value).isFullscreen
    ensures Zoom(cfg, s) == s
  {
    hide ArrangeAll, FocusWindow, FocusedWindow, Select;
  }

  lemma Distinct(xs: seq<Window>)
    requires NoDup(xs) && |xs| >= 2
    ensures xs[0] != xs[1]
  {
  }

  lemma ZoomKeepsMonitors(cfg: Config, s: State)
    ensures |Zoom(cfg, s).monitors| == |s.monitors|
  {
    hide ZoomTarget, ArrangeAll, FocusWindow, SameCore, SameButUrgent;
    var target := ZoomTarget(s);
    if target.Some? {
      var a := s.(windows := ToFront(s.windows, target.value));
      FocusWindowFramed(cfg, a, target.value);
      ArrangeAllFramed(cfg, FocusWindow(cfg, a, target));
    }
  }
}
