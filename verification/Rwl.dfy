/**
 The compositor core, updating its lists, cells, monitors and space in place.  Every method is tied to
 the function of `Compositor` that gives its effect on the state as a value.
 */
module RwlCore {
  import opened Sequences
  import opened Tags
  import opened Monitors
  import opened Windows
  import opened Desktop
  import opened Pointer
  import C = Compositor
  import opened Invariant
  import opened Reachability

  ghost predicate Distinct(ms: seq<Monitor>) {
    forall i, j :: 0 <= i < j < |ms| ==> ms[i] != ms[j]
  }

  ghost function DataOf(ms: seq<Monitor>): (r: seq<MonitorData>)
    reads ms
    ensures |r| == |ms| && forall i :: 0 <= i < |ms| ==> r[i] == ms[i].Data()
  {
    if ms == [] then [] else DataOf(ms[..|ms| - 1]) + [ms[|ms| - 1].Data()]
  }

  /** `Vec::remove`. */
  function RemoveAt<T>(xs: seq<T>, i: nat): (r: seq<T>)
    requires i < |xs|
    ensures |r| == |xs| - 1
  {
    xs[..i] + xs[i + 1..]
  }

  class Rwl {
    const cfg: Config
    var monitors: seq<Monitor>
    var tagHistory: seq<seq<Mask>>
    var windows: seq<Window>
    var focusStack: seq<Window>
    var popups: seq<Window>
    /** The cell attached to every window handle. */
    var info: Info
    var space: Space
    var selMon: nat
    var memory: map<string, MonitorMemory>
    var locked: bool
    var grab: Option<C.Grab>

    ghost function Abs(): (s: C.State)
      reads this, monitors
      ensures |s.monitors| == |monitors| && s.monitors == DataOf(monitors)
      ensures s.history == tagHistory && s.windows == windows && s.focus == focusStack && s.popups == popups
      ensures s.info == info && s.space == space && s.selMon == selMon && s.memory == memory && s.locked == locked
      ensures s.grab == grab
    {
      C.State(DataOf(monitors), tagHistory, windows, focusStack, popups, info, space, selMon, memory, locked, grab)
    }

    /** What the helpers need even while a larger operation is under way. */
    ghost predicate Ready()
      reads this
    {
      cfg.Sane() && Distinct(monitors) && NoDup(windows) && NoDup(focusStack) && |tagHistory| == |monitors|
    }

    ghost predicate Valid()
      reads this, monitors
    {
      Ready() && Inv(cfg, Abs())
    }

    constructor (cfg: Config)
      requires cfg.Sane()
      ensures Valid() && this.cfg == cfg && monitors == [] && Abs() == C.Initial
    {
      this.cfg := cfg;
      monitors, tagHistory, windows, focusStack, popups := [], [], [], [], [];
      info, space, selMon, memory, locked, grab := map[], [], 0, map[], false, None;
      new;
      ReachableInv(cfg, []);
    }

    // Read-only passes.

    method Search(q: Query, ws: seq<Window>) returns (r: Option<Window>)
      ensures r == First(q, info, ws)
    {
      var k := 0;
      while k < |ws|
        invariant k <= |ws|
        invariant First(q, info, ws) == First(q, info, ws[k..])
      {
        assert ws[k..][1..] == ws[k + 1..];
        if Sat(q, St(info, ws[k])) {
          return Some(ws[k]);
        }
        k := k + 1;
      }
      r := None;
    }

    /** The tags a monitor shows, or `missing` when there is no such monitor. */
    method TagsOf(i: nat, missing: Mask) returns (tags: Mask)
      ensures tags == if i < |Abs().monitors| then Abs().monitors[i].Tags() else missing
    {
      tags := if i < |monitors| then monitors[i].Data().Tags() else missing;
    }

    method SelTags() returns (tags: Mask)
      ensures tags == C.SelTags(Abs())
    {
      tags := TagsOf(selMon, {});
    }

    method FocusedWindow() returns (r: Option<Window>)
      ensures r == C.FocusedWindow(Abs())
    {
      var tags := SelTags();
      r := Search(OnMonitor(tags, selMon), focusStack);
    }

    method CountTiled(tags: Mask) returns (n: nat)
      ensures n == |Select(Tiled(tags), info, windows)|
    {
      n := 0;
      for k := 0 to |windows|
        invariant n == |Select(Tiled(tags), info, windows[..k])|
      {
        assert windows[..k + 1] == windows[..k] + [windows[k]];
        SelectSnoc(Tiled(tags), info, windows[..k], windows[k]);
        if Sat(Tiled(tags), St(info, windows[k])) {
          n := n + 1;
        }
      }
      assert windows[..|windows|] == windows;
    }

    method VisibleTags() returns (all: Mask)
      ensures all == C.AllVisible(DataOf(monitors))
    {
      all := {};
      ghost var ms := DataOf(monitors);
      for k := 0 to |monitors|
        invariant all == C.AllVisible(ms[..k])
      {
        assert ms[..k + 1][..k] == ms[..k];
        all := all + monitors[k].Data().Tags();
      }
      assert ms[..|monitors|] == ms;
    }

    method PositionOf(ws: seq<Window>, w: Window) returns (r: Option<nat>)
      ensures r == Find(ws, w)
    {
      var k := 0;
      while k < |ws|
        invariant k <= |ws| && w !in ws[..k]
      {
        if ws[k] == w {
          FindAt(ws, k);
          return Some(k);
        }
        k := k + 1;
      }
      assert ws[..k] == ws;
      r := None;
    }

    lemma FindAt(ws: seq<Window>, k: nat)
      requires k < |ws| && ws[k] !in ws[..k]
      ensures Find(ws, ws[k]) == Some(k)
    {
      var r := Find(ws, ws[k]);
      assert ws[k] in ws;
    }

    /** One pass over the windows sorts them into what `arrange` does with them. */
    method Partition(tags: Mask, all: Mask)
      returns (hidden: seq<Window>, tiled: seq<Window>, floating: seq<Window>, full: seq<Window>, scratch: seq<Window>)
      requires tags <= all
      ensures hidden == Select(Hidden(all), info, windows)
      ensures tiled == Select(Tiled(tags), info, windows)
      ensures floating == Select(Floating(tags), info, windows)
      ensures full == Select(Fullscreen(tags), info, windows)
      ensures scratch == Select(Scratch(tags), info, windows)
    {
      hidden, tiled, floating, full, scratch := [], [], [], [], [];
      for k := 0 to |windows|
        invariant hidden == Select(Hidden(all), info, windows[..k])
        invariant tiled == Select(Tiled(tags), info, windows[..k])
        invariant floating == Select(Floating(tags), info, windows[..k])
        invariant full == Select(Fullscreen(tags), info, windows[..k])
        invariant scratch == Select(Scratch(tags), info, windows[..k])
      {
        hide Select, Meets, Sat;
        var w := windows[k];
        var s := St(info, w);
        assert windows[..k + 1] == windows[..k] + [w];
        PartitionNext(info, windows[..k], w, tags, all);
        if !Meets(s.tags, all) {
          hidden := hidden + [w];
        } else if Meets(s.tags, tags) {
          if s.isFullscreen {
            full := full + [w];
          } else if s.isFloating {
            if s.scratchKey != NO_KEY {
              scratch := scratch + [w];
            }
            floating := floating + [w];
          } else if s.rulesApplied {
            tiled := tiled + [w];
          }
        }
      }
      assert windows[..|windows|] == windows;
    }

    lemma PartitionNext(info: Info, ws: seq<Window>, w: Window, tags: Mask, all: Mask)
      requires tags <= all
      ensures
        var s := St(info, w);
        var here := Meets(s.tags, all) && Meets(s.tags, tags);
        && Select(Hidden(all), info, ws + [w])
           == (if !Meets(s.tags, all) then Select(Hidden(all), info, ws) + [w] else Select(Hidden(all), info, ws))
        && Select(Tiled(tags), info, ws + [w])
           == (if here && !s.isFullscreen && !s.isFloating && s.rulesApplied
               then Select(Tiled(tags), info, ws) + [w] else Select(Tiled(tags), info, ws))
        && Select(Floating(tags), info, ws + [w])
           == (if here && !s.isFullscreen && s.isFloating
               then Select(Floating(tags), info, ws) + [w] else Select(Floating(tags), info, ws))
        && Select(Fullscreen(tags), info, ws + [w])
           == (if here && s.isFullscreen then Select(Fullscreen(tags), info, ws) + [w] else Select(Fullscreen(tags), info, ws))
        && Select(Scratch(tags), info, ws + [w])
           == (if here && !s.isFullscreen && s.isFloating && s.scratchKey != NO_KEY
               then Select(Scratch(tags), info, ws) + [w] else Select(Scratch(tags), info, ws))
    {
      hide Select;
      SelectSnoc(Hidden(all), info, ws, w);
      SelectSnoc(Tiled(tags), info, ws, w);
      SelectSnoc(Floating(tags), info, ws, w);
      SelectSnoc(Fullscreen(tags), info, ws, w);
      SelectSnoc(Scratch(tags), info, ws, w);
      NotShownHere(St(info, w).tags, tags, all);
      hide Meets;
    }

    lemma NotShownHere(tags: Mask, part: Mask, all: Mask)
      requires part <= all
      ensures !Meets(tags, all) ==> !Meets(tags, part)
    {
      if t :| t in tags * part {
        assert t in tags * all;
      }
    }

    // The placement loops of `arrange`.

    ghost function Placement(): Desk
      reads this
    {
      Desk(space, info)
    }

    method HideWindows(hidden: seq<Window>)
      modifies this`info, this`space
      ensures Placement() == RunPass(HidePass, old(Placement()), hidden)
    {
      hide LocOf, UnmapElem;
      ghost var d := Placement();
      var k := 0;
      while k < |hidden|
        invariant k <= |hidden|
        invariant Placement() == RunPass(HidePass, d, hidden[..k])
      {
        RunPassNext(HidePass, d, hidden, k);
        hide RunPass;
        HideWindow(hidden[k], k);
        k := k + 1;
      }
      assert hidden[..k] == hidden;
    }

    method HideWindow(w: Window, ghost k: nat)
      modifies this`info, this`space
      ensures Placement() == Touch(HidePass, old(Placement()), w, k)
    {
      hide LocOf, UnmapElem;
      var at := LocOf(space, w);
      if St(info, w).isFloating && at.Some? {
        info := info[w := St(info, w).(savedLoc := at)];
      }
      space := UnmapElem(space, w);
    }

    method TileWindows(tiled: seq<Window>, geoms: seq<Rect>, focused: Option<Window>, monocle: bool)
      requires |geoms| == |tiled|
      modifies this`info, this`space
      ensures Placement() == RunPass(TilePass(geoms, focused, monocle), old(Placement()), tiled)
    {
      hide LocOf, MapElement, RelocateElement;
      ghost var d, p := Placement(), TilePass(geoms, focused, monocle);
      var k := 0;
      while k < |tiled|
        invariant k <= |tiled|
        invariant Placement() == RunPass(p, d, tiled[..k])
      {
        RunPassNext(p, d, tiled, k);
        hide RunPass;
        var w, geom := tiled[k], geoms[k];
        var isFocused := focused == Some(w);
        var at := LocOf(space, w);
        if at.None? {
          space := MapElement(space, w, geom.loc);
        } else if at.value != geom.loc {
          space := RelocateElement(space, w, geom.loc);
        } else if isFocused && monocle {
          space := MapElement(space, w, geom.loc);
        }
        info := info[w := St(info, w).(pendingGeom := Some(geom), lastFocused := isFocused)];
        k := k + 1;
      }
      assert tiled[..k] == tiled;
    }

    method FloatWindows(floating: seq<Window>, fallback: Point, focused: Option<Window>)
      modifies this`info, this`space
      ensures Placement() == RunPass(FloatPass(fallback, focused), old(Placement()), floating)
    {
      hide LocOf, MapElement;
      ghost var d, p := Placement(), FloatPass(fallback, focused);
      var k := 0;
      while k < |floating|
        invariant k <= |floating|
        invariant Placement() == RunPass(p, d, floating[..k])
      {
        RunPassNext(p, d, floating, k);
        hide RunPass;
        var w := floating[k];
        var s := St(info, w);
        var at := LocOf(space, w);
        var loc := if at.Some? then at.value else if s.savedLoc.Some? then s.savedLoc.value else fallback;
        if s.scratchKey == NO_KEY {
          space := MapElement(space, w, loc);
        }
        info := info[w := s.(pendingGeom := None, lastFocused := if s.isX11 then focused == Some(w) else s.lastFocused)];
        k := k + 1;
      }
      assert floating[..k] == floating;
    }

    method FillWindows(full: seq<Window>, geom: Rect, focused: Option<Window>)
      modifies this`info, this`space
      ensures Placement() == RunPass(FullPass(geom, focused), old(Placement()), full)
    {
      hide LocOf, MapElement;
      ghost var d, p := Placement(), FullPass(geom, focused);
      var k := 0;
      while k < |full|
        invariant k <= |full|
        invariant Placement() == RunPass(p, d, full[..k])
      {
        RunPassNext(p, d, full, k);
        hide RunPass;
        var w := full[k];
        var s := St(info, w);
        space := MapElement(space, w, geom.loc);
        info := info[w := s.(pendingGeom := Some(geom), lastFocused := if s.isX11 then focused == Some(w) else s.lastFocused)];
        k := k + 1;
      }
      assert full[..k] == full;
    }

    method RaiseScratchpads(scratch: seq<Window>, fallback: Point)
      modifies this`info, this`space
      ensures Placement() == RunPass(ScratchPass(fallback), old(Placement()), scratch)
    {
      hide LocOf, MapElement;
      ghost var d, p := Placement(), ScratchPass(fallback);
      var k := 0;
      while k < |scratch|
        invariant k <= |scratch|
        invariant Placement() == RunPass(p, d, scratch[..k])
      {
        RunPassNext(p, d, scratch, k);
        hide RunPass;
        var w := scratch[k];
        var at := LocOf(space, w);
        var saved := St(info, w).savedLoc;
        var loc := if at.Some? then at.value else if saved.Some? then saved.value else fallback;
        space := MapElement(space, w, loc);
        k := k + 1;
      }
      assert scratch[..k] == scratch;
    }

    method SizeFactors(tiled: seq<Window>) returns (cfacts: seq<real>)
      ensures cfacts == C.Cfacts(info, tiled)
    {
      cfacts := [];
      for k := 0 to |tiled|
        invariant cfacts == C.Cfacts(info, tiled[..k])
      {
        assert tiled[..k + 1][..k] == tiled[..k];
        cfacts := cfacts + [St(info, tiled[k]).cfact];
      }
      assert tiled[..|tiled|] == tiled;
    }

    /** The count-based layout of a monitor showing `count` tiled windows. */
    method ChooseLayout(i: nat, tags: Mask, count: nat)
      requires i < |monitors| && Distinct(monitors)
      modifies monitors[i]
      ensures DataOf(monitors) == old(DataOf(monitors))[i := old(DataOf(monitors))[i].ApplyDynamic(cfg, tags, count)]
    {
      var mon := monitors[i];
      mon.ApplyDynamic(cfg, tags, count);
      assert mon.Data() == old(mon.Data()).ApplyDynamic(cfg, tags, count);
    }

    /** The scroll column on the focused window, in the scrollable layouts. */
    function Followed(m: MonitorData, tiled: seq<Window>, focused: Option<Window>): MonitorData {
      if m.Kind(cfg) == Monocle || m.Kind(cfg) == Scroll then
        var at := if focused.Some? then Find(tiled, focused.value) else None;
        var last := if tiled == [] then 0 else |tiled| - 1;
        m.(scrollCol := if at.Some? then at.value else if m.scrollCol < last then m.scrollCol else last)
      else m
    }

    method Column(m: MonitorData, tiled: seq<Window>, focused: Option<Window>) returns (col: nat)
      ensures Followed(m, tiled, focused) == m.(scrollCol := col)
    {
      col := m.scrollCol;
      if m.Kind(cfg) == Monocle || m.Kind(cfg) == Scroll {
        var at: Option<nat> := None;
        if focused.Some? {
          at := PositionOf(tiled, focused.value);
        }
        var last := if tiled == [] then 0 else |tiled| - 1;
        col := if at.Some? then at.value else if col < last then col else last;
      }
    }

    /** Keep the scroll column on the focused window in the scrollable layouts. */
    method FollowFocus(i: nat, tiled: seq<Window>, focused: Option<Window>)
      requires i < |monitors| && Distinct(monitors)
      modifies monitors[i]
      ensures DataOf(monitors) == old(DataOf(monitors))[i := Followed(old(DataOf(monitors))[i], tiled, focused)]
    {
      hide Followed;
      var mon := monitors[i];
      var col := Column(mon.Data(), tiled, focused);
      mon.ScrollTo(col);
      assert mon.Data() == Followed(old(mon.Data()), tiled, focused);
    }

    lemma CfactsSame(a: Info, b: Info, ws: seq<Window>)
      requires SameCore(a, b)
      ensures C.Cfacts(a, ws) == C.Cfacts(b, ws)
    {
      if ws != [] {
        CfactsSame(a, b, ws[..|ws| - 1]);
        assert St(a, ws[|ws| - 1]).Core().cfact == St(b, ws[|ws| - 1]).Core().cfact;
      }
    }

    /** Choose the count-based layout and draw up the lists of windows to place. */
    method Sort(i: nat)
      returns (hidden: seq<Window>, tiled: seq<Window>, floating: seq<Window>, full: seq<Window>, scratch: seq<Window>)
      requires Ready() && i < |monitors|
      modifies monitors
      ensures hidden == C.HiddenOf(old(Abs())) && tiled == C.TiledOf(old(Abs()), i)
      ensures floating == C.FloatingOf(old(Abs()), i) && full == C.FullscreenOf(old(Abs()), i)
      ensures scratch == C.ScratchOf(old(Abs()), i)
      ensures
        var s := old(Abs());
        Ready() && Abs() == s.(monitors := s.monitors[i := s.monitors[i].ApplyDynamic(cfg, s.monitors[i].Tags(), |tiled|)])
    {
      hide Select, NoDup, C.AllVisible, MonitorData.ApplyDynamic, MonitorData.Tags;
      var before: MonitorData := monitors[i].Data();
      var tags := before.Tags();
      var all := VisibleTags();
      var count := CountTiled(tags);
      ChooseLayout(i, tags, count);
      hidden, tiled, floating, full, scratch := Partition(tags, all);
    }

    ghost function OnDesk(s: C.State, d: Desk): C.State {
      s.(space := d.space, info := d.info)
    }

    /** Hide what no monitor shows, then keep the scroll column on this monitor's focused window. */
    method HideAndFollow(i: nat, hidden: seq<Window>, tiled: seq<Window>) returns (focused: Option<Window>)
      requires Ready() && i < |monitors|
      modifies this`info, this`space, monitors
      ensures
        var s := old(Abs());
        && Ready()
        && focused == First(OnMonitor(s.monitors[i].Tags(), i), s.info, s.focus)
        && Abs() == OnDesk(s, RunPass(HidePass, Desk(s.space, s.info), hidden))
                      .(monitors := s.monitors[i := Followed(s.monitors[i], tiled, focused)])
        && C.Cfacts(info, tiled) == C.Cfacts(s.info, tiled)
    {
      hide RunPass, First, Followed, DataOf, NoDup, C.Cfacts, WindowState.Core, MonitorData.Tags;
      ghost var s := Abs();
      PassFrame(HidePass, Placement(), hidden);
      HideWindows(hidden);
      assert DataOf(monitors) == s.monitors;
      CfactsSame(s.info, info, tiled);
      var tags := monitors[i].Data().Tags();
      FirstCore(OnMonitor(tags, i), s.info, info, focusStack);
      hide SameCore;
      focused := Search(OnMonitor(tags, i), focusStack);
      FollowFocus(i, tiled, focused);
    }

    /** Lay the tiled windows out on monitor `i`. */
    method Lay(i: nat, tiled: seq<Window>, focused: Option<Window>)
      requires Ready() && i < |monitors|
      modifies this`info, this`space
      ensures
        var s := old(Abs());
        var m := s.monitors[i];
        && Ready()
        && Abs() == OnDesk(s, RunPass(TilePass(cfg.layout(m, C.Cfacts(s.info, tiled)), focused, m.Kind(cfg) == Monocle),
                                      Desk(s.space, s.info), tiled))
    {
      hide RunPass, DataOf, NoDup, Distinct, C.Cfacts, MonitorData.Kind;
      ghost var s := Abs();
      var m: MonitorData := monitors[i].Data();
      var cfacts := SizeFactors(tiled);
      TileWindows(tiled, cfg.layout(m, cfacts), focused, m.Kind(cfg) == Monocle);
      assert DataOf(monitors) == s.monitors;
    }

    /** Stack floating windows over the tiled ones, fullscreen over those, and scratchpads over all. */
    method Stack(i: nat, focused: Option<Window>, floating: seq<Window>, full: seq<Window>, scratch: seq<Window>)
      requires Ready() && i < |monitors|
      modifies this`info, this`space
      ensures
        var s := old(Abs());
        var m := s.monitors[i];
        && Ready()
        && Abs() == OnDesk(s, RunPass(ScratchPass(m.work.loc), RunPass(FullPass(m.area, focused),
                      RunPass(FloatPass(m.work.loc, focused), Desk(s.space, s.info), floating), full), scratch))
    {
      hide RunPass, DataOf, NoDup, Distinct;
      ghost var s := Abs();
      var m: MonitorData := monitors[i].Data();
      FloatWindows(floating, m.work.loc, focused);
      FillWindows(full, m.area, focused);
      RaiseScratchpads(scratch, m.work.loc);
      assert DataOf(monitors) == s.monitors;
    }

    lemma FollowedIsArranged(s: C.State, i: nat)
      requires i < |s.monitors|
      ensures
        var chosen := s.monitors[i].ApplyDynamic(cfg, s.monitors[i].Tags(), |C.TiledOf(s, i)|);
        var m := C.ArrangedMonitor(cfg, s, i);
        && chosen.Tags() == s.monitors[i].Tags()
        && m == Followed(chosen, C.TiledOf(s, i), C.FocusedOn(s, i))
        && m.work == s.monitors[i].work && m.area == s.monitors[i].area
    {
      hide First, Select, Find;
    }

    /** The passes `arrange(i)` makes, by the lists they are given. */
    lemma ArrangeParts(s: C.State, i: nat)
      requires i < |s.monitors|
      ensures
        var chosen := s.monitors[i].ApplyDynamic(cfg, s.monitors[i].Tags(), |C.TiledOf(s, i)|);
        var f := First(OnMonitor(chosen.Tags(), i), s.info, s.focus);
        var m := Followed(chosen, C.TiledOf(s, i), f);
        var hidden := RunPass(HidePass, Desk(s.space, s.info), C.HiddenOf(s));
        var tiled := RunPass(TilePass(cfg.layout(m, C.Cfacts(s.info, C.TiledOf(s, i))), f, m.Kind(cfg) == Monocle),
                             hidden, C.TiledOf(s, i));
        var stacked := RunPass(ScratchPass(m.work.loc), RunPass(FullPass(m.area, f), RunPass(FloatPass(m.work.loc, f),
                         tiled, C.FloatingOf(s, i)), C.FullscreenOf(s, i)), C.ScratchOf(s, i));
        C.Arrange(cfg, s, i) == s.(monitors := s.monitors[i := m], space := stacked.space, info := stacked.info)
    {
      hide RunPass, First, Select, Followed, Sat, C.Cfacts, C.ArrangedMonitor, C.AllVisible, MonitorData.ApplyDynamic, MonitorData.Tags, MonitorData.Kind;
      FollowedIsArranged(s, i);
    }

    method Arrange(i: nat)
      requires Ready()
      modifies this`info, this`space, monitors
      ensures Ready() && Abs() == C.Arrange(cfg, old(Abs()), i)
    {
      hide Ready, Abs, RunPass, First, Followed, DataOf, MonitorData.ApplyDynamic, MonitorData.Tags, MonitorData.Kind,
        C.HiddenOf, C.TiledOf, C.FloatingOf, C.FullscreenOf, C.ScratchOf, C.Cfacts;
      if i >= |monitors| {
        return;
      }
      ArrangeParts(Abs(), i);
      hide C.Arrange;
      var hidden, tiled, floating, full, scratch := Sort(i);
      var focused := HideAndFollow(i, hidden, tiled);
      Lay(i, tiled, focused);
      Stack(i, focused, floating, full, scratch);
    }

    method RefitOne(k: nat)
      requires Ready() && k < |monitors|
      modifies monitors
      ensures Ready() && Abs() == old(Abs()).(monitors := old(Abs()).monitors[k := old(Abs()).monitors[k].Refit()])
    {
      hide NoDup, MonitorData.Refit;
      var mon := monitors[k];
      mon.Refit();
      assert mon.Data() == old(mon.Data()).Refit();
    }

    lemma RefitsNext(ms: seq<MonitorData>, k: nat)
      requires k < |ms|
      ensures (C.Refits(ms[..k]) + ms[k..])[k := ms[k].Refit()] == C.Refits(ms[..k + 1]) + ms[k + 1..]
      ensures (C.Refits(ms[..k]) + ms[k..])[k] == ms[k]
    {
      hide MonitorData.Refit;
    }

    method UpdateWorkAreas()
      requires Ready()
      modifies monitors
      ensures Ready() && Abs() == old(Abs()).(monitors := C.Refits(old(Abs()).monitors))
    {
      hide *;
      ghost var s := Abs();
      for k := 0 to |monitors|
        invariant Ready()
        invariant Abs() == s.(monitors := C.Refits(s.monitors[..k]) + s.monitors[k..])
      {
        RefitsNext(s.monitors, k);
        RefitOne(k);
      }
      assert s.monitors[..|monitors|] == s.monitors;
    }

    lemma ArrangeAllSteps(s: C.State, k: nat)
      ensures
        var fitted := s.(monitors := C.Refits(s.monitors));
        && C.ArrangeUpTo(cfg, fitted, 0) == fitted
        && C.ArrangeUpTo(cfg, fitted, k + 1) == C.Arrange(cfg, C.ArrangeUpTo(cfg, fitted, k), k)
        && C.ArrangeAll(cfg, s) == C.ArrangeUpTo(cfg, fitted, |s.monitors|)
    {
    }

    method ArrangeAll()
      requires Ready()
      modifies this`info, this`space, monitors
      ensures Ready() && Abs() == C.ArrangeAll(cfg, old(Abs()))
    {
      hide *;
      ghost var s := Abs();
      ghost var fitted := s.(monitors := C.Refits(s.monitors));
      ArrangeAllSteps(s, 0);
      UpdateWorkAreas();
      var i := 0;
      while i < |monitors|
        invariant i <= |monitors| && Ready()
        invariant Abs() == C.ArrangeUpTo(cfg, fitted, i)
      {
        ArrangeAllSteps(s, i);
        Arrange(i);
        i := i + 1;
      }
    }

    method ArrangeBoth(mon: nat, prev: Option<nat>)
      requires Ready()
      modifies this`info, this`space, monitors
      ensures Ready() && Abs() == C.ArrangeBoth(cfg, old(Abs()), mon, prev)
    {
      hide C.Arrange;
      Arrange(mon);
      if prev.Some? && prev.value != mon {
        Arrange(prev.value);
      }
    }

    method FrontMonitor() returns (r: Option<nat>)
      ensures r == C.FrontMonitor(Abs())
    {
      r := if focusStack == [] then None else Some(St(info, focusStack[0]).monIdx);
    }

    /** Bring a managed window to the front of the focus stack by rotating the prefix that ends at it. */
    method Promote(ws: seq<Window>, w: Window) returns (r: seq<Window>)
      requires NoDup(ws)
      ensures r == ToFront(ws, w)
    {
      var pos := PositionOf(ws, w);
      if pos.Some? {
        WithoutAt(ws, pos.value);
        r := [ws[pos.value]] + (ws[..pos.value] + ws[pos.value + 1..]);
      } else {
        r := [w] + ws;
      }
    }

    lemma FocusWindowCases(s: C.State, w: Window)
      ensures
        var t := s.(info := WithUrgent(s.info, w, false), focus := ToFront(s.focus, w));
        var mon := St(t.info, w).monIdx;
        && C.FocusWindow(cfg, s, None) == s
        && C.FocusWindow(cfg, s, Some(w))
           == if s.locked || (s.focus != [] && s.focus[0] == w) then t
              else C.ArrangeBoth(cfg, t.(selMon := mon), mon, C.FrontMonitor(s))
    {
      hide C.ArrangeBoth, C.FrontMonitor;
    }

    method FocusWindow(w: Option<Window>)
      requires Ready()
      modifies this`info, this`space, this`focusStack, this`selMon, monitors
      ensures Ready() && Abs() == C.FocusWindow(cfg, old(Abs()), w)
    {
      hide C.FocusWindow, C.ArrangeBoth, C.FrontMonitor, ToFront, NoDup, DataOf, Distinct;
      ghost var s := Abs();
      FocusWindowCases(s, if w.Some? then w.value else 0);
      if w.None? {
        return;
      }
      var prev := FrontMonitor();
      var changed := focusStack == [] || focusStack[0] != w.value;
      ToFrontNoDup(focusStack, w.value);
      focusStack := Promote(focusStack, w.value);
      info := WithUrgent(info, w.value, false);
      assert DataOf(monitors) == s.monitors;
      if locked || !changed {
        return;
      }
      var mon := St(info, w.value).monIdx;
      selMon := mon;
      assert DataOf(monitors) == s.monitors;
      ArrangeBoth(mon, prev);
    }

    method Refocus()
      requires Ready()
      modifies this`info, this`space, this`focusStack, this`selMon, monitors
      ensures Ready() && Abs() == C.Refocus(cfg, old(Abs()))
    {
      hide C.FocusWindow, C.FocusedWindow;
      var top := FocusedWindow();
      FocusWindow(top);
    }

    // The view and tag primitives.

    method UpdateTagHistory(i: nat, target: Mask)
      requires Ready()
      modifies this`tagHistory
      ensures Ready() && Abs() == C.RecordTags(old(Abs()), i, target)
    {
      hide NoDup, Distinct, Without;
      if i < |monitors| {
        var oldTags := monitors[i].Data().Tags();
        var unique := tagHistory[i];
        if oldTags != target {
          unique := Without(unique, oldTags) + [oldTags];
          if |unique| > History.LIMIT {
            unique := unique[1..];
          }
        }
        tagHistory := tagHistory[i := unique];
      }
    }

    method ViewOn(i: nat, mask: Mask)
      requires Ready()
      modifies monitors
      ensures Ready() && Abs() == C.ViewOn(cfg, old(Abs()), i, mask)
    {
      hide NoDup, MonitorData.View;
      if i < |monitors| {
        var mon := monitors[i];
        mon.View(cfg, mask);
        assert mon.Data() == old(mon.Data()).View(cfg, mask);
      }
    }

    method ViewPrevOn(i: nat)
      requires Ready() && i < |monitors|
      modifies monitors
      ensures Ready() && Abs() == old(Abs()).(monitors := old(Abs()).monitors[i := old(Abs()).monitors[i].ViewPrev(cfg)])
    {
      hide NoDup, MonitorData.ViewPrev;
      var mon := monitors[i];
      mon.ViewPrev(cfg);
      assert mon.Data() == old(mon.Data()).ViewPrev(cfg);
    }

    method ToggleViewOn(i: nat, mask: Mask)
      requires Ready() && i < |monitors|
      modifies monitors
      ensures Ready()
      ensures Abs() == old(Abs()).(monitors := old(Abs()).monitors[i := old(Abs()).monitors[i].ToggleView(cfg, mask)])
    {
      hide NoDup, MonitorData.ToggleView;
      var mon := monitors[i];
      mon.ToggleView(cfg, mask);
      assert mon.Data() == old(mon.Data()).ToggleView(cfg, mask);
    }

    method SetLayoutOn(i: nat, idx: Option<nat>)
      requires Ready() && i < |monitors|
      modifies monitors
      ensures Ready()
      ensures Abs() == old(Abs()).(monitors := old(Abs()).monitors[i := old(Abs()).monitors[i].SetLayout(cfg, idx)])
    {
      hide NoDup, MonitorData.SetLayout;
      var mon := monitors[i];
      mon.SetLayout(cfg, idx);
      assert mon.Data() == old(mon.Data()).SetLayout(cfg, idx);
    }

    /** The monitor's tuning and the space its layer-shell clients leave free. */
    method Tune(i: nat, nmaster: int, mfact: real, zone: Rect, exclusive: bool)
      requires Ready() && i < |monitors|
      modifies monitors
      ensures Ready()
      ensures var m := old(Abs()).monitors[i];
              Abs() == old(Abs()).(monitors := old(Abs()).monitors[i :=
                m.(nmaster := nmaster, mfact := mfact, zone := zone, exclusive := exclusive)])
    {
      hide NoDup;
      var mon := monitors[i];
      ghost var before: MonitorData := mon.Data();
      mon.Tune(nmaster, mfact, zone, exclusive);
      assert mon.Data() == before.(nmaster := nmaster, mfact := mfact, zone := zone, exclusive := exclusive);
    }

    method WriteCell(w: Window, st: WindowState)
      requires Ready()
      modifies this`info
      ensures Ready() && Abs() == old(Abs()).(info := old(info)[w := st])
    {
      hide NoDup, Distinct, DataOf;
      ghost var ms := DataOf(monitors);
      info := info[w := st];
      assert DataOf(monitors) == ms;
    }

    method SelectMonitor(i: nat)
      requires Ready()
      modifies this`selMon
      ensures Ready() && Abs() == old(Abs()).(selMon := i)
    {
      hide NoDup, Distinct, DataOf;
      ghost var ms := DataOf(monitors);
      selMon := i;
      assert DataOf(monitors) == ms;
    }

    /** Collect the windows that satisfy `q`, in list order. */
    method Collect(q: Query, ws: seq<Window>) returns (r: seq<Window>)
      ensures r == Select(q, info, ws)
    {
      hide Select, Sat;
      r := [];
      assert Select(q, info, ws[..0]) == [];
      for k := 0 to |ws|
        invariant r == Select(q, info, ws[..k])
      {
        assert ws[..k + 1] == ws[..k] + [ws[k]];
        SelectSnoc(q, info, ws[..k], ws[k]);
        if Sat(q, St(info, ws[k])) {
          r := r + [ws[k]];
        }
      }
      assert ws[..|ws|] == ws;
    }

    // Actions.

    method RefocusArranged()
      requires Ready()
      modifies this`info, this`space, this`focusStack, this`selMon, monitors
      ensures Ready() && Abs() == C.Refocus(cfg, C.ArrangeAll(cfg, old(Abs())))
    {
      hide *;
      ArrangeAll();
      Refocus();
    }

    method View(mask: Mask)
      requires Ready()
      modifies this`info, this`space, this`focusStack, this`selMon, this`tagHistory, monitors
      ensures Ready() && Abs() == C.View(cfg, old(Abs()), mask)
    {
      hide Ready, Abs, DataOf, C.Refocus, C.ArrangeAll, C.ViewOn, C.RecordTags;
      var i := selMon;
      UpdateTagHistory(i, mask);
      ViewOn(i, mask);
      RefocusArranged();
    }

    method ViewPrev()
      requires Ready()
      modifies this`info, this`space, this`focusStack, this`selMon, this`tagHistory, monitors
      ensures Ready() && Abs() == C.ViewPrev(cfg, old(Abs()))
    {
      hide Ready, Abs, DataOf, C.Refocus, C.ArrangeAll, C.RecordTags, MonitorData.ViewPrev;
      var i := selMon;
      if i < |monitors| {
        var m: MonitorData := monitors[i].Data();
        RecordKeepsMonitors(Abs(), i, m.tagset.At(1 - m.selTags));
        UpdateTagHistory(i, m.tagset.At(1 - m.selTags));
        ViewPrevOn(i);
      }
      RefocusArranged();
    }

    method OccupiedTags() returns (all: Mask)
      ensures all == C.OccupiedTags(info, windows)
    {
      all := {};
      for k := 0 to |windows|
        invariant all == C.OccupiedTags(info, windows[..k])
      {
        assert windows[..k + 1][..k] == windows[..k];
        all := all + St(info, windows[k]).tags;
      }
      assert windows[..|windows|] == windows;
    }

    method ViewNextOccTag(dir: int)
      requires Valid()
      modifies this`info, this`space, this`focusStack, this`selMon, this`tagHistory, monitors
      ensures Ready() && Abs() == C.ViewNextOccTag(cfg, old(Abs()), dir)
    {
      hide DataOf, C.View, C.OccupiedTags, NextOccupied, NoDup, Distinct;
      if selMon >= |monitors| {
        return;
      }
      var tags := monitors[selMon].Data().Tags();
      SelTagsOk(cfg, Abs());
      hide Inv, MonitorData.Tags;
      var occupied := OccupiedTags();
      var next := NextOccupied(tags, occupied, dir, cfg.tagCount);
      if next.Some? {
        View(next.value);
      }
    }

    method ToggleView(mask: Mask)
      requires Ready()
      modifies this`info, this`space, this`focusStack, this`selMon, this`tagHistory, monitors
      ensures Ready() && Abs() == C.ToggleView(cfg, old(Abs()), mask)
    {
      hide Ready, Abs, DataOf, C.Refocus, C.ArrangeAll, C.RecordTags, MonitorData.ToggleView, MonitorData.Tags;
      var i := selMon;
      if i < |monitors| {
        var tags := Xor(monitors[i].Data().Tags(), mask) * TagMask(cfg.tagCount);
        RecordKeepsMonitors(Abs(), i, tags);
        if tags != {} {
          UpdateTagHistory(i, tags);
        }
        ToggleViewOn(i, mask);
      }
      RefocusArranged();
    }

    method Tag(mask: Mask)
      requires Ready()
      modifies this`info, this`space, this`focusStack, this`selMon, this`tagHistory, monitors
      ensures Ready() && Abs() == C.Tag(cfg, old(Abs()), mask)
    {
      hide Ready, Abs, DataOf, C.Refocus, C.ArrangeAll, C.RecordTags, C.ViewOn, C.FocusedWindow;
      var tags := mask * TagMask(cfg.tagCount);
      if tags == {} {
        return;
      }
      var focused := FocusedWindow();
      if focused.Some? {
        WriteCell(focused.value, St(info, focused.value).(tags := tags));
        if cfg.follow {
          var i := selMon;
          UpdateTagHistory(i, tags);
          ViewOn(i, tags);
        }
      }
      RefocusArranged();
    }

    method ToggleTag(mask: Mask)
      requires Ready()
      modifies this`info, this`space, monitors
      ensures Ready() && Abs() == C.ToggleTag(cfg, old(Abs()), mask)
    {
      hide Ready, Abs, DataOf, C.ArrangeAll, C.FocusedWindow;
      var focused := FocusedWindow();
      if focused.Some? {
        var tags := Xor(St(info, focused.value).tags, mask) * TagMask(cfg.tagCount);
        if tags != {} {
          WriteCell(focused.value, St(info, focused.value).(tags := tags));
        }
      }
      ArrangeAll();
    }

    /** The cyclic neighbour of a position; with nothing focused, the first or the last. */
    function Neighbour(at: Option<nat>, n: nat, dir: int): (next: nat)
      requires n > 0
      ensures next < n
    {
      if at.None? then (if dir > 0 then 0 else n - 1)
      else if dir > 0 then (at.value + 1) % n
      else (at.value + n - 1) % n
    }

    lemma StackStepParts(s: C.State, dir: int)
      ensures
        var eligible := Select(Steppable(C.SelTags(s), s.selMon), s.info, s.windows);
        var focused := C.FocusedWindow(s);
        var at := if focused.Some? then Find(eligible, focused.value) else None;
        C.FocusStackStep(cfg, s, dir)
        == if eligible == [] then s else C.FocusWindow(cfg, s, Some(eligible[Neighbour(at, |eligible|, dir)]))
    {
      hide Select, Sat, C.FocusWindow, C.FocusedWindow, C.SelTags, Find;
    }

    method FocusStackStep(dir: int)
      requires Ready()
      modifies this`info, this`space, this`focusStack, this`selMon, monitors
      ensures Ready() && Abs() == C.FocusStackStep(cfg, old(Abs()), dir)
    {
      hide *;
      ghost var s := Abs();
      StackStepParts(s, dir);
      var tags := SelTags();
      var focused := FocusedWindow();
      var eligible := Collect(Steppable(tags, selMon), windows);
      if eligible == [] {
        return;
      }
      var at: Option<nat> := None;
      if focused.Some? {
        at := PositionOf(eligible, focused.value);
      }
      var next := eligible[Neighbour(at, |eligible|, dir)];
      assert C.FocusStackStep(cfg, s, dir) == C.FocusWindow(cfg, s, Some(next));
      FocusWindow(Some(next));
    }

    /**
     Look for a candidate other than the focused window; when the focused one has been passed on the
     way it is the master, and the candidate is promoted in its place.
     */
    method ZoomScan(q: Query, focused: Window) returns (target: Option<Window>)
      requires NoDup(windows)
      ensures target == ZoomPick(Select(q, info, windows), focused)
    {
      hide Select, Sat, Without;
      var promoteNext := false;
      var c: Option<Window> := None;
      var k := 0;
      assert Select(q, info, windows[..0]) == [];
      while k < |windows| && c.None?
        invariant k <= |windows|
        invariant promoteNext ==> focused in windows[..k]
        invariant c.None? ==> Select(q, info, windows[..k]) == if promoteNext then [focused] else []
        invariant c.Some? ==> c.value != focused
        invariant c.Some? ==> Select(q, info, windows[..k]) == (if promoteNext then [focused] else []) + [c.value]
      {
        var w := windows[k];
        assert windows[..k + 1] == windows[..k] + [w];
        NotBefore(windows, k);
        SelectSnoc(q, info, windows[..k], w);
        if Sat(q, St(info, w)) {
          if w == focused {
            promoteNext := true;
          } else {
            c := Some(w);
          }
        }
        k := k + 1;
      }
      assert windows == windows[..k] + windows[k..];
      SelectConcat(q, info, windows[..k], windows[k..]);
      if c.None? {
        assert windows[..k] == windows;
        PickNone(focused);
        return None;
      }
      PickSome(promoteNext, focused, c.value, Select(q, info, windows[k..]));
      target := Some(if promoteNext then c.value else focused);
    }

    /** Which window `zoom` promotes among the candidates in tiling order. */
    function ZoomPick(candidates: seq<Window>, focused: Window): Option<Window> {
      var others := Without(candidates, focused);
      if others == [] then None
      else if candidates[0] == focused then Some(others[0])
      else Some(focused)
    }

    lemma PickNone(focused: Window)
      ensures ZoomPick([], focused) == None && ZoomPick([focused], focused) == None
    {
    }

    lemma PickSome(master: bool, focused: Window, c: Window, rest: seq<Window>)
      requires c != focused
      ensures var candidates := (if master then [focused] else []) + [c] + rest;
              ZoomPick(candidates, focused) == Some(if master then c else focused)
    {
      var front := (if master then [focused] else []) + [c];
      WithoutConcat(front, rest, focused);
      assert Without(front, focused) == [c] by {
        if master {
          WithoutSnoc([focused], c, focused);
        } else {
          assert front == [c];
        }
      }
      assert c in front + rest;
    }

    lemma ZoomTargetIsPick(s: C.State, focused: Window)
      requires C.FocusedWindow(s) == Some(focused) && s.selMon < |s.monitors|
      requires !St(s.info, focused).isFloating && !St(s.info, focused).isFullscreen
      ensures C.ZoomTarget(s) == ZoomPick(Select(ZoomCandidate(C.SelTags(s), s.selMon), s.info, s.windows), focused)
    {
    }

    method Zoom()
      requires Ready()
      modifies this`info, this`space, this`focusStack, this`selMon, this`windows, monitors
      ensures Ready() && Abs() == C.Zoom(cfg, old(Abs()))
    {
      hide NoDup, Distinct, DataOf, ToFront, Select, C.FocusWindow, C.ArrangeAll, C.FocusedWindow, MonitorData.Tags;
      ghost var s := Abs();
      var focused := FocusedWindow();
      if focused.None? {
        return;
      }
      var w := focused.value;
      if St(info, w).isFloating || St(info, w).isFullscreen || selMon >= |monitors| {
        return;
      }
      ZoomTargetIsPick(s, w);
      var target := ZoomScan(ZoomCandidate(monitors[selMon].Data().Tags(), selMon), w);
      hide C.ZoomTarget;
      if target.None? {
        return;
      }
      ToFrontNoDup(windows, target.value);
      windows := Promote(windows, target.value);
      assert DataOf(monitors) == s.monitors;
      FocusWindow(target);
      ArrangeAll();
    }

    function DirToMonitor(from: nat, dir: int): (r: Option<nat>)
      reads this
      ensures r == C.DirToMonitor(|monitors|, from, dir)
    {
      var n := |monitors|;
      if n < 2 then None
      else if dir > 0 then Some((from + 1) % n)
      else Some((from + n - 1) % n)
    }

    method FocusMon(dir: int)
      requires Ready()
      modifies this`info, this`space, this`focusStack, this`selMon, monitors
      ensures Ready() && Abs() == C.FocusMon(cfg, old(Abs()), dir)
    {
      hide Ready, Abs, DataOf, C.Refocus, C.ArrangeAll, C.DirToMonitor;
      var next := DirToMonitor(selMon, dir);
      if next.Some? {
        SelectMonitor(next.value);
        Refocus();
        ArrangeAll();
      }
    }

    method TagMon(dir: int)
      requires Ready()
      modifies this`info, this`space, this`focusStack, this`selMon, monitors
      ensures Ready() && Abs() == C.TagMon(cfg, old(Abs()), dir)
    {
      hide Ready, Abs, DataOf, C.FocusWindow, C.ArrangeAll, C.DirToMonitor, C.FocusedWindow, MonitorData.Tags;
      var focused := FocusedWindow();
      var next := DirToMonitor(selMon, dir);
      if focused.None? || next.None? {
        return;
      }
      var w := focused.value;
      var tags := TagsOf(next.value, {0});
      WriteCell(w, St(info, w).(tags := tags, monIdx := next.value));
      if cfg.follow {
        SelectMonitor(next.value);
        FocusWindow(focused);
      }
      ArrangeAll();
    }

    method FocusUrgent()
      requires Ready()
      modifies this`info, this`space, this`focusStack, this`selMon, monitors
      ensures Ready() && Abs() == C.FocusUrgent(cfg, old(Abs()))
    {
      hide Ready, Abs, DataOf, First, C.FocusWindow, C.ArrangeAll, C.ViewOn;
      var urgent := Search(Urgent, focusStack);
      if urgent.None? {
        urgent := Search(Urgent, windows);
      }
      if urgent.None? {
        return;
      }
      var st := St(info, urgent.value);
      SelectMonitor(st.monIdx);
      if st.tags != {} {
        ViewOn(st.monIdx, st.tags);
      }
      ArrangeAll();
      FocusWindow(urgent);
    }

    // Scratchpads.

    method HideScratch(w: Window)
      requires Ready()
      modifies this`info, this`space, this`focusStack, this`selMon, this`windows, this`popups, monitors
      ensures Ready() && Abs() == C.HideScratch(cfg, old(Abs()), w)
    {
      hide Abs, DataOf, Distinct, NoDup, Without, C.Refocus, C.ArrangeAll;
      WriteCell(w, St(info, w).(tags := {}));
      WithoutNoDup(focusStack, w);
      Relist(windows, Without(focusStack, w), popups);
      RefocusThenArrange();
    }

    method ShowScratch(w: Window)
      requires Ready()
      modifies this`info, this`space, this`focusStack, this`selMon, monitors
      ensures Ready() && Abs() == C.ShowScratch(cfg, old(Abs()), w)
    {
      hide Ready, Abs, DataOf, C.FocusWindow, C.ArrangeAll, C.InitialTags;
      var _, tags := Birth();
      WriteCell(w, St(info, w).(tags := tags));
      FocusWindow(Some(w));
      ArrangeAll();
    }

    method ToggleVisible(w: Window)
      requires Ready()
      modifies this`info, this`space, this`focusStack, this`selMon, this`windows, this`popups, monitors
      ensures Ready() && Abs() == C.ToggleVisible(cfg, old(Abs()), w)
    {
      hide Ready, Abs, DataOf, C.HideScratch, C.ShowScratch, C.SelTags, Meets;
      var tags := SelTags();
      if Meets(St(info, w).tags, tags) {
        HideScratch(w);
      } else {
        ShowScratch(w);
      }
    }

    method ToggleScratch(key: char)
      requires Ready()
      modifies this`info, this`space, this`focusStack, this`selMon, this`windows, this`popups, monitors
      ensures Ready() && Abs() == C.ToggleScratch(cfg, old(Abs()), key)
    {
      hide Ready, Abs, DataOf, C.ToggleVisible, First;
      var w := Search(Keyed(key), windows);
      if w.Some? {
        ToggleVisible(w.value);
      }
    }

    method FocusOrToggleScratch(key: char)
      requires Ready()
      modifies this`info, this`space, this`focusStack, this`selMon, this`windows, this`popups, monitors
      ensures Ready() && Abs() == C.FocusOrToggleScratch(cfg, old(Abs()), key)
    {
      hide Ready, Abs, DataOf, C.HideScratch, C.ShowScratch, C.FocusedWindow, First;
      var focused := FocusedWindow();
      var w := Search(Keyed(key), windows);
      if w.Some? {
        if focused == w {
          HideScratch(w.value);
        } else {
          ShowScratch(w.value);
        }
      }
    }

    method ToggleMatching(candidate: Option<Window>)
      requires Ready()
      modifies this`info, this`space, this`focusStack, this`selMon, this`windows, this`popups, monitors
      ensures Ready() && Abs() == C.ToggleMatching(cfg, old(Abs()), candidate)
    {
      hide Ready, Abs, DataOf, C.ToggleVisible;
      if candidate.Some? && candidate.value in windows {
        ToggleVisible(candidate.value);
      }
    }

    method SetLayout(idx: Option<nat>)
      requires Ready()
      modifies this`info, this`space, monitors
      ensures Ready() && Abs() == C.SetLayout(cfg, old(Abs()), idx)
    {
      hide Ready, Abs, DataOf, C.ArrangeAll, MonitorData.SetLayout;
      if selMon < |monitors| {
        SetLayoutOn(selMon, idx);
      }
      ArrangeAll();
    }

    method CycleLayout()
      requires Ready()
      modifies this`info, this`space, monitors
      ensures Ready() && Abs() == C.CycleLayout(cfg, old(Abs()))
    {
      hide Ready, Abs, DataOf, C.ArrangeAll, MonitorData.SetLayout;
      if selMon < |monitors| && cfg.layouts != [] {
        var m: MonitorData := monitors[selMon].Data();
        SetLayoutOn(selMon, Some((m.lt.At(m.selLt) + 1) % |cfg.layouts|));
      }
      ArrangeAll();
    }

    method IncNmaster(delta: int)
      requires Ready()
      modifies this`info, this`space, monitors
      ensures Ready() && Abs() == C.IncNmaster(cfg, old(Abs()), delta)
    {
      hide Ready, Abs, DataOf, C.ArrangeAll;
      if selMon < |monitors| {
        var m: MonitorData := monitors[selMon].Data();
        Tune(selMon, if m.nmaster + delta > 0 then m.nmaster + delta else 0, m.mfact, m.zone, m.exclusive);
      }
      ArrangeAll();
    }

    method SetMfact(delta: real)
      requires Ready()
      modifies this`info, this`space, monitors
      ensures Ready() && Abs() == C.SetMfact(cfg, old(Abs()), delta)
    {
      hide Ready, Abs, DataOf, C.ArrangeAll, Clamp;
      if selMon < |monitors| {
        var m: MonitorData := monitors[selMon].Data();
        Tune(selMon, m.nmaster, Clamp(m.mfact + delta, 0.05, 0.95), m.zone, m.exclusive);
      }
      ArrangeAll();
    }

    method ToggleFloating()
      requires Ready()
      modifies this`info, this`space, monitors
      ensures Ready() && Abs() == C.ToggleFloating(cfg, old(Abs()))
    {
      hide Ready, Abs, DataOf, C.ArrangeAll, C.FocusedWindow;
      var focused := FocusedWindow();
      if focused.Some? {
        var st := St(info, focused.value);
        WriteCell(focused.value, st.(isFloating := !st.isFloating, needsCentering := st.needsCentering || !st.isFloating));
        ArrangeAll();
      }
    }

    method ToggleFullscreen()
      requires Ready()
      modifies this`info, this`space, monitors
      ensures Ready() && Abs() == C.ToggleFullscreen(cfg, old(Abs()))
    {
      hide Ready, Abs, DataOf, C.ArrangeAll, C.FocusedWindow;
      var focused := FocusedWindow();
      if focused.Some? {
        var st := St(info, focused.value);
        WriteCell(focused.value, st.(isFullscreen := !st.isFullscreen));
        ArrangeAll();
      }
    }

    method DispatchTuning(a: C.Action)
      requires Ready() && C.Tunes(a)
      modifies this`info, this`space, monitors
      ensures Ready() && Abs() == C.Act(cfg, old(Abs()), a)
    {
      hide Ready, Abs, DataOf, C.SetLayout, C.CycleLayout, C.IncNmaster, C.SetMfact, C.ToggleFloating, C.ToggleFullscreen;
      match a
      case SetLayoutA(idx) => SetLayout(idx);
      case CycleLayoutA => CycleLayout();
      case IncNmasterA(delta) => IncNmaster(delta);
      case SetMfactA(factor) => SetMfact(factor);
      case ToggleFloatingA => ToggleFloating();
      case ToggleFullscreenA => ToggleFullscreen();
    }

    method DispatchScratch(a: C.Action)
      requires Ready() && C.TogglesScratch(a)
      modifies this`info, this`space, this`focusStack, this`selMon, this`windows, this`popups, monitors
      ensures Ready() && Abs() == C.Act(cfg, old(Abs()), a)
    {
      hide Ready, Abs, DataOf, C.ToggleScratch, C.FocusOrToggleScratch, C.ToggleMatching;
      match a
      case ToggleScratchA(key) => ToggleScratch(key);
      case FocusOrToggleScratchA(key) => FocusOrToggleScratch(key);
      case ToggleMatchingA(candidate) => ToggleMatching(candidate);
    }

    method Dispatch(a: C.Action)
      requires Valid()
      modifies this`info, this`space, this`focusStack, this`selMon, this`tagHistory, this`windows, this`popups, monitors
      ensures Ready() && Abs() == C.Act(cfg, old(Abs()), a)
    {
      hide Abs, DataOf, Inv, NoDup, Distinct, C.FocusStackStep, C.Zoom, C.View, C.ViewPrev, C.ViewNextOccTag, C.ToggleView,
        C.Tag, C.ToggleTag, C.FocusMon, C.TagMon, C.FocusUrgent;
      if C.Tunes(a) {
        hide C.Act;
        DispatchTuning(a);
        return;
      }
      if C.TogglesScratch(a) {
        hide C.Act;
        DispatchScratch(a);
        return;
      }
      match a
      case FocusStackA(dir) => FocusStackStep(dir);
      case ZoomA => Zoom();
      case ViewA(mask) => View(mask);
      case ViewPrevA => ViewPrev();
      case ViewNextOccTagA(dir) => ViewNextOccTag(dir);
      case ToggleViewA(mask) => ToggleView(mask);
      case TagA(mask) => Tag(mask);
      case ToggleTagA(mask) => ToggleTag(mask);
      case FocusMonA(dir) => FocusMon(dir);
      case TagMonA(dir) => TagMon(dir);
      case FocusUrgentA => FocusUrgent();
    }

    // Windows coming and going.

    /** Where a new window appears and the tags it starts with. */
    method Birth() returns (loc: Point, tags: Mask)
      ensures loc == C.BaseLoc(Abs()) && tags == C.InitialTags(Abs())
    {
      loc := if selMon < |monitors| then monitors[selMon].work.loc else Point(0, 0);
      tags := TagsOf(selMon, {0});
    }

    lemma NewToplevelParts(s: C.State, w: Window)
      ensures
        var st := NewWindowState.(tags := C.InitialTags(s), monIdx := s.selMon);
        var t := s.(info := s.info[w := st], space := MapElement(s.space, w, C.BaseLoc(s)), windows := [w] + s.windows,
                    focus := ToFront(s.focus, w));
        C.NewToplevel(cfg, s, w)
        == if s.focus != [] && s.focus[0] == w then t else C.ArrangeBoth(cfg, t, s.selMon, C.FrontMonitor(s))
    {
      hide ToFront, C.ArrangeBoth, C.FrontMonitor, C.BaseLoc, C.InitialTags, MapElement;
    }

    /** A new window is mapped and becomes the first in tiling order. */
    method Open(w: Window, st: WindowState, loc: Point)
      requires Ready() && w !in windows
      modifies this`info, this`space, this`windows
      ensures
        var s := old(Abs());
        Ready() && Abs() == s.(info := s.info[w := st], space := MapElement(s.space, w, loc), windows := [w] + s.windows)
    {
      hide DataOf, Distinct, NoDup, MapElement;
      ghost var s := Abs();
      ConsNoDup(windows, w);
      info := info[w := st];
      space := MapElement(space, w, loc);
      windows := [w] + windows;
      assert DataOf(monitors) == s.monitors;
    }

    method NewToplevel(w: Window)
      requires Ready() && w !in windows
      modifies this`info, this`space, this`focusStack, this`windows, this`popups, monitors
      ensures Ready() && Abs() == C.NewToplevel(cfg, old(Abs()), w)
    {
      hide Abs, DataOf, Distinct, NoDup, ToFront, MapElement, C.NewToplevel, C.ArrangeBoth, C.FrontMonitor, C.BaseLoc, C.InitialTags;
      ghost var s := Abs();
      NewToplevelParts(s, w);
      var loc, tags := Birth();
      var prev := FrontMonitor();
      var changed := focusStack == [] || focusStack[0] != w;
      Open(w, NewWindowState.(tags := tags, monIdx := selMon), loc);
      ToFrontNoDup(focusStack, w);
      var stack := Promote(focusStack, w);
      Relist(windows, stack, popups);
      if changed {
        ArrangeBoth(selMon, prev);
      }
    }

    lemma ConsNoDup(ws: seq<Window>, w: Window)
      requires NoDup(ws) && w !in ws
      ensures NoDup([w] + ws)
    {
      NoDupConcat([w], ws);
    }

    method MoveWindow(w: Window, loc: Point)
      requires Ready()
      modifies this`space
      ensures Ready() && Abs() == old(Abs()).(space := MapElement(old(space), w, loc))
    {
      hide NoDup, Distinct, DataOf, MapElement;
      ghost var ms := DataOf(monitors);
      space := MapElement(space, w, loc);
      assert DataOf(monitors) == ms;
    }

    /** Centre an X11 window on its monitor. */
    method CentreX11(w: Window, width: int, height: int)
      requires Ready()
      modifies this`info, this`space
      ensures Ready() && Abs() == C.CentreX11(old(Abs()), w, width, height)
    {
      hide Ready, Abs, DataOf, MapElement;
      var mon := St(info, w).monIdx;
      if width > 0 && height > 0 && mon < |monitors| {
        var loc := monitors[mon].Data().Centre(width, height);
        WriteCell(w, St(info, w).(savedLoc := Some(loc)));
        MoveWindow(w, loc);
      }
    }

    method MapX11(w: Window, float: bool, width: int, height: int)
      requires Ready() && w !in windows
      modifies this`info, this`space, this`focusStack, this`selMon, this`windows, monitors
      ensures Ready() && Abs() == C.MapX11(cfg, old(Abs()), w, float, width, height)
    {
      hide Ready, Abs, DataOf, Distinct, NoDup, MapElement, C.CentreX11, C.FocusWindow, C.ArrangeAll, C.BaseLoc, C.InitialTags;
      var loc, tags := Birth();
      Open(w, NewWindowState.(tags := tags, monIdx := selMon, isFloating := float, isX11 := true), loc);
      if float {
        CentreX11(w, width, height);
      }
      FocusWindow(Some(w));
      ArrangeAll();
    }

    method ConfigureX11(w: Window, at: Point, x: Option<int>, y: Option<int>)
      requires Ready()
      modifies this`info, this`space
      ensures Ready() && Abs() == C.ConfigureX11(old(Abs()), w, at, x, y)
    {
      hide Ready, Abs, DataOf, MapElement;
      var st := St(info, w);
      if w !in popups && !st.isFloating {
        return;
      }
      var loc := if st.savedLoc.Some? then st.savedLoc.value else at;
      if x.Some? {
        loc := Point(x.value, loc.y);
      }
      if y.Some? {
        loc := Point(loc.x, y.value);
      }
      MoveWindow(w, loc);
      WriteCell(w, st.(savedLoc := Some(loc)));
    }

    method MapPopup(w: Window, loc: Point)
      requires Ready()
      modifies this`info, this`space, this`popups
      ensures Ready() && Abs() == C.MapPopup(old(Abs()), w, loc)
    {
      hide DataOf, Distinct, NoDup, MapElement;
      ghost var s := Abs();
      info := info[w := NewWindowState.(rulesApplied := true, isX11 := true)];
      space := MapElement(space, w, loc);
      popups := popups + [w];
      assert DataOf(monitors) == s.monitors;
    }

    method TileMasterWindow() returns (r: Option<Window>)
      ensures r == C.TileMasterWindow(cfg, Abs())
    {
      hide First, MonitorData.Kind;
      if selMon >= |monitors| || monitors[selMon].Data().Kind(cfg) != Tile {
        return None;
      }
      var tags := SelTags();
      r := Search(TileMaster(tags, selMon), windows);
    }

    /** Who gets the focus when a window closes. */
    method Successor(mapped: bool) returns (top: Option<Window>)
      ensures
        var master := if mapped then C.TileMasterWindow(cfg, Abs()) else None;
        top == if master.Some? then master else C.FocusedWindow(Abs())
    {
      hide *;
      top := None;
      if mapped {
        top := TileMasterWindow();
      }
      if top.None? {
        top := FocusedWindow();
      }
    }

    method ToplevelDestroyed(w: Window)
      requires Ready()
      modifies this`info, this`space, this`focusStack, this`selMon, this`windows, this`popups, monitors
      ensures Ready() && Abs() == C.ToplevelDestroyed(cfg, old(Abs()), w)
    {
      hide Abs, DataOf, Distinct, NoDup, Without, UnmapElem, C.TileMasterWindow, C.FocusedWindow, C.FocusWindow, C.ArrangeAll, St;
      WithoutNoDup(windows, w);
      WithoutNoDup(focusStack, w);
      Relist(Without(windows, w), Without(focusStack, w), popups);
      UnmapOne(w);
      var top := Successor(St(info, w).bufferMapped);
      FocusWindow(top);
      ArrangeAll();
    }

    method UnmapAll(ws: seq<Window>)
      requires Ready()
      modifies this`space
      ensures Ready() && Abs() == old(Abs()).(space := C.UnmapAll(old(space), ws))
    {
      hide NoDup, Distinct, DataOf, UnmapElem;
      ghost var s := Abs();
      var k := 0;
      while k < |ws|
        invariant k <= |ws|
        invariant space == C.UnmapAll(s.space, ws[..k])
      {
        assert ws[..k + 1][..k] == ws[..k];
        space := UnmapElem(space, ws[k]);
        k := k + 1;
      }
      assert ws[..k] == ws;
      assert DataOf(monitors) == s.monitors;
    }

    method Relist(windows: seq<Window>, focusStack: seq<Window>, popups: seq<Window>)
      requires Ready() && NoDup(windows) && NoDup(focusStack)
      modifies this`windows, this`focusStack, this`popups
      ensures Ready()
      ensures Abs() == old(Abs()).(windows := windows, focus := focusStack, popups := popups)
    {
      hide NoDup, Distinct, DataOf;
      ghost var ms := DataOf(monitors);
      this.windows, this.focusStack, this.popups := windows, focusStack, popups;
      assert DataOf(monitors) == ms;
    }

    method RefocusThenArrange()
      requires Ready()
      modifies this`info, this`space, this`focusStack, this`selMon, monitors
      ensures Ready() && Abs() == C.ArrangeAll(cfg, C.Refocus(cfg, old(Abs())))
    {
      hide *;
      Refocus();
      ArrangeAll();
    }

    method UnmapX11(w: Window)
      requires Ready()
      modifies this`info, this`space, this`focusStack, this`selMon, this`windows, this`popups, monitors
      ensures Ready() && Abs() == C.UnmapX11(cfg, old(Abs()), w)
    {
      hide Abs, DataOf, Distinct, NoDup, Without, C.UnmapAll, C.Refocus, C.ArrangeAll;
      if w in popups {
        UnmapOne(w);
        Relist(windows, focusStack, Without(popups, w));
      } else if w in windows {
        UnmapOne(w);
        WithoutNoDup(windows, w);
        WithoutNoDup(focusStack, w);
        var orphans := popups;
        Relist(Without(windows, w), Without(focusStack, w), []);
        UnmapAll(orphans);
        RefocusThenArrange();
      }
    }

    method UnmapOne(w: Window)
      requires Ready()
      modifies this`space
      ensures Ready() && Abs() == old(Abs()).(space := UnmapElem(old(space), w))
    {
      hide NoDup, Distinct, DataOf, UnmapElem;
      ghost var ms := DataOf(monitors);
      space := UnmapElem(space, w);
      assert DataOf(monitors) == ms;
    }

    method Disconnected()
      requires Ready()
      modifies this`info, this`space, this`focusStack, this`selMon, this`windows, this`popups, monitors
      ensures Ready() && Abs() == C.Disconnected(cfg, old(Abs()))
    {
      hide Abs, DataOf, Distinct, NoDup, Select, C.UnmapAll, C.Refocus, C.ArrangeAll;
      var dead := Collect(IsX11, windows);
      if dead == [] && popups == [] {
        return;
      }
      UnmapAll(dead);
      UnmapAll(popups);
      var alive := Collect(NotX11, windows);
      var stack := Collect(NotX11, focusStack);
      SelectNoDup(NotX11, info, windows);
      SelectNoDup(NotX11, info, focusStack);
      Relist(alive, stack, []);
      RefocusThenArrange();
    }

    // Rules and commits.

    method FoldRules(rules: seq<C.Rule>, float: bool) returns (acc: C.RuleAccum)
      ensures acc == C.FoldRules(cfg, rules, float)
    {
      acc := C.RuleAccum({}, float, NO_KEY, -1, None);
      for k := 0 to |rules|
        invariant acc == C.FoldRules(cfg, rules[..k], float)
      {
        assert rules[..k + 1][..k] == rules[..k];
        var r := rules[k];
        acc := C.RuleAccum(
          acc.tags + r.tags,
          acc.isFloating || r.isFloating,
          if r.scratchKey == NO_KEY then acc.scratchKey else r.scratchKey,
          if r.monitor >= 0 then r.monitor else acc.monitor,
          if r.switchToTag && r.tags != {} then Some(r.tags * TagMask(cfg.tagCount)) else acc.switchToTag);
      }
      assert rules[..|rules|] == rules;
    }

    method SwitchToTag(w: Window, mon: nat, mask: Mask)
      requires Ready()
      modifies this`info, this`tagHistory, monitors
      ensures Ready() && Abs() == C.SwitchToTag(cfg, old(Abs()), w, mon, mask)
    {
      hide Ready, Abs, DataOf, C.RecordTags, C.ViewOn, MonitorData.Tags;
      RecordKeepsMonitors(Abs(), mon, mask);
      UpdateTagHistory(mon, mask);
      if mon < |monitors| {
        var prev := monitors[mon].Data().Tags();
        if prev != mask * TagMask(cfg.tagCount) {
          ViewOn(mon, mask);
          WriteCell(w, St(info, w).(switchToTag := Some(prev)));
        }
      }
    }

    method TargetMonitor(ruleMonitor: int) returns (mon: nat)
      ensures mon == C.TargetMonitor(Abs(), ruleMonitor)
    {
      if ruleMonitor >= 0 {
        var last := if monitors == [] then 0 else |monitors| - 1;
        return if ruleMonitor < last then ruleMonitor else last;
      }
      mon := selMon;
    }

    /** A transient child floats on its parent's monitor and tags; no rules apply to it. */
    method ApplyChild(w: Window, parent: Option<Window>)
      requires Ready()
      modifies this`info
      ensures Ready() && Abs() == C.ApplyRules(cfg, old(Abs()), w, C.Child(parent))
    {
      hide Ready, Abs, DataOf, C.SwitchToTag, C.InitialTags;
      var mon := selMon;
      var _, tags := Birth();
      if parent.Some? && parent.value in windows {
        mon, tags := St(info, parent.value).monIdx, St(info, parent.value).tags;
      }
      WriteCell(w, St(info, w).(tags := tags, isFloating := true, needsCentering := true, monIdx := mon));
    }

    function Ruled(st: WindowState, acc: C.RuleAccum, mon: nat, tags: Mask): WindowState {
      st.(tags := tags, isFloating := acc.isFloating, needsCentering := acc.isFloating && !st.isX11,
          scratchKey := acc.scratchKey, monIdx := mon)
    }

    lemma MatchedParts(s: C.State, w: Window, rules: seq<C.Rule>, floatType: bool)
      ensures
        var acc := C.FoldRules(cfg, rules, floatType || St(s.info, w).isFloating);
        var mon := C.TargetMonitor(s, acc.monitor);
        var tags := if acc.tags != {} then acc.tags * TagMask(cfg.tagCount)
                    else if mon < |s.monitors| then s.monitors[mon].Tags() else {0};
        var t := if acc.switchToTag.Some? then C.SwitchToTag(cfg, s, w, mon, acc.switchToTag.value) else s;
        C.ApplyRules(cfg, s, w, C.Matched(rules, floatType)) == t.(info := t.info[w := Ruled(St(t.info, w), acc, mon, tags)])
    {
      hide C.FoldRules, C.SwitchToTag, C.TargetMonitor, MonitorData.Tags;
    }

    method ApplyMatched(w: Window, rules: seq<C.Rule>, floatType: bool)
      requires Ready()
      modifies this`info, this`tagHistory, monitors
      ensures Ready() && Abs() == C.ApplyRules(cfg, old(Abs()), w, C.Matched(rules, floatType))
    {
      hide *;
      MatchedParts(Abs(), w, rules, floatType);
      var acc := FoldRules(rules, floatType || St(info, w).isFloating);
      var mon := TargetMonitor(acc.monitor);
      var tags := TagsOf(mon, {0});
      if acc.tags != {} {
        tags := acc.tags * TagMask(cfg.tagCount);
      }
      if acc.switchToTag.Some? {
        SwitchToTag(w, mon, acc.switchToTag.value);
      }
      WriteCell(w, Ruled(St(info, w), acc, mon, tags));
    }

    method ApplyRules(w: Window, verdict: C.Verdict)
      requires Ready()
      modifies this`info, this`tagHistory, monitors
      ensures Ready() && Abs() == C.ApplyRules(cfg, old(Abs()), w, verdict)
    {
      hide *;
      match verdict
      case Child(parent) => ApplyChild(w, parent);
      case Matched(rules, floatType) => ApplyMatched(w, rules, floatType);
    }

    method FirstCommit(w: Window, verdict: C.Verdict)
      requires Ready()
      modifies this`info, this`space, this`focusStack, this`selMon, this`tagHistory, monitors
      ensures Ready() && Abs() == C.FirstCommit(cfg, old(Abs()), w, verdict)
    {
      hide Ready, Abs, DataOf, C.ApplyRules, C.Refocus, C.ArrangeAll;
      WriteCell(w, St(info, w).(rulesApplied := true));
      ApplyRules(w, verdict);
      RefocusArranged();
    }

    /** Whether any monitor shows one of the tags. */
    method AnyShows(tags: Mask) returns (shown: bool)
      ensures shown == Meets(C.AllVisible(Abs().monitors), tags)
    {
      var all := VisibleTags();
      shown := Meets(all, tags);
    }

    method CentreWindow(w: Window, width: int, height: int)
      requires Ready()
      modifies this`info, this`space
      ensures Ready() && Abs() == C.CentreWindow(old(Abs()), w, width, height)
    {
      hide Ready, Abs, DataOf, MapElement, Meets, C.AllVisible;
      var st := St(info, w);
      if st.monIdx < |monitors| {
        var loc := monitors[st.monIdx].Data().Centre(width, height);
        var shown := AnyShows(st.tags);
        if shown {
          WriteCell(w, st.(needsCentering := false));
          MoveWindow(w, loc);
        } else {
          WriteCell(w, st.(needsCentering := false, savedLoc := Some(loc)));
        }
      }
    }

    /** The first buffer decides, once more, whether a toplevel is of a floating type. */
    method MapBuffer(w: Window, floatType: bool)
      requires Ready()
      modifies this`info, this`space, monitors
      ensures
        var s := old(Abs());
        var st := St(s.info, w);
        && Ready()
        && Abs() == if st.bufferMapped then s
                    else if !st.isX11 && !st.isFloating && !st.isFullscreen && floatType
                    then C.ArrangeAll(cfg, s.(info := s.info[w := st.(bufferMapped := true, isFloating := true, needsCentering := true)]))
                    else s.(info := s.info[w := st.(bufferMapped := true)])
    {
      hide *;
      var st := St(info, w);
      if st.bufferMapped {
        return;
      }
      if !st.isX11 && !st.isFloating && !st.isFullscreen && floatType {
        WriteCell(w, st.(bufferMapped := true, isFloating := true, needsCentering := true));
        ArrangeAll();
      } else {
        WriteCell(w, st.(bufferMapped := true));
      }
    }

    method BufferCommit(w: Window, width: int, height: int, floatType: bool)
      requires Ready()
      modifies this`info, this`space, monitors
      ensures Ready() && Abs() == C.BufferCommit(cfg, old(Abs()), w, width, height, floatType)
    {
      hide Ready, Abs, DataOf, C.CentreWindow, C.ArrangeAll, St;
      if width <= 0 || height <= 0 {
        return;
      }
      MapBuffer(w, floatType);
      if St(info, w).needsCentering {
        CentreWindow(w, width, height);
      }
    }

    // Outputs coming and going.

    method MonitorFor(output: Output) returns (r: Option<nat>)
      ensures r == C.MonitorFor(Abs().monitors, output)
    {
      hide DataOf;
      ghost var ms := DataOf(monitors);
      var k := 0;
      while k < |monitors|
        invariant k <= |monitors|
        invariant C.MonitorFor(ms[..k], output) == None
      {
        assert ms[..k + 1][..k] == ms[..k];
        if monitors[k].output == output {
          FirstMonitorFor(ms, output, k);
          return Some(k);
        }
        k := k + 1;
      }
      assert ms[..k] == ms;
      r := None;
    }

    lemma FirstMonitorFor(ms: seq<MonitorData>, output: Output, k: nat)
      requires k < |ms| && ms[k].output == output && C.MonitorFor(ms[..k], output) == None
      ensures C.MonitorFor(ms, output) == Some(k)
    {
      assert forall i :: 0 <= i < k ==> ms[..k][i] == ms[i];
    }

    method Push(mon: Monitor)
      requires Ready() && mon !in monitors
      modifies this`monitors, this`tagHistory
      ensures Ready() && monitors == old(monitors) + [mon]
      ensures Abs() == old(Abs()).(monitors := old(Abs()).monitors + [mon.Data()], history := old(Abs()).history + [[]])
    {
      hide NoDup;
      ghost var ms := DataOf(monitors);
      monitors := monitors + [mon];
      tagHistory := tagHistory + [[]];
      assert DataOf(monitors) == ms + [mon.Data()];
    }

    method Forget(name: string)
      requires Ready()
      modifies this`memory
      ensures Ready() && Abs() == old(Abs()).(memory := old(memory) - {name})
    {
      hide NoDup, Distinct, DataOf;
      ghost var ms := DataOf(monitors);
      memory := memory - {name};
      assert DataOf(monitors) == ms;
    }

    method Plug(output: Output, rule: MonitorRule)
      requires Ready()
      modifies this`monitors, this`tagHistory, this`memory
      ensures Ready() && Abs() == C.PlugMonitor(cfg, old(Abs()), output, rule)
      ensures |monitors| == |old(monitors)| + 1 && monitors[..|old(monitors)|] == old(monitors)
      ensures fresh(monitors[|old(monitors)|])
    {
      hide NoDup, Distinct, DataOf, Fresh, MonitorData.Restore;
      ghost var s := Abs();
      var mon := new Monitor(cfg, output, rule);
      if output.name in memory {
        mon.Restore(cfg, memory[output.name]);
      }
      assert DataOf(monitors) == s.monitors;
      Forget(output.name);
      Push(mon);
    }

    method OutputAdded(output: Output, rule: MonitorRule)
      requires Ready()
      modifies this`info, this`space, this`monitors, this`tagHistory, this`memory, monitors
      ensures Ready() && Abs() == C.OutputAdded(cfg, old(Abs()), output, rule)
    {
      hide Ready, Abs, DataOf, C.PlugMonitor, C.ArrangeAll;
      Plug(output, rule);
      ArrangeAll();
    }

    method AdoptCell(st: WindowState, idx: nat, target: nat, tags: Mask) returns (r: WindowState)
      ensures r == C.Adopt(st, idx, target, tags)
    {
      r := st;
      if st.monIdx == idx {
        if st.tags != {} {
          r := r.(tags := tags);
        }
        r := r.(monIdx := target);
      }
    }

    /** Hand the windows of monitor `idx` over to the target. */
    method Adopt(idx: nat, target: nat, tags: Mask)
      requires Ready()
      modifies this`info
      ensures Ready() && Abs() == old(Abs()).(info := C.AdoptAll(old(info), windows, idx, target, tags))
    {
      hide NoDup, Distinct, DataOf, C.Adopt;
      ghost var s := Abs();
      var k := 0;
      while k < |windows|
        invariant k <= |windows|
        invariant info == C.AdoptAll(s.info, windows[..k], idx, target, tags)
      {
        assert windows[..k + 1][..k] == windows[..k];
        var st := AdoptCell(St(info, windows[k]), idx, target, tags);
        info := info[windows[k] := st];
        k := k + 1;
      }
      assert windows[..k] == windows;
      assert DataOf(monitors) == s.monitors;
    }

    /** Every index above the removed one moves down. */
    method ShiftIndices(idx: nat)
      requires Ready()
      modifies this`info
      ensures Ready() && Abs() == old(Abs()).(info := C.ShiftAll(old(info), windows, idx))
    {
      hide NoDup, Distinct, DataOf;
      ghost var s := Abs();
      var k := 0;
      while k < |windows|
        invariant k <= |windows|
        invariant info == C.ShiftAll(s.info, windows[..k], idx)
      {
        assert windows[..k + 1][..k] == windows[..k];
        var w := windows[k];
        var st := St(info, w);
        info := info[w := if st.monIdx > idx then st.(monIdx := st.monIdx - 1) else st.(monIdx := st.monIdx)];
        k := k + 1;
      }
      assert windows[..k] == windows;
      assert DataOf(monitors) == s.monitors;
    }

    method Remember(idx: nat)
      requires Ready() && idx < |monitors|
      modifies this`memory
      ensures Ready()
      ensures var m := old(Abs()).monitors[idx];
              Abs() == old(Abs()).(memory := old(memory)[m.output.name := m.Snapshot()])
    {
      hide NoDup, Distinct, DataOf;
      ghost var ms := DataOf(monitors);
      var m: MonitorData := monitors[idx].Data();
      memory := memory[m.output.name := m.Snapshot()];
      assert DataOf(monitors) == ms;
    }

    lemma RemoveAtIndex<T>(xs: seq<T>, i: nat, k: nat)
      requires i < |xs| && k < |xs| - 1
      ensures RemoveAt(xs, i)[k] == xs[if k < i then k else k + 1]
    {
    }

    lemma DropParts(ms: seq<Monitor>, idx: nat)
      requires idx < |ms|
      ensures DataOf(RemoveAt(ms, idx)) == RemoveAt(DataOf(ms), idx)
    {
      hide DataOf, RemoveAt;
      var left, all := DataOf(RemoveAt(ms, idx)), DataOf(ms);
      forall k | 0 <= k < |left|
        ensures left[k] == RemoveAt(all, idx)[k]
      {
        RemoveAtIndex(ms, idx, k);
        RemoveAtIndex(all, idx, k);
      }
    }

    lemma DropDistinct(ms: seq<Monitor>, idx: nat)
      requires idx < |ms| && Distinct(ms)
      ensures Distinct(RemoveAt(ms, idx))
    {
    }

    /** Take monitor `idx` out of the positional lists. */
    method DropMonitor(idx: nat)
      requires Ready() && idx < |monitors|
      modifies this`monitors, this`tagHistory
      ensures Ready() && monitors == RemoveAt(old(monitors), idx)
      ensures
        var s := old(Abs());
        |s.history| == |s.monitors| && Abs() == s.(monitors := RemoveAt(s.monitors, idx), history := RemoveAt(s.history, idx))
    {
      hide NoDup, Distinct, DataOf;
      ghost var ms := DataOf(monitors);
      DropParts(monitors, idx);
      DropDistinct(monitors, idx);
      monitors := RemoveAt(monitors, idx);
      tagHistory := RemoveAt(tagHistory, idx);
      assert DataOf(monitors) == RemoveAt(ms, idx);
    }

    /** The selection once monitor `idx` is gone and `n` are left. */
    function Repaired(sel: nat, idx: nat, n: nat): nat {
      if n == 0 then 0 else if sel > idx then sel - 1 else if sel >= n then n - 1 else sel
    }

    method RepairSelection(idx: nat)
      requires Ready()
      modifies this`selMon
      ensures Ready()
      ensures var s := old(Abs()); Abs() == s.(selMon := Repaired(s.selMon, idx, |s.monitors|))
    {
      hide Ready, Abs, DataOf;
      if monitors == [] {
        SelectMonitor(0);
      } else if selMon > idx {
        SelectMonitor(selMon - 1);
      } else if selMon >= |monitors| {
        SelectMonitor(|monitors| - 1);
      }
    }

    lemma UnplugParts(s: C.State, idx: nat)
      requires idx < |s.monitors|
      ensures
        var target := C.MigrationTarget(s, idx);
        var tags := if target < |s.monitors| then s.monitors[target].Tags() else {0};
        |s.history| == |s.monitors| ==> C.UnplugMonitor(s, idx) == s.(
          info := C.ShiftAll(C.AdoptAll(s.info, s.windows, idx, target, tags), s.windows, idx),
          memory := s.memory[s.monitors[idx].output.name := s.monitors[idx].Snapshot()],
          monitors := RemoveAt(s.monitors, idx),
          history := RemoveAt(s.history, idx),
          selMon := Repaired(s.selMon, idx, |s.monitors| - 1))
    {
      hide C.ShiftAll, C.AdoptAll, C.MigrationTarget, MonitorData.Tags, MonitorData.Snapshot;
    }

    method MigrationTarget(idx: nat) returns (target: nat)
      ensures target == C.MigrationTarget(Abs(), idx)
    {
      if |monitors| <= 1 {
        target := 0;
      } else if selMon != idx {
        target := selMon;
      } else {
        target := if idx != 0 then 0 else 1;
      }
    }

    /** The windows change hands, and their indices follow the removal. */
    method Migrate(idx: nat)
      requires Ready()
      modifies this`info
      ensures
        var s := old(Abs());
        var target := C.MigrationTarget(s, idx);
        var tags := if target < |s.monitors| then s.monitors[target].Tags() else {0};
        && Ready()
        && Abs() == s.(info := C.ShiftAll(C.AdoptAll(s.info, s.windows, idx, target, tags), s.windows, idx))
    {
      hide *;
      var target := MigrationTarget(idx);
      var tags := TagsOf(target, {0});
      Adopt(idx, target, tags);
      ShiftIndices(idx);
    }

    /** Take monitor `idx` out and keep the selection in range. */
    method Excise(idx: nat)
      requires Ready() && idx < |monitors|
      modifies this`monitors, this`tagHistory, this`selMon
      ensures Ready() && monitors == RemoveAt(old(monitors), idx)
      ensures
        var s := old(Abs());
        && |s.history| == |s.monitors|
        && Abs() == s.(monitors := RemoveAt(s.monitors, idx), history := RemoveAt(s.history, idx),
                       selMon := Repaired(s.selMon, idx, |s.monitors| - 1))
    {
      hide *;
      DropMonitor(idx);
      RepairSelection(idx);
    }

    method Unplug(idx: nat)
      requires Ready() && idx < |monitors|
      modifies this`info, this`monitors, this`tagHistory, this`memory, this`selMon
      ensures Ready() && Abs() == C.UnplugMonitor(old(Abs()), idx)
      ensures monitors == RemoveAt(old(monitors), idx)
    {
      ghost var s := Abs();
      hide *;
      UnplugParts(s, idx);
      Migrate(idx);
      Remember(idx);
      Excise(idx);
    }

    method OutputRemoved(output: Output)
      requires Ready()
      modifies this`info, this`space, this`monitors, this`tagHistory, this`memory, this`selMon, monitors
      ensures Ready() && Abs() == C.OutputRemoved(cfg, old(Abs()), output)
    {
      hide Ready, Abs, DataOf, C.UnplugMonitor, C.MonitorFor, C.ArrangeAll;
      var idx := MonitorFor(output);
      if idx.Some? {
        Unplug(idx.value);
      }
      ArrangeAll();
    }

    // Events.

    method SetZone(i: nat, zone: Rect, exclusive: bool)
      requires Ready()
      modifies this`info, this`space, monitors
      ensures var s := old(Abs());
              && Ready()
              && Abs() == if i < |s.monitors|
                          then C.ArrangeAll(cfg, s.(monitors := s.monitors[i := s.monitors[i].(zone := zone, exclusive := exclusive)]))
                          else s
    {
      hide Ready, Abs, DataOf, C.ArrangeAll;
      if i < |monitors| {
        var m: MonitorData := monitors[i].Data();
        Tune(i, m.nmaster, m.mfact, zone, exclusive);
        ArrangeAll();
      }
    }

    method Lock(on: bool)
      requires Ready()
      modifies this`locked
      ensures Ready() && Abs() == old(Abs()).(locked := on)
    {
      hide NoDup, Distinct, DataOf;
      ghost var ms := DataOf(monitors);
      locked := on;
      assert DataOf(monitors) == ms;
    }

    lemma FirstUnder(areas: seq<Rect>, p: Spot, k: nat)
      requires k < |areas| && Contains(areas[k], Trunc(p.x), Trunc(p.y)) && AreaAt(areas[..k], p) == None
      ensures AreaAt(areas, p) == Some(k)
    {
      assert forall i :: 0 <= i < k ==> areas[..k][i] == areas[i];
    }

    method MonitorUnder(p: Spot) returns (r: Option<nat>)
      ensures r == AreaAt(C.Areas(Abs().monitors), p)
    {
      hide DataOf, Trunc, Contains;
      ghost var areas := C.Areas(DataOf(monitors));
      var k := 0;
      while k < |monitors|
        invariant k <= |monitors|
        invariant AreaAt(areas[..k], p) == None
      {
        assert areas[..k + 1][..k] == areas[..k];
        if Contains(monitors[k].area, Trunc(p.x), Trunc(p.y)) {
          FirstUnder(areas, p, k);
          return Some(k);
        }
        k := k + 1;
      }
      assert areas[..k] == areas;
      r := None;
    }

    method SelectUnder(p: Spot)
      requires Ready()
      modifies this`selMon
      ensures Ready() && Abs() == C.SelectUnder(old(Abs()), p)
    {
      hide Ready, Abs, DataOf, AreaAt, C.Areas;
      var at := MonitorUnder(p);
      if at.Some? {
        SelectMonitor(at.value);
      }
    }

    // Interactive moves.

    method SetGrab(grab: Option<C.Grab>)
      requires Ready()
      modifies this`grab
      ensures Ready() && Abs() == old(Abs()).(grab := grab)
    {
      hide NoDup, Distinct, DataOf;
      ghost var ms := DataOf(monitors);
      this.grab := grab;
      assert DataOf(monitors) == ms;
    }

    method StartMove(w: Window, at: Spot)
      requires Ready()
      modifies this`info, this`space, this`focusStack, this`selMon, this`grab, monitors
      ensures Ready() && Abs() == C.StartMove(cfg, old(Abs()), w, at)
    {
      hide Ready, Abs, DataOf, C.FocusWindow, LocOf;
      var st := St(info, w);
      WriteCell(w, st.(isFloating := true));
      SetGrab(Some(C.Grab(w, st.isFloating, at, LocOf(space, w))));
      FocusWindow(Some(w));
    }

    method HandleMove(p: Spot)
      requires Ready()
      modifies this`space
      ensures Ready() && Abs() == C.MoveGrabbed(old(Abs()), p)
    {
      hide Ready, Abs, DataOf, MapElement, Trunc;
      if locked || grab.None? || grab.value.origin.None? {
        return;
      }
      var dx, dy := Trunc(p.x - grab.value.start.x), Trunc(p.y - grab.value.start.y);
      MoveWindow(grab.value.w, Point(grab.value.origin.value.x + dx, grab.value.origin.value.y + dy));
    }

    method EndMove()
      requires Ready()
      modifies this`info, this`space, this`grab, monitors
      ensures Ready() && Abs() == C.EndMove(cfg, old(Abs()))
    {
      hide Ready, Abs, DataOf, C.ArrangeAll;
      if grab.None? {
        return;
      }
      var w, wasFloating := grab.value.w, grab.value.wasFloating;
      SetGrab(None);
      if !wasFloating {
        WriteCell(w, St(info, w).(isFloating := false));
        ArrangeAll();
      }
    }

    method PointerMotion(p: Spot)
      requires Ready()
      modifies this`selMon, this`space
      ensures Ready() && Abs() == C.MoveGrabbed(C.SelectUnder(old(Abs()), p), p)
    {
      hide *;
      SelectUnder(p);
      HandleMove(p);
    }

    method SetFullscreen(w: Window, on: bool)
      requires Ready()
      modifies this`info, this`space, monitors
      ensures Ready()
      ensures Abs() == C.ArrangeAll(cfg, old(Abs()).(info := old(info)[w := St(old(info), w).(isFullscreen := on)]))
    {
      hide *;
      WriteCell(w, St(info, w).(isFullscreen := on));
      ArrangeAll();
    }

    method ParentChanged(w: Window)
      requires Ready()
      modifies this`info
      ensures Ready()
      ensures var s := old(Abs());
              Abs() == if St(s.info, w).isFloating then s else s.(info := s.info[w := St(s.info, w).(rulesApplied := false)])
    {
      hide Ready, Abs, DataOf;
      if !St(info, w).isFloating {
        WriteCell(w, St(info, w).(rulesApplied := false));
      }
    }

    predicate IsX11Event(e: C.Event) {
      e.X11Mapped? || e.PopupMapped? || e.X11Configured? || e.X11Moved? || e.X11Unmapped? || e.X11Gone?
    }

    method PerformX11(e: C.Event)
      requires Ready() && C.Enabled(Abs(), e) && IsX11Event(e)
      modifies this, monitors
      ensures Ready() && Abs() == C.Step(cfg, old(Abs()), e)
    {
      hide Abs, MapElement, DataOf, NoDup, Distinct, C.MapX11, C.MapPopup, C.ConfigureX11, C.UnmapX11, C.Disconnected, St;
      match e
      case X11Mapped(w, float, width, height) => MapX11(w, float, width, height);
      case PopupMapped(w, loc) => MapPopup(w, loc);
      case X11Configured(w, at, x, y) => ConfigureX11(w, at, x, y);
      case X11Moved(w, loc) => MoveWindow(w, loc);
      case X11Unmapped(w) => UnmapX11(w);
      case X11Gone => Disconnected();
    }

    predicate IsWindowEvent(e: C.Event) {
      e.WindowOpened? || e.WindowClosed? || e.RulesCommit? || e.Commit?
    }

    method PerformWindow(e: C.Event)
      requires Ready() && C.Enabled(Abs(), e) && IsWindowEvent(e)
      modifies this, monitors
      ensures Ready() && Abs() == C.Step(cfg, old(Abs()), e)
    {
      hide Abs, MapElement, DataOf, NoDup, Distinct, C.NewToplevel, C.ToplevelDestroyed, C.FirstCommit, C.BufferCommit, St;
      match e
      case WindowOpened(w) => NewToplevel(w);
      case WindowClosed(w) => ToplevelDestroyed(w);
      case RulesCommit(w, verdict) => FirstCommit(w, verdict);
      case Commit(w, width, height, floatType) => BufferCommit(w, width, height, floatType);
    }

    method Perform(e: C.Event)
      requires Valid() && C.Enabled(Abs(), e)
      modifies this, monitors
      ensures Ready() && Abs() == C.Step(cfg, old(Abs()), e)
    {
      hide Abs, DataOf, Inv, NoDup, Distinct, C.MonitorFor, C.SelectUnder, C.MoveGrabbed, C.StartMove, C.EndMove, C.Act, C.FocusWindow, C.ArrangeAll, C.OutputAdded, C.OutputRemoved;
      if IsWindowEvent(e) {
        hide C.Step, C.Enabled;
        PerformWindow(e);
        return;
      }
      if IsX11Event(e) {
        hide C.Step, C.Enabled;
        PerformX11(e);
        return;
      }
      match e
      case Dispatch(a) => Dispatch(a);
      case PointerFocus(w) => FocusWindow(Some(w));
      case PointerMoved(p) => PointerMotion(p);
      case MoveStarted(w, from) => StartMove(w, from);
      case MoveLost => SetGrab(None);
      case MoveEnded => EndMove();
      case SetLocked(b) => Lock(b);
      case SetUrgent(w) => WriteCell(w, St(info, w).(isUrgent := true));
      case SetZone(i, zone, exclusive) => SetZone(i, zone, exclusive);
      case FullscreenRequest(w, on) => SetFullscreen(w, on);
      case ParentChanged(w) => ParentChanged(w);
      case Plugged(output, rule) => OutputAdded(output, rule);
      case Unplugged(output) => OutputRemoved(output);
    }

    /** One event: the in-place update is the step of the state machine, and keeps its invariant. */
    method Handle(e: C.Event)
      requires Valid() && C.Enabled(Abs(), e)
      modifies this, monitors
      ensures Valid() && Abs() == C.Step(cfg, old(Abs()), e)
    {
      hide Abs, Inv, NoDup, Distinct, C.Step, C.Enabled;
      InvStep(cfg, Abs(), e);
      Perform(e);
    }
  }
}
