/** The window-management state as a value, and what each operation makes of it. */
module Compositor {
  import opened Sequences
  import opened Tags
  import opened History
  import opened Monitors
  import opened Windows
  import opened Desktop
  import opened Pointer

  /** A window being moved: how it was when the drag began, and where. */
  datatype Grab = Grab(w: Window, wasFloating: bool, start: Spot, origin: Option<Point>)

  datatype State = State(
    monitors: seq<MonitorData>,
    /** One tag history per monitor, at the same index. */
    history: seq<seq<Mask>>,
    /** Managed windows in tiling order. */
    windows: seq<Window>,
    /** Managed windows, most recently focused first. */
    focus: seq<Window>,
    /** X11 override-redirect windows: in the space, but never tiled or focused. */
    popups: seq<Window>,
    info: Info,
    space: Space,
    selMon: nat,
    /** Layout state of unplugged outputs, by connector name. */
    memory: map<string, MonitorMemory>,
    locked: bool,
    /** What the pointer is moving, as long as it is in move mode. */
    grab: Option<Grab>)

  // Read-only views.

  function SelTags(s: State): Mask {
    if s.selMon < |s.monitors| then s.monitors[s.selMon].Tags() else {}
  }

  function FocusedWindow(s: State): Option<Window> {
    First(OnMonitor(SelTags(s), s.selMon), s.info, s.focus)
  }

  function TileMasterWindow(cfg: Config, s: State): Option<Window> {
    if s.selMon < |s.monitors| && s.monitors[s.selMon].Kind(cfg) == Tile
    then First(TileMaster(SelTags(s), s.selMon), s.info, s.windows)
    else None
  }

  /** Every tag some monitor shows. */
  function AllVisible(ms: seq<MonitorData>): (all: Mask)
    ensures forall i :: 0 <= i < |ms| ==> ms[i].Tags() <= all
  {
    if ms == [] then {} else AllVisible(ms[..|ms| - 1]) + ms[|ms| - 1].Tags()
  }

  function MonitorFor(ms: seq<MonitorData>, output: Output): (r: Option<nat>)
    ensures r.Some? ==> r.value < |ms| && ms[r.value].output == output
    ensures r.Some? ==> forall i :: 0 <= i < r.value ==> ms[i].output != output
    ensures r.None? ==> forall i :: 0 <= i < |ms| ==> ms[i].output != output
  {
    if ms == [] then None
    else
      var earlier := MonitorFor(ms[..|ms| - 1], output);
      if earlier.Some? then earlier
      else if ms[|ms| - 1].output == output then Some(|ms| - 1)
      else None
  }

  function DirToMonitor(n: nat, from: nat, dir: int): Option<nat> {
    if n < 2 then None
    else if dir > 0 then Some((from + 1) % n)
    else Some((from + n - 1) % n)
  }

  function TargetMonitor(s: State, ruleMonitor: int): nat {
    if ruleMonitor >= 0 then
      var last := if s.monitors == [] then 0 else |s.monitors| - 1;
      if ruleMonitor < last then ruleMonitor else last
    else s.selMon
  }

  function OccupiedTags(info: Info, ws: seq<Window>): Mask {
    if ws == [] then {} else OccupiedTags(info, ws[..|ws| - 1]) + St(info, ws[|ws| - 1]).tags
  }

  function NextOccTag(cfg: Config, s: State, dir: int): Option<Mask>
    requires cfg.Sane()
  {
    if s.selMon < |s.monitors| && SelTags(s) <= TagMask(MASK_BITS)
    then NextOccupied(SelTags(s), OccupiedTags(s.info, s.windows), dir, cfg.tagCount)
    else None
  }

  // Arranging.

  function Cfacts(info: Info, ws: seq<Window>): (r: seq<real>)
    ensures |r| == |ws|
  {
    if ws == [] then [] else Cfacts(info, ws[..|ws| - 1]) + [St(info, ws[|ws| - 1]).cfact]
  }

  function FocusedOn(s: State, i: nat): Option<Window>
    requires i < |s.monitors|
  {
    First(OnMonitor(s.monitors[i].Tags(), i), s.info, s.focus)
  }

  /** Monitor `i` with its count-based layout chosen and its scroll column on the focused window. */
  function ArrangedMonitor(cfg: Config, s: State, i: nat): MonitorData
    requires i < |s.monitors|
  {
    var tags := s.monitors[i].Tags();
    var tiled := Select(Tiled(tags), s.info, s.windows);
    var m := s.monitors[i].ApplyDynamic(cfg, tags, |tiled|);
    if m.Kind(cfg) == Monocle || m.Kind(cfg) == Scroll then
      var focused := FocusedOn(s, i);
      var at := if focused.Some? then Find(tiled, focused.value) else None;
      var last := if tiled == [] then 0 else |tiled| - 1;
      m.(scrollCol := if at.Some? then at.value else if m.scrollCol < last then m.scrollCol else last)
    else m
  }

  // The windows each placement pass of `arrange(i)` handles, in tiling order.

  function HiddenOf(s: State): seq<Window> {
    Select(Hidden(AllVisible(s.monitors)), s.info, s.windows)
  }

  function TiledOf(s: State, i: nat): seq<Window>
    requires i < |s.monitors|
  {
    Select(Tiled(s.monitors[i].Tags()), s.info, s.windows)
  }

  function FloatingOf(s: State, i: nat): seq<Window>
    requires i < |s.monitors|
  {
    Select(Floating(s.monitors[i].Tags()), s.info, s.windows)
  }

  function FullscreenOf(s: State, i: nat): seq<Window>
    requires i < |s.monitors|
  {
    Select(Fullscreen(s.monitors[i].Tags()), s.info, s.windows)
  }

  function ScratchOf(s: State, i: nat): seq<Window>
    requires i < |s.monitors|
  {
    Select(Scratch(s.monitors[i].Tags()), s.info, s.windows)
  }

  // The desk after each pass.

  function HiddenDesk(s: State): Desk {
    RunPass(HidePass, Desk(s.space, s.info), HiddenOf(s))
  }

  function TilePassOf(cfg: Config, s: State, i: nat): Pass
    requires i < |s.monitors|
  {
    var m := ArrangedMonitor(cfg, s, i);
    TilePass(cfg.layout(m, Cfacts(s.info, TiledOf(s, i))), FocusedOn(s, i), m.Kind(cfg) == Monocle)
  }

  function TiledDesk(cfg: Config, s: State, i: nat): Desk
    requires i < |s.monitors|
  {
    RunPass(TilePassOf(cfg, s, i), HiddenDesk(s), TiledOf(s, i))
  }

  function FloatingDesk(cfg: Config, s: State, i: nat): Desk
    requires i < |s.monitors|
  {
    RunPass(FloatPass(s.monitors[i].work.loc, FocusedOn(s, i)), TiledDesk(cfg, s, i), FloatingOf(s, i))
  }

  function FullscreenDesk(cfg: Config, s: State, i: nat): Desk
    requires i < |s.monitors|
  {
    RunPass(FullPass(s.monitors[i].area, FocusedOn(s, i)), FloatingDesk(cfg, s, i), FullscreenOf(s, i))
  }

  function ArrangedDesk(cfg: Config, s: State, i: nat): Desk
    requires i < |s.monitors|
  {
    RunPass(ScratchPass(s.monitors[i].work.loc), FullscreenDesk(cfg, s, i), ScratchOf(s, i))
  }

  function Arrange(cfg: Config, s: State, i: nat): State {
    if i >= |s.monitors| then s
    else
      var d := ArrangedDesk(cfg, s, i);
      s.(monitors := s.monitors[i := ArrangedMonitor(cfg, s, i)], space := d.space, info := d.info)
  }

  function Refits(ms: seq<MonitorData>): (r: seq<MonitorData>)
    ensures |r| == |ms|
    ensures forall i :: 0 <= i < |ms| ==> r[i] == ms[i].Refit()
  {
    if ms == [] then [] else Refits(ms[..|ms| - 1]) + [ms[|ms| - 1].Refit()]
  }

  function ArrangeUpTo(cfg: Config, s: State, k: nat): State {
    if k == 0 then s else Arrange(cfg, ArrangeUpTo(cfg, s, k - 1), k - 1)
  }

  function ArrangeAll(cfg: Config, s: State): State {
    var fitted := s.(monitors := Refits(s.monitors));
    ArrangeUpTo(cfg, fitted, |fitted.monitors|)
  }

  // Focus.

  /** Arrange the monitor gaining focus, then the one losing it when that is another. */
  function ArrangeBoth(cfg: Config, s: State, mon: nat, prev: Option<nat>): State {
    var t := Arrange(cfg, s, mon);
    if prev.Some? && prev.value != mon then Arrange(cfg, t, prev.value) else t
  }

  /** The monitor of the window at the front of the focus stack. */
  function FrontMonitor(s: State): Option<nat> {
    if s.focus == [] then None else Some(St(s.info, s.focus[0]).monIdx)
  }

  function FocusWindow(cfg: Config, s: State, w: Option<Window>): State {
    if w.None? then s
    else
      var t := s.(info := WithUrgent(s.info, w.value, false), focus := ToFront(s.focus, w.value));
      if s.locked || (s.focus != [] && s.focus[0] == w.value) then t
      else
        var mon := St(t.info, w.value).monIdx;
        ArrangeBoth(cfg, t.(selMon := mon), mon, FrontMonitor(s))
  }

  function Refocus(cfg: Config, s: State): State {
    FocusWindow(cfg, s, FocusedWindow(s))
  }

  function FocusStackStep(cfg: Config, s: State, dir: int): State {
    var eligible := Select(Steppable(SelTags(s), s.selMon), s.info, s.windows);
    var n := |eligible|;
    if n == 0 then s
    else
      var focused := FocusedWindow(s);
      var at := if focused.Some? then Find(eligible, focused.value) else None;
      var next := if at.Some? then (if dir > 0 then (at.value + 1) % n else (at.value + n - 1) % n)
                  else if dir > 0 then 0 else n - 1;
      FocusWindow(cfg, s, Some(eligible[next]))
  }

  /** The window `zoom` promotes: the focused one, or the next candidate when that is already the master. */
  function ZoomTarget(s: State): Option<Window> {
    var focused := FocusedWindow(s);
    if focused.None? || s.selMon >= |s.monitors| then None
    else if St(s.info, focused.value).isFloating || St(s.info, focused.value).isFullscreen then None
    else
      var candidates := Select(ZoomCandidate(SelTags(s), s.selMon), s.info, s.windows);
      var others := Without(candidates, focused.value);
      if others == [] then None
      else if candidates[0] == focused.value then Some(others[0])
      else focused
  }

  function Zoom(cfg: Config, s: State): State {
    var target := ZoomTarget(s);
    if target.None? then s
    else ArrangeAll(cfg, FocusWindow(cfg, s.(windows := ToFront(s.windows, target.value)), target))
  }

  function FocusMon(cfg: Config, s: State, dir: int): State {
    var next := DirToMonitor(|s.monitors|, s.selMon, dir);
    if next.None? then s else ArrangeAll(cfg, Refocus(cfg, s.(selMon := next.value)))
  }

  function TagMon(cfg: Config, s: State, dir: int): State {
    var focused := FocusedWindow(s);
    var next := DirToMonitor(|s.monitors|, s.selMon, dir);
    if focused.None? || next.None? then s
    else
      var w := focused.value;
      var tags := if next.value < |s.monitors| then s.monitors[next.value].Tags() else {0};
      var t := s.(info := s.info[w := St(s.info, w).(tags := tags, monIdx := next.value)]);
      ArrangeAll(cfg, if cfg.follow then FocusWindow(cfg, t.(selMon := next.value), focused) else t)
  }

  function FocusUrgent(cfg: Config, s: State): State {
    var stacked := First(Urgent, s.info, s.focus);
    var urgent := if stacked.Some? then stacked else First(Urgent, s.info, s.windows);
    if urgent.None? then s
    else
      var st := St(s.info, urgent.value);
      var t := s.(selMon := st.monIdx);
      FocusWindow(cfg, ArrangeAll(cfg, if st.tags != {} then ViewOn(cfg, t, st.monIdx, st.tags) else t), urgent)
  }

  function Areas(ms: seq<MonitorData>): (r: seq<Rect>)
    ensures |r| == |ms| && forall i :: 0 <= i < |ms| ==> r[i] == ms[i].area
  {
    if ms == [] then [] else Areas(ms[..|ms| - 1]) + [ms[|ms| - 1].area]
  }

  /** The monitor under the pointer becomes the selected one. */
  function SelectUnder(s: State, p: Spot): State {
    var at := AreaAt(Areas(s.monitors), p);
    s.(selMon := if at.Some? then at.value else s.selMon)
  }

  // Tags.

  function RecordTags(s: State, i: nat, target: Mask): State {
    if i < |s.monitors| && i < |s.history|
    then s.(history := s.history[i := Update(s.history[i], s.monitors[i].Tags(), target)])
    else s
  }

  function ViewOn(cfg: Config, s: State, i: nat, mask: Mask): State {
    if i < |s.monitors| then s.(monitors := s.monitors[i := s.monitors[i].View(cfg, mask)]) else s
  }

  function View(cfg: Config, s: State, mask: Mask): State {
    Refocus(cfg, ArrangeAll(cfg, ViewOn(cfg, RecordTags(s, s.selMon, mask), s.selMon, mask)))
  }

  function ViewPrev(cfg: Config, s: State): State {
    var i := s.selMon;
    if i < |s.monitors| then
      var m := s.monitors[i];
      var t := RecordTags(s, i, m.tagset.At(1 - m.selTags));
      Refocus(cfg, ArrangeAll(cfg, t.(monitors := t.monitors[i := m.ViewPrev(cfg)])))
    else Refocus(cfg, ArrangeAll(cfg, s))
  }

  function ViewNextOccTag(cfg: Config, s: State, dir: int): State
    requires cfg.Sane()
  {
    var next := NextOccTag(cfg, s, dir);
    if next.None? then s else View(cfg, s, next.value)
  }

  function ToggleView(cfg: Config, s: State, mask: Mask): State {
    var i := s.selMon;
    if i < |s.monitors| then
      var tags := Xor(s.monitors[i].Tags(), mask) * TagMask(cfg.tagCount);
      var t := if tags != {} then RecordTags(s, i, tags) else s;
      Refocus(cfg, ArrangeAll(cfg, t.(monitors := t.monitors[i := t.monitors[i].ToggleView(cfg, mask)])))
    else Refocus(cfg, ArrangeAll(cfg, s))
  }

  function Tag(cfg: Config, s: State, mask: Mask): State {
    var tags := mask * TagMask(cfg.tagCount);
    if tags == {} then s
    else
      var focused := FocusedWindow(s);
      var t := if focused.None? then s else s.(info := WithTags(s.info, focused.value, tags));
      var u := if focused.Some? && cfg.follow then ViewOn(cfg, RecordTags(t, t.selMon, tags), t.selMon, tags) else t;
      Refocus(cfg, ArrangeAll(cfg, u))
  }

  function ToggleTag(cfg: Config, s: State, mask: Mask): State {
    var focused := FocusedWindow(s);
    if focused.None? then ArrangeAll(cfg, s)
    else
      var tags := Xor(St(s.info, focused.value).tags, mask) * TagMask(cfg.tagCount);
      ArrangeAll(cfg, if tags != {} then s.(info := WithTags(s.info, focused.value, tags)) else s)
  }

  // Layout and window flags.

  function OnSelected(s: State, m: MonitorData): State
    requires s.selMon < |s.monitors|
  {
    s.(monitors := s.monitors[s.selMon := m])
  }

  function SetLayout(cfg: Config, s: State, idx: Option<nat>): State {
    ArrangeAll(cfg, if s.selMon < |s.monitors| then OnSelected(s, s.monitors[s.selMon].SetLayout(cfg, idx)) else s)
  }

  function CycleLayout(cfg: Config, s: State): State {
    if s.selMon < |s.monitors| && cfg.layouts != []
    then SetLayout(cfg, s, Some((s.monitors[s.selMon].lt.At(s.monitors[s.selMon].selLt) + 1) % |cfg.layouts|))
    else ArrangeAll(cfg, s)
  }

  function IncNmaster(cfg: Config, s: State, delta: int): State {
    if s.selMon < |s.monitors| then
      var m := s.monitors[s.selMon];
      ArrangeAll(cfg, OnSelected(s, m.(nmaster := if m.nmaster + delta > 0 then m.nmaster + delta else 0)))
    else ArrangeAll(cfg, s)
  }

  function SetMfact(cfg: Config, s: State, delta: real): State {
    if s.selMon < |s.monitors| then
      var m := s.monitors[s.selMon];
      ArrangeAll(cfg, OnSelected(s, m.(mfact := Clamp(m.mfact + delta, 0.05, 0.95))))
    else ArrangeAll(cfg, s)
  }

  function ToggleFloating(cfg: Config, s: State): State {
    var focused := FocusedWindow(s);
    if focused.None? then s
    else
      var st := St(s.info, focused.value);
      var flipped := st.(isFloating := !st.isFloating, needsCentering := st.needsCentering || !st.isFloating);
      ArrangeAll(cfg, s.(info := s.info[focused.value := flipped]))
  }

  function ToggleFullscreen(cfg: Config, s: State): State {
    var focused := FocusedWindow(s);
    if focused.None? then s
    else
      var st := St(s.info, focused.value);
      ArrangeAll(cfg, s.(info := s.info[focused.value := st.(isFullscreen := !st.isFullscreen)]))
  }

  // Scratchpads.

  function FindScratch(s: State, key: char): Option<Window> {
    First(Keyed(key), s.info, s.windows)
  }

  /** Hide a scratchpad: on no tag, and out of the focus stack. */
  function HideScratch(cfg: Config, s: State, w: Window): State {
    ArrangeAll(cfg, Refocus(cfg, s.(info := WithTags(s.info, w, {}), focus := Without(s.focus, w))))
  }

  /** Bring it to the tags shown on the selected monitor; the monitor it is assigned to stays. */
  function ShowScratch(cfg: Config, s: State, w: Window): State {
    ArrangeAll(cfg, FocusWindow(cfg, s.(info := WithTags(s.info, w, InitialTags(s))), Some(w)))
  }

  function ToggleVisible(cfg: Config, s: State, w: Window): State {
    if Meets(St(s.info, w).tags, SelTags(s)) then HideScratch(cfg, s, w) else ShowScratch(cfg, s, w)
  }

  /** With no window under the key the command is spawned, which changes nothing here. */
  function ToggleScratch(cfg: Config, s: State, key: char): State {
    var w := FindScratch(s, key);
    if w.None? then s else ToggleVisible(cfg, s, w.value)
  }

  function FocusOrToggleScratch(cfg: Config, s: State, key: char): State {
    var w := FindScratch(s, key);
    if w.None? then s
    else if FocusedWindow(s) == w then HideScratch(cfg, s, w.value)
    else ShowScratch(cfg, s, w.value)
  }

  /** The candidate is the first window under the key or with a matching app id, if there is one. */
  function ToggleMatching(cfg: Config, s: State, candidate: Option<Window>): State {
    if candidate.Some? && candidate.value in s.windows then ToggleVisible(cfg, s, candidate.value) else s
  }

  // Interactive moves.

  function StartMove(cfg: Config, s: State, w: Window, at: Spot): State {
    var st := St(s.info, w);
    FocusWindow(cfg, s.(
      info := s.info[w := st.(isFloating := true)],
      grab := Some(Grab(w, st.isFloating, at, LocOf(s.space, w)))), Some(w))
  }

  /** Where a motion to `p` takes a window that was at `origin`. */
  function DraggedTo(origin: Point, start: Spot, p: Spot): Point {
    Point(origin.x + Trunc(p.x - start.x), origin.y + Trunc(p.y - start.y))
  }

  function MoveGrabbed(s: State, p: Spot): State {
    if s.locked || s.grab.None? || s.grab.value.origin.None? then s
    else
      var g := s.grab.value;
      s.(space := MapElement(s.space, g.w, DraggedTo(g.origin.value, g.start, p)))
  }

  function EndMove(cfg: Config, s: State): State {
    if s.grab.None? then s
    else
      var t := s.(grab := None);
      var w := s.grab.value.w;
      if s.grab.value.wasFloating then t
      else ArrangeAll(cfg, t.(info := t.info[w := St(t.info, w).(isFloating := false)]))
  }

  // Windows coming and going.

  function BaseLoc(s: State): Point {
    if s.selMon < |s.monitors| then s.monitors[s.selMon].work.loc else Point(0, 0)
  }

  function InitialTags(s: State): Mask {
    if s.selMon < |s.monitors| then SelTags(s) else {0}
  }

  function NewToplevel(cfg: Config, s: State, w: Window): State {
    var mon := s.selMon;
    var t := s.(
      info := s.info[w := NewWindowState.(tags := InitialTags(s), monIdx := mon)],
      space := MapElement(s.space, w, BaseLoc(s)),
      windows := [w] + s.windows,
      focus := ToFront(s.focus, w));
    if s.focus != [] && s.focus[0] == w then t else ArrangeBoth(cfg, t, mon, FrontMonitor(s))
  }

  /** `size` is the client's fixed size when it has one, otherwise its current size. */
  function CentreX11(s: State, w: Window, width: int, height: int): State {
    var mon := St(s.info, w).monIdx;
    if width <= 0 || height <= 0 || mon >= |s.monitors| then s
    else
      var loc := s.monitors[mon].Centre(width, height);
      s.(info := s.info[w := St(s.info, w).(savedLoc := Some(loc))], space := MapElement(s.space, w, loc))
  }

  function MapX11(cfg: Config, s: State, w: Window, float: bool, width: int, height: int): State {
    var st := NewWindowState.(tags := InitialTags(s), monIdx := s.selMon, isFloating := float, isX11 := true);
    var t := s.(
      info := s.info[w := st],
      space := MapElement(s.space, w, BaseLoc(s)),
      windows := [w] + s.windows);
    ArrangeAll(cfg, FocusWindow(cfg, if float then CentreX11(t, w, width, height) else t, Some(w)))
  }

  function MapPopup(s: State, w: Window, loc: Point): State {
    s.(
      info := s.info[w := NewWindowState.(rulesApplied := true, isX11 := true)],
      space := MapElement(s.space, w, loc),
      popups := s.popups + [w])
  }

  /** An X11 window asks for a place; only floating and unmanaged ones get it, hidden or not. */
  function ConfigureX11(s: State, w: Window, at: Point, x: Option<int>, y: Option<int>): State {
    var st := St(s.info, w);
    if w !in s.popups && !st.isFloating then s
    else
      var loc := ConfiguredLoc(st, at, x, y);
      s.(info := s.info[w := st.(savedLoc := Some(loc))], space := MapElement(s.space, w, loc))
  }

  /** The coordinates it asks for, the others from where it was last put or, failing that, from X. */
  function ConfiguredLoc(st: WindowState, at: Point, x: Option<int>, y: Option<int>): Point {
    var base := if st.savedLoc.Some? then st.savedLoc.value else at;
    Point(if x.Some? then x.value else base.x, if y.Some? then y.value else base.y)
  }

  /** The X server reports where a window is. */
  function FollowX11(s: State, w: Window, loc: Point): State {
    s.(space := MapElement(s.space, w, loc))
  }

  function ToplevelDestroyed(cfg: Config, s: State, w: Window): State {
    var t := s.(windows := Without(s.windows, w), focus := Without(s.focus, w), space := UnmapElem(s.space, w));
    var master := if St(s.info, w).bufferMapped then TileMasterWindow(cfg, t) else None;
    ArrangeAll(cfg, FocusWindow(cfg, t, if master.Some? then master else FocusedWindow(t)))
  }

  function UnmapAll(sp: Space, ws: seq<Window>): (r: Space)
    ensures forall w :: LocOf(r, w) == if w in ws then None else LocOf(sp, w)
  {
    if ws == [] then sp
    else
      var n := |ws| - 1;
      assert ws == ws[..n] + [ws[n]];
      UnmapElem(UnmapAll(sp, ws[..n]), ws[n])
  }

  function UnmapX11(cfg: Config, s: State, w: Window): State {
    if w in s.popups then s.(space := UnmapElem(s.space, w), popups := Without(s.popups, w))
    else if w in s.windows then
      ArrangeAll(cfg, Refocus(cfg, s.(
        windows := Without(s.windows, w), focus := Without(s.focus, w), popups := [],
        space := UnmapAll(UnmapElem(s.space, w), s.popups))))
    else s
  }

  function Disconnected(cfg: Config, s: State): State {
    var dead := Select(IsX11, s.info, s.windows);
    if dead == [] && s.popups == [] then s
    else
      ArrangeAll(cfg, Refocus(cfg, s.(
        windows := Select(NotX11, s.info, s.windows), focus := Select(NotX11, s.info, s.focus), popups := [],
        space := UnmapAll(UnmapAll(s.space, dead), s.popups))))
  }

  // Window rules.

  datatype Rule = Rule(tags: Mask, isFloating: bool, scratchKey: char, monitor: int, switchToTag: bool)

  datatype RuleAccum = RuleAccum(tags: Mask, isFloating: bool, scratchKey: char, monitor: int, switchToTag: Option<Mask>)

  /** Folding the matching rules, in configuration order. */
  function FoldRules(cfg: Config, rules: seq<Rule>, float: bool): RuleAccum {
    if rules == [] then RuleAccum({}, float, NO_KEY, -1, None)
    else
      var acc := FoldRules(cfg, rules[..|rules| - 1], float);
      var r := rules[|rules| - 1];
      RuleAccum(
        acc.tags + r.tags,
        acc.isFloating || r.isFloating,
        if r.scratchKey == NO_KEY then acc.scratchKey else r.scratchKey,
        if r.monitor >= 0 then r.monitor else acc.monitor,
        if r.switchToTag && r.tags != {} then Some(r.tags * TagMask(cfg.tagCount)) else acc.switchToTag)
  }

  /** What is known about a window at its first commit: a transient child, or the rules it matches. */
  datatype Verdict =
    | Child(parent: Option<Window>)
    | Matched(rules: seq<Rule>, floatType: bool)

  function SwitchToTag(cfg: Config, s: State, w: Window, mon: nat, mask: Mask): State {
    var t := RecordTags(s, mon, mask);
    if mon < |t.monitors| && t.monitors[mon].Tags() != mask * TagMask(cfg.tagCount) then
      var prev := t.monitors[mon].Tags();
      var u := ViewOn(cfg, t, mon, mask);
      u.(info := u.info[w := St(u.info, w).(switchToTag := Some(prev))])
    else t
  }

  function ApplyRules(cfg: Config, s: State, w: Window, verdict: Verdict): State {
    match verdict
    case Child(parent) =>
      var known := parent.Some? && parent.value in s.windows;
      var mon := if known then St(s.info, parent.value).monIdx else s.selMon;
      var tags := if known then St(s.info, parent.value).tags else InitialTags(s);
      s.(info := s.info[w := St(s.info, w).(tags := tags, isFloating := true, needsCentering := true, monIdx := mon)])
    case Matched(rules, floatType) =>
      var acc := FoldRules(cfg, rules, floatType || St(s.info, w).isFloating);
      var mon := TargetMonitor(s, acc.monitor);
      var tags := if acc.tags != {} then acc.tags * TagMask(cfg.tagCount)
                  else if mon < |s.monitors| then s.monitors[mon].Tags() else {0};
      var t := if acc.switchToTag.Some? then SwitchToTag(cfg, s, w, mon, acc.switchToTag.value) else s;
      t.(info := t.info[w := St(t.info, w).(
        tags := tags, isFloating := acc.isFloating, needsCentering := acc.isFloating && !St(t.info, w).isX11,
        scratchKey := acc.scratchKey, monIdx := mon)])
  }

  function FirstCommit(cfg: Config, s: State, w: Window, verdict: Verdict): State {
    var t := s.(info := s.info[w := St(s.info, w).(rulesApplied := true)]);
    Refocus(cfg, ArrangeAll(cfg, ApplyRules(cfg, t, w, verdict)))
  }

  /** A commit that carries a buffer of the given size. */
  function BufferCommit(cfg: Config, s: State, w: Window, width: int, height: int, floatType: bool): State {
    if width <= 0 || height <= 0 then s
    else
      var st := St(s.info, w);
      var t :=
        if st.bufferMapped then s
        else
          var mapped := st.(bufferMapped := true);
          if !st.isX11 && !st.isFloating && !st.isFullscreen && floatType
          then ArrangeAll(cfg, s.(info := s.info[w := mapped.(isFloating := true, needsCentering := true)]))
          else s.(info := s.info[w := mapped]);
      if St(t.info, w).needsCentering then CentreWindow(t, w, width, height) else t
  }

  function CentreWindow(s: State, w: Window, width: int, height: int): State {
    var st := St(s.info, w);
    if st.monIdx >= |s.monitors| then s
    else
      var loc := s.monitors[st.monIdx].Centre(width, height);
      if Meets(AllVisible(s.monitors), st.tags)
      then s.(info := s.info[w := st.(needsCentering := false)], space := MapElement(s.space, w, loc))
      else s.(info := s.info[w := st.(needsCentering := false, savedLoc := Some(loc))])
  }

  // Outputs coming and going.

  /** The new monitor, before anything is re-arranged. */
  function PlugMonitor(cfg: Config, s: State, output: Output, rule: MonitorRule): State {
    var m := Fresh(cfg, output, rule);
    var restored := if output.name in s.memory then m.Restore(cfg, s.memory[output.name]) else m;
    s.(
      monitors := s.monitors + [restored],
      history := s.history + [[]],
      memory := s.memory - {output.name})
  }

  function OutputAdded(cfg: Config, s: State, output: Output, rule: MonitorRule): State {
    ArrangeAll(cfg, PlugMonitor(cfg, s, output, rule))
  }

  /** Where the windows of monitor `idx` go, as an index before the removal. */
  function MigrationTarget(s: State, idx: nat): nat {
    if |s.monitors| <= 1 then 0
    else if s.selMon != idx then s.selMon
    else if idx != 0 then 0 else 1
  }

  /** An orphaned window moves to the target and, unless it is hidden with no tags, takes its tags. */
  function Adopt(st: WindowState, idx: nat, target: nat, tags: Mask): WindowState {
    if st.monIdx == idx then st.(tags := if st.tags != {} then tags else st.tags, monIdx := target) else st
  }

  function AdoptAll(info: Info, ws: seq<Window>, idx: nat, target: nat, tags: Mask): Info {
    if ws == [] then info
    else
      var rest := AdoptAll(info, ws[..|ws| - 1], idx, target, tags);
      var w := ws[|ws| - 1];
      rest[w := Adopt(St(rest, w), idx, target, tags)]
  }

  function Shift(i: nat, idx: nat): nat {
    if i > idx then i - 1 else i
  }

  function ShiftAll(info: Info, ws: seq<Window>, idx: nat): Info {
    if ws == [] then info
    else
      var rest := ShiftAll(info, ws[..|ws| - 1], idx);
      var w := ws[|ws| - 1];
      rest[w := St(rest, w).(monIdx := Shift(St(rest, w).monIdx, idx))]
  }

  /** The state without monitor `idx`, before anything is re-arranged. */
  function UnplugMonitor(s: State, idx: nat): State
    requires idx < |s.monitors|
  {
    var target := MigrationTarget(s, idx);
    var tags := if target < |s.monitors| then s.monitors[target].Tags() else {0};
    var n := |s.monitors| - 1;
    s.(
      info := ShiftAll(AdoptAll(s.info, s.windows, idx, target, tags), s.windows, idx),
      memory := s.memory[s.monitors[idx].output.name := s.monitors[idx].Snapshot()],
      monitors := s.monitors[..idx] + s.monitors[idx + 1..],
      history := if idx < |s.history| then s.history[..idx] + s.history[idx + 1..] else s.history,
      selMon := if n == 0 then 0 else if s.selMon > idx then s.selMon - 1 else if s.selMon >= n then n - 1 else s.selMon)
  }

  function OutputRemoved(cfg: Config, s: State, output: Output): State {
    var idx := MonitorFor(s.monitors, output);
    ArrangeAll(cfg, if idx.None? then s else UnplugMonitor(s, idx.value))
  }

  // Runs.

  datatype Action =
    | FocusStackA(dir: int)
    | ZoomA
    | ViewA(mask: Mask)
    | ViewPrevA
    | ViewNextOccTagA(dir: int)
    | ToggleViewA(mask: Mask)
    | TagA(mask: Mask)
    | ToggleTagA(mask: Mask)
    | FocusMonA(dir: int)
    | TagMonA(dir: int)
    | FocusUrgentA
    | SetLayoutA(idx: Option<nat>)
    | CycleLayoutA
    | IncNmasterA(delta: int)
    | SetMfactA(factor: real)
    | ToggleScratchA(key: char)
    | FocusOrToggleScratchA(key: char)
    | ToggleMatchingA(candidate: Option<Window>)
    | ToggleFloatingA
    | ToggleFullscreenA

  /** The actions on a layout, a monitor's tuning, or the focused window's kind. */
  predicate Tunes(a: Action) {
    a.SetLayoutA? || a.CycleLayoutA? || a.IncNmasterA? || a.SetMfactA? || a.ToggleFloatingA? || a.ToggleFullscreenA?
  }

  predicate TogglesScratch(a: Action) {
    a.ToggleScratchA? || a.FocusOrToggleScratchA? || a.ToggleMatchingA?
  }

  datatype Event =
    | Dispatch(action: Action)
    | PointerFocus(w: Window)
    /** The pointer, clamped to the monitors' bounding box, is at `p`. */
    | PointerMoved(p: Spot)
    | MoveStarted(w: Window, from: Spot)
    /** Another button, another grab or the native locker takes the pointer out of move mode. */
    | MoveLost
    | MoveEnded
    | SetLocked(locked: bool)
    | SetUrgent(w: Window)
    | SetZone(i: nat, zone: Rect, exclusive: bool)
    | WindowOpened(w: Window)
    | X11Mapped(w: Window, float: bool, width: int, height: int)
    | PopupMapped(w: Window, loc: Point)
    | WindowClosed(w: Window)
    | X11Configured(w: Window, at: Point, x: Option<int>, y: Option<int>)
    | X11Moved(w: Window, loc: Point)
    | X11Unmapped(w: Window)
    | X11Gone
    | FullscreenRequest(w: Window, on: bool)
    | ParentChanged(w: Window)
    | RulesCommit(w: Window, verdict: Verdict)
    | Commit(w: Window, width: int, height: int, floatType: bool)
    | Plugged(output: Output, rule: MonitorRule)
    | Unplugged(output: Output)

  predicate Unknown(s: State, w: Window) {
    w !in s.windows && w !in s.focus && w !in s.popups
  }

  /** What the libraries guarantee about the events they deliver: new handles are new, others are known. */
  predicate Enabled(s: State, e: Event) {
    match e
    case PointerFocus(w) => w in s.windows || w in s.popups
    case MoveStarted(w, _) => w in s.windows || w in s.popups
    case MoveEnded => !s.locked
    case SetUrgent(w) => w in s.windows
    case WindowOpened(w) => Unknown(s, w)
    case X11Mapped(w, _, _, _) => Unknown(s, w)
    case PopupMapped(w, _) => Unknown(s, w)
    case WindowClosed(w) => w in s.windows && !St(s.info, w).isX11
    case X11Configured(w, _, _, _) => w in s.popups || (w in s.windows && St(s.info, w).isX11)
    case X11Moved(w, _) => w in s.popups || (w in s.windows && St(s.info, w).isX11)
    case FullscreenRequest(w, _) => w in s.windows || w in s.popups
    case ParentChanged(w) => w in s.windows && !St(s.info, w).isX11
    case RulesCommit(w, _) => w in s.windows && !St(s.info, w).rulesApplied
    case Commit(w, _, _, _) => w in s.windows && St(s.info, w).rulesApplied
    case Plugged(output, _) => MonitorFor(s.monitors, output).None?
    case _ => true
  }

  function Act(cfg: Config, s: State, a: Action): State
    requires cfg.Sane()
  {
    match a
    case FocusStackA(dir) => FocusStackStep(cfg, s, dir)
    case ZoomA => Zoom(cfg, s)
    case ViewA(mask) => View(cfg, s, mask)
    case ViewPrevA => ViewPrev(cfg, s)
    case ViewNextOccTagA(dir) => ViewNextOccTag(cfg, s, dir)
    case ToggleViewA(mask) => ToggleView(cfg, s, mask)
    case TagA(mask) => Tag(cfg, s, mask)
    case ToggleTagA(mask) => ToggleTag(cfg, s, mask)
    case FocusMonA(dir) => FocusMon(cfg, s, dir)
    case TagMonA(dir) => TagMon(cfg, s, dir)
    case FocusUrgentA => FocusUrgent(cfg, s)
    case SetLayoutA(idx) => SetLayout(cfg, s, idx)
    case CycleLayoutA => CycleLayout(cfg, s)
    case IncNmasterA(delta) => IncNmaster(cfg, s, delta)
    case SetMfactA(factor) => SetMfact(cfg, s, factor)
    case ToggleScratchA(key) => ToggleScratch(cfg, s, key)
    case FocusOrToggleScratchA(key) => FocusOrToggleScratch(cfg, s, key)
    case ToggleMatchingA(candidate) => ToggleMatching(cfg, s, candidate)
    case ToggleFloatingA => ToggleFloating(cfg, s)
    case ToggleFullscreenA => ToggleFullscreen(cfg, s)
  }

  /** One event; an event that cannot occur in `s` changes nothing. */
  function Step(cfg: Config, s: State, e: Event): State
    requires cfg.Sane()
  {
    if !Enabled(s, e) then s
    else
      match e
      case Dispatch(a) => Act(cfg, s, a)
      case PointerFocus(w) => FocusWindow(cfg, s, Some(w))
      case PointerMoved(p) => MoveGrabbed(SelectUnder(s, p), p)
      case MoveStarted(w, from) => StartMove(cfg, s, w, from)
      case MoveLost => s.(grab := None)
      case MoveEnded => EndMove(cfg, s)
      case SetLocked(b) => s.(locked := b)
      case SetUrgent(w) => s.(info := WithUrgent(s.info, w, true))
      case SetZone(i, zone, exclusive) =>
        if i < |s.monitors|
        then ArrangeAll(cfg, s.(monitors := s.monitors[i := s.monitors[i].(zone := zone, exclusive := exclusive)]))
        else s
      case WindowOpened(w) => NewToplevel(cfg, s, w)
      case X11Mapped(w, float, width, height) => MapX11(cfg, s, w, float, width, height)
      case PopupMapped(w, loc) => MapPopup(s, w, loc)
      case WindowClosed(w) => ToplevelDestroyed(cfg, s, w)
      case X11Configured(w, at, x, y) => ConfigureX11(s, w, at, x, y)
      case X11Moved(w, loc) => FollowX11(s, w, loc)
      case X11Unmapped(w) => UnmapX11(cfg, s, w)
      case X11Gone => Disconnected(cfg, s)
      case FullscreenRequest(w, on) => ArrangeAll(cfg, s.(info := s.info[w := St(s.info, w).(isFullscreen := on)]))
      case ParentChanged(w) =>
        if St(s.info, w).isFloating then s else s.(info := s.info[w := St(s.info, w).(rulesApplied := false)])
      case RulesCommit(w, verdict) => FirstCommit(cfg, s, w, verdict)
      case Commit(w, width, height, floatType) => BufferCommit(cfg, s, w, width, height, floatType)
      case Plugged(output, rule) => OutputAdded(cfg, s, output, rule)
      case Unplugged(output) => OutputRemoved(cfg, s, output)
  }

  function Run(cfg: Config, s: State, events: seq<Event>): State
    requires cfg.Sane()
  {
    if events == [] then s else Step(cfg, Run(cfg, s, events[..|events| - 1]), events[|events| - 1])
  }

  const Initial: State := State([], [], [], [], [], map[], [], 0, map[], false, None)
}
