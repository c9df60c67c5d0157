/** Per-output state: the two tagset slots, the two layout slots and what survives a replug. */
module Monitors {
  import opened Sequences
  import opened Tags

  datatype Point = Point(x: int, y: int)
  datatype Rect = Rect(loc: Point, w: int, h: int)

  datatype LayoutKind = Tile | Monocle | Col | Scroll | Dwindle | Bstack | CenteredMaster

  /** A layout pinned to a tag, or one chosen by the number of tiled windows on it. */
  datatype PertagRule = Fixed(idx: nat) | ByCount(list: seq<nat>)

  datatype Config = Config(
    tagCount: nat,
    layouts: seq<LayoutKind>,
    pertag: seq<Option<PertagRule>>,
    follow: bool,
    /** The tiling algorithms: one rectangle per size factor, in tiling order. */
    layout: (MonitorData, seq<real>) -> seq<Rect>)
  {
    ghost predicate Sane() {
      && 1 <= tagCount < MASK_BITS
      && layouts != []
      && forall m, cfacts :: |layout(m, cfacts)| == |cfacts|
    }

    function ClampLayout(i: nat): nat {
      if i < |layouts| then i else if layouts == [] then 0 else |layouts| - 1
    }
  }

  /** An output handle; the connector name is what the layout memory is keyed by. */
  datatype Output = Output(id: nat, name: string)

  /** Two slots of which one is active. */
  datatype Pair<T> = Pair(zero: T, one: T) {
    function At(s: Slot): T {
      if s == 0 then zero else one
    }

    function Put(s: Slot, v: T): Pair<T> {
      if s == 0 then Pair(v, one) else Pair(zero, v)
    }
  }

  type Slot = s: nat | s < 2

  datatype MonitorMemory = MonitorMemory(
    mfact: real, nmaster: int, lt: Pair<nat>, selLt: nat, overrides: seq<Option<nat>>)

  function Only(m: Mask): (t: nat)
    requires IsSingle(m)
    ensures m == {t}
  {
    SingleElement(m);
    var t :| t in m;
    t
  }

  lemma SingleElement(m: Mask)
    requires IsSingle(m)
    ensures exists t :: m == {t}
    ensures forall t, u :: t in m && u in m ==> t == u
  {
    var t :| t in m;
    assert |m - {t}| == 0;
    assert m == {t};
  }

  datatype MonitorData = MonitorData(
    output: Output,
    tagset: Pair<Mask>, selTags: Slot,
    lt: Pair<nat>, selLt: Slot,
    mfact: real, nmaster: int,
    area: Rect, work: Rect,
    /** What the layer-shell clients leave free on this output, and whether one claims an exclusive zone. */
    zone: Rect, exclusive: bool,
    overrides: seq<Option<nat>>,
    scrollCol: nat)
  {
    function Tags(): Mask {
      tagset.At(selTags)
    }

    /** The part no arranging changes. */
    function Core(): MonitorData {
      this.(lt := Pair(0, 0), selLt := 0, work := area, scrollCol := 0)
    }

    function Kind(cfg: Config): LayoutKind {
      var i := lt.At(selLt);
      if i < |cfg.layouts| then cfg.layouts[i] else Tile
    }

    function WithLayout(cfg: Config, idx: nat): MonitorData {
      if idx < |cfg.layouts| && lt.At(selLt) != idx
      then this.(selLt := 1 - selLt, lt := lt.Put(1 - selLt, idx))
      else this
    }

    /** The fixed per-tag layout applied on a switch to `tags`; a manual override wins. */
    function ApplyPertag(cfg: Config, tags: Mask): MonitorData {
      if !IsSingle(tags) then this
      else
        var t := Only(tags);
        if t < |overrides| && overrides[t].Some? then WithLayout(cfg, overrides[t].value)
        else if t < |cfg.pertag| && cfg.pertag[t].Some? && cfg.pertag[t].value.Fixed?
        then WithLayout(cfg, cfg.pertag[t].value.idx)
        else this
    }

    /** The per-tag layout chosen by the number of tiled windows, unless the tag is pinned. */
    function ApplyDynamic(cfg: Config, tags: Mask, count: nat): MonitorData {
      if !IsSingle(tags) then this
      else
        var t := Only(tags);
        if t < |overrides| && overrides[t].Some? then this
        else if t < |cfg.pertag| && cfg.pertag[t].Some? && cfg.pertag[t].value.ByCount? then
          var list := cfg.pertag[t].value.list;
          var i := if count == 0 then 0 else count - 1;
          if list == [] then this
          else WithLayout(cfg, if i < |list| then list[i] else list[|list| - 1])
        else this
    }

    function View(cfg: Config, mask: Mask): MonitorData {
      var tags := mask * TagMask(cfg.tagCount);
      if tags == {} || tags == Tags() then this
      else this.(selTags := 1 - selTags, tagset := tagset.Put(1 - selTags, tags)).ApplyPertag(cfg, tags)
    }

    function ToggleView(cfg: Config, mask: Mask): MonitorData {
      var tags := Xor(Tags(), mask) * TagMask(cfg.tagCount);
      if tags == {} then this
      else this.(selTags := 1 - selTags, tagset := tagset.Put(1 - selTags, tags))
    }

    function ViewPrev(cfg: Config): MonitorData {
      this.(selTags := 1 - selTags).ApplyPertag(cfg, tagset.At(1 - selTags))
    }

    /** `None` stands for the toggle index `usize::MAX`. */
    function SetLayout(cfg: Config, idx: Option<nat>): MonitorData {
      if idx.None? then Pin(this.(selLt := 1 - selLt))
      else if idx.value < |cfg.layouts| && lt.At(selLt) != idx.value
      then Pin(this.(selLt := 1 - selLt, lt := lt.Put(1 - selLt, idx.value)))
      else this
    }

    static function Pin(m: MonitorData): MonitorData {
      if IsSingle(m.Tags()) && Only(m.Tags()) < |m.overrides|
      then m.(overrides := m.overrides[Only(m.Tags()) := Some(m.lt.At(m.selLt))])
      else m
    }

    function Snapshot(): MonitorMemory {
      MonitorMemory(mfact, nmaster, lt, selLt, overrides)
    }

    function Restore(cfg: Config, mem: MonitorMemory): MonitorData {
      this.(
        mfact := mem.mfact, nmaster := mem.nmaster,
        lt := Pair(cfg.ClampLayout(mem.lt.zero), cfg.ClampLayout(mem.lt.one)),
        selLt := mem.selLt % 2,
        overrides := RestoredOverrides(cfg, mem.overrides, cfg.tagCount))
    }

    /**
     The work area after the layer-shell zones have been re-read.  A full-output zone is ignored while
     a bar still claims an exclusive zone.
     */
    function Refit(): MonitorData {
      var free := if zone.w > 0 && zone.h > 0
                  then Rect(Point(area.loc.x + zone.loc.x, area.loc.y + zone.loc.y), zone.w, zone.h)
                  else area;
      if exclusive && free == area && work != area then this else this.(work := free)
    }

    /** Where a window of the given size is centred. */
    function Centre(w: int, h: int): Point {
      Point(area.loc.x + Halve(work.w - w), area.loc.y + Halve(work.h - h))
    }

    /** The tagset slots are what the view operations rely on. */
    predicate TagsOk(cfg: Config) {
      && tagset.zero != {} && tagset.zero <= TagMask(cfg.tagCount)
      && tagset.one != {} && tagset.one <= TagMask(cfg.tagCount)
    }

    /** Layout indices in range and one override slot per tag. */
    predicate LayoutsOk(cfg: Config) {
      && lt.zero < |cfg.layouts| && lt.one < |cfg.layouts|
      && |overrides| == cfg.tagCount
      && forall i :: 0 <= i < |overrides| ==> overrides[i].Some? ==> overrides[i].value < |cfg.layouts|
    }
  }

  /** `f64::clamp`, which panics when the bounds are out of order. */
  function Clamp(x: real, lo: real, hi: real): (r: real)
    requires lo <= hi
    ensures lo <= r <= hi
    ensures lo <= x <= hi ==> r == x
  {
    if x < lo then lo else if x > hi then hi else x
  }

  /** Integer division by two, truncating toward zero. */
  function Halve(x: int): int {
    if x >= 0 then x / 2 else -(-x / 2)
  }

  function RestoredOverrides(cfg: Config, saved: seq<Option<nat>>, n: nat): (r: seq<Option<nat>>)
    ensures |r| == n
    ensures forall i :: 0 <= i < n ==>
      r[i] == if i < |saved| && saved[i].Some? then Some(cfg.ClampLayout(saved[i].value)) else None
  {
    if n == 0 then []
    else RestoredOverrides(cfg, saved, n - 1)
         + [if n - 1 < |saved| && saved[n - 1].Some? then Some(cfg.ClampLayout(saved[n - 1].value)) else None]
  }

  /** A freshly plugged monitor shows tag 1 and starts from its monitor rule. */
  function Fresh(cfg: Config, output: Output, rule: MonitorRule): MonitorData {
    var idx := cfg.ClampLayout(rule.layoutIdx);
    MonitorData(
      output, Pair({0}, {0}), 0, Pair(idx, idx), 0, rule.mfact, rule.nmaster,
      rule.area, rule.area, Rect(Point(0, 0), rule.area.w, rule.area.h), false, seq(cfg.tagCount, _ => None), 0)
  }

  /** The first matching monitor rule together with the geometry worked out from the output mode. */
  datatype MonitorRule = MonitorRule(layoutIdx: nat, mfact: real, nmaster: int, area: Rect)

  // What the view operations do to the tagset.

  lemma ApplyPertagKeeps(m: MonitorData, cfg: Config, tags: Mask)
    ensures var r := m.ApplyPertag(cfg, tags);
            && r == m.(lt := r.lt, selLt := r.selLt)
            && (m.LayoutsOk(cfg) ==> r.LayoutsOk(cfg))
  {
  }

  lemma ViewTags(m: MonitorData, cfg: Config, mask: Mask)
    requires m.TagsOk(cfg)
    ensures m.View(cfg, mask).TagsOk(cfg)
    ensures mask * TagMask(cfg.tagCount) != {} ==> m.View(cfg, mask).Tags() == mask * TagMask(cfg.tagCount)
    ensures mask * TagMask(cfg.tagCount) == {} ==> m.View(cfg, mask) == m
  {
    hide m.ApplyPertag;
    var tags := mask * TagMask(cfg.tagCount);
    ApplyPertagKeeps(m.(selTags := 1 - m.selTags, tagset := m.tagset.Put(1 - m.selTags, tags)), cfg, tags);
  }

  lemma ToggleViewTags(m: MonitorData, cfg: Config, mask: Mask)
    requires m.TagsOk(cfg)
    ensures m.ToggleView(cfg, mask).TagsOk(cfg)
  {
  }

  /** After a switch to other tags, `view_prev` shows the tags that were left. */
  lemma ViewThenPrev(m: MonitorData, cfg: Config, mask: Mask)
    requires m.TagsOk(cfg) && m.View(cfg, mask).Tags() != m.Tags()
    ensures m.View(cfg, mask).ViewPrev(cfg).Tags() == m.Tags()
    ensures m.View(cfg, mask).ViewPrev(cfg).tagset.At(1 - m.View(cfg, mask).ViewPrev(cfg).selTags) == m.View(cfg, mask).Tags()
  {
  }

  /** From a single occupied tag, viewing the next occupied tag and then the previous one returns to it. */
  lemma ViewNextOccupiedReturns(m: MonitorData, cfg: Config, t: nat, occupied: Mask, dir: int)
    requires cfg.Sane() && m.TagsOk(cfg) && m.Tags() == {t} && t in occupied
    requires dir == 1 || dir == -1
    ensures {t} <= TagMask(MASK_BITS)
    ensures var there := NextOccupied({t}, occupied, dir, cfg.tagCount);
            && there.Some?
            && var v := m.View(cfg, there.value);
            && v.Tags() == there.value && v.Tags() <= TagMask(MASK_BITS)
            && var back := NextOccupied(v.Tags(), occupied, -dir, cfg.tagCount);
            && back.Some? && v.View(cfg, back.value).Tags() == m.Tags()
  {
    assert t < cfg.tagCount;
    NextOccupiedRoundTrip(t, occupied, dir, cfg.tagCount);
    var there := NextOccupied({t}, occupied, dir, cfg.tagCount).value;
    assert there * TagMask(cfg.tagCount) == there;
    assert {t} * TagMask(cfg.tagCount) == {t};
    ViewTags(m, cfg, there);
    ViewTags(m.View(cfg, there), cfg, {t});
  }

  // Layout state.

  /** Whatever was remembered, under whatever configuration, a restored monitor is in range. */
  lemma RestoreInRange(m: MonitorData, cfg: Config, mem: MonitorMemory)
    requires cfg.layouts != []
    ensures m.Restore(cfg, mem).LayoutsOk(cfg)
  {
  }

  /** Under an unchanged configuration restoring gives back exactly what was remembered. */
  lemma RestoreIsExact(m: MonitorData, replugged: MonitorData, cfg: Config)
    requires m.LayoutsOk(cfg)
    ensures var r := replugged.Restore(cfg, m.Snapshot());
            && r.mfact == m.mfact && r.nmaster == m.nmaster
            && r.lt == m.lt && r.selLt == m.selLt && r.overrides == m.overrides
  {
    assert RestoredOverrides(cfg, m.overrides, cfg.tagCount) == m.overrides;
  }

  lemma ViewLayouts(m: MonitorData, cfg: Config, mask: Mask)
    requires m.LayoutsOk(cfg)
    ensures m.View(cfg, mask).LayoutsOk(cfg) && m.ToggleView(cfg, mask).LayoutsOk(cfg)
  {
    hide m.ApplyPertag;
    var tags := mask * TagMask(cfg.tagCount);
    ApplyPertagKeeps(m.(selTags := 1 - m.selTags, tagset := m.tagset.Put(1 - m.selTags, tags)), cfg, tags);
  }

  lemma ViewPrevLayouts(m: MonitorData, cfg: Config)
    requires m.LayoutsOk(cfg)
    ensures m.ViewPrev(cfg).LayoutsOk(cfg)
  {
    hide m.ApplyPertag;
    ApplyPertagKeeps(m.(selTags := 1 - m.selTags), cfg, m.tagset.At(1 - m.selTags));
  }

  lemma SetLayoutLayouts(m: MonitorData, cfg: Config, idx: Option<nat>)
    requires m.LayoutsOk(cfg)
    ensures m.SetLayout(cfg, idx).LayoutsOk(cfg)
  {
  }

  /** The monitor record the compositor updates in place. */
  class Monitor {
    const output: Output
    var tagset: Pair<Mask>
    var selTags: Slot
    var lt: Pair<nat>
    var selLt: Slot
    var mfact: real
    var nmaster: int
    var area: Rect
    var work: Rect
    var zone: Rect
    var exclusive: bool
    var overrides: seq<Option<nat>>
    var scrollCol: nat

    function Data(): MonitorData
      reads this
    {
      MonitorData(output, tagset, selTags, lt, selLt, mfact, nmaster, area, work, zone, exclusive, overrides, scrollCol)
    }

    constructor (cfg: Config, output: Output, rule: MonitorRule)
      ensures Data() == Fresh(cfg, output, rule)
    {
      var idx := cfg.ClampLayout(rule.layoutIdx);
      this.output := output;
      tagset, selTags := Pair({0}, {0}), 0;
      lt, selLt := Pair(idx, idx), 0;
      mfact, nmaster := rule.mfact, rule.nmaster;
      area, work := rule.area, rule.area;
      zone, exclusive := Rect(Point(0, 0), rule.area.w, rule.area.h), false;
      overrides := seq(cfg.tagCount, _ => None);
      scrollCol := 0;
    }

    method SwitchLayout(cfg: Config, idx: nat)
      modifies this
      ensures Data() == old(Data()).WithLayout(cfg, idx)
    {
      if idx < |cfg.layouts| && lt.At(selLt) != idx {
        selLt := 1 - selLt;
        lt := lt.Put(selLt, idx);
      }
    }

    method ApplyPertag(cfg: Config, tags: Mask)
      modifies this
      ensures Data() == old(Data()).ApplyPertag(cfg, tags)
    {
      if !IsSingle(tags) {
        return;
      }
      var t := Only(tags);
      if t < |overrides| && overrides[t].Some? {
        SwitchLayout(cfg, overrides[t].value);
        return;
      }
      if t < |cfg.pertag| && cfg.pertag[t].Some? && cfg.pertag[t].value.Fixed? {
        SwitchLayout(cfg, cfg.pertag[t].value.idx);
      }
    }

    method ApplyDynamic(cfg: Config, tags: Mask, count: nat)
      modifies this
      ensures Data() == old(Data()).ApplyDynamic(cfg, tags, count)
    {
      if !IsSingle(tags) {
        return;
      }
      var t := Only(tags);
      if t < |overrides| && overrides[t].Some? {
        return;
      }
      if !(t < |cfg.pertag| && cfg.pertag[t].Some? && cfg.pertag[t].value.ByCount?) {
        return;
      }
      var list := cfg.pertag[t].value.list;
      if list == [] {
        return;
      }
      var i := if count == 0 then 0 else count - 1;
      SwitchLayout(cfg, if i < |list| then list[i] else list[|list| - 1]);
    }

    method View(cfg: Config, mask: Mask)
      modifies this
      ensures Data() == old(Data()).View(cfg, mask)
    {
      var tags := mask * TagMask(cfg.tagCount);
      if tags == {} || tags == tagset.At(selTags) {
        return;
      }
      selTags := 1 - selTags;
      tagset := tagset.Put(selTags, tags);
      ApplyPertag(cfg, tags);
    }

    method ToggleView(cfg: Config, mask: Mask)
      modifies this
      ensures Data() == old(Data()).ToggleView(cfg, mask)
    {
      var tags := Xor(tagset.At(selTags), mask) * TagMask(cfg.tagCount);
      if tags != {} {
        selTags := 1 - selTags;
        tagset := tagset.Put(selTags, tags);
      }
    }

    method ViewPrev(cfg: Config)
      modifies this
      ensures Data() == old(Data()).ViewPrev(cfg)
    {
      selTags := 1 - selTags;
      ApplyPertag(cfg, tagset.At(selTags));
    }

    method SetLayout(cfg: Config, idx: Option<nat>)
      modifies this
      ensures Data() == old(Data()).SetLayout(cfg, idx)
    {
      if idx.None? {
        selLt := 1 - selLt;
      } else if idx.value < |cfg.layouts| && lt.At(selLt) != idx.value {
        selLt := 1 - selLt;
        lt := lt.Put(selLt, idx.value);
      } else {
        return;
      }
      var tags := tagset.At(selTags);
      if IsSingle(tags) {
        var t := Only(tags);
        if t < |overrides| {
          overrides := overrides[t := Some(lt.At(selLt))];
        }
      }
    }

    method ScrollTo(col: nat)
      modifies this
      ensures Data() == old(Data()).(scrollCol := col)
    {
      scrollCol := col;
    }

    method Tune(nmaster: int, mfact: real, zone: Rect, exclusive: bool)
      modifies this
      ensures Data() == old(Data()).(nmaster := nmaster, mfact := mfact, zone := zone, exclusive := exclusive)
    {
      this.nmaster, this.mfact := nmaster, mfact;
      this.zone, this.exclusive := zone, exclusive;
    }

    method Refit()
      modifies this`work
      ensures Data() == old(Data()).Refit()
    {
      var free := area;
      if zone.w > 0 && zone.h > 0 {
        free := Rect(Point(area.loc.x + zone.loc.x, area.loc.y + zone.loc.y), zone.w, zone.h);
      }
      if exclusive && free == area && work != area {
        return;
      }
      work := free;
    }

    method Restore(cfg: Config, mem: MonitorMemory)
      modifies this
      ensures Data() == old(Data()).Restore(cfg, mem)
    {
      mfact := mem.mfact;
      nmaster := mem.nmaster;
      lt := Pair(cfg.ClampLayout(mem.lt.zero), cfg.ClampLayout(mem.lt.one));
      selLt := mem.selLt % 2;
      ghost var goal := RestoredOverrides(cfg, mem.overrides, cfg.tagCount);
      var v: seq<Option<nat>> := seq(cfg.tagCount, _ => None);
      var i := 0;
      while i < |v| && i < |mem.overrides|
        invariant |v| == cfg.tagCount && i <= |v| && i <= |mem.overrides|
        invariant forall k :: 0 <= k < i ==> v[k] == goal[k]
        invariant forall k :: i <= k < |v| ==> v[k] == None
      {
        v := v[i := if mem.overrides[i].Some? then Some(cfg.ClampLayout(mem.overrides[i].value)) else None];
        i := i + 1;
      }
      assert v == goal;
      overrides := v;
    }
  }
}
