/** The one-pass aggregation behind the status lines sent to bars. */
module Status {
  import opened Sequences
  import opened Tags
  import opened Monitors
  import opened Windows
  import opened Compositor

  datatype StatusLine = StatusLine(
    name: string, selected: bool,
    occupied: Mask, shown: Mask, focusedTags: Mask, urgent: Mask,
    fullscreen: bool, floating: bool,
    focused: Option<Window>,
    layout: LayoutKind)

  /** The tags of the windows on one monitor, or of the urgent ones among them. */
  function TagsOn(info: Info, ws: seq<Window>, mon: nat, urgentOnly: bool): (r: Mask)
    ensures forall t :: t in r <==>
      exists w :: w in ws && St(info, w).monIdx == mon && (urgentOnly ==> St(info, w).isUrgent) && t in St(info, w).tags
  {
    if ws == [] then {}
    else
      var n := |ws| - 1;
      var st := St(info, ws[n]);
      assert forall w :: w in ws <==> w in ws[..n] || w == ws[n];
      TagsOn(info, ws[..n], mon, urgentOnly) + if st.monIdx == mon && (urgentOnly ==> st.isUrgent) then st.tags else {}
  }

  /** The line of monitor `i`, from the definition of each of its fields. */
  function LineFor(cfg: Config, s: State, i: nat): StatusLine
    requires i < |s.monitors|
  {
    var focused := FocusedOn(s, i);
    var st := if focused.Some? then St(s.info, focused.value) else NewWindowState;
    StatusLine(
      s.monitors[i].output.name, i == s.selMon,
      TagsOn(s.info, s.windows, i, false) * TagMask(cfg.tagCount), s.monitors[i].Tags(),
      st.tags,
      TagsOn(s.info, s.windows, i, true) * TagMask(cfg.tagCount),
      st.isFullscreen, st.isFloating,
      focused, s.monitors[i].Kind(cfg))
  }

  lemma FirstSnoc(q: Query, info: Info, ws: seq<Window>, x: Window)
    ensures First(q, info, ws + [x]) ==
      if First(q, info, ws).Some? then First(q, info, ws) else if Sat(q, St(info, x)) then Some(x) else None
  {
    hide Sat, Select, First;
    FirstIsHead(q, info, ws);
    FirstIsHead(q, info, ws + [x]);
    SelectSnoc(q, info, ws, x);
  }

  lemma TagsOnNext(info: Info, ws: seq<Window>, k: nat, mon: nat, urgentOnly: bool)
    requires k < |ws|
    ensures var st := St(info, ws[k]);
            TagsOn(info, ws[..k + 1], mon, urgentOnly)
            == if st.monIdx == mon && (urgentOnly ==> st.isUrgent) then TagsOn(info, ws[..k], mon, urgentOnly) + st.tags
               else TagsOn(info, ws[..k], mon, urgentOnly)
  {
    assert ws[..k + 1][..k] == ws[..k];
  }

  /** The occupied and urgent tags of every monitor, in one pass over the windows. */
  method CollectTags(info: Info, ws: seq<Window>, n: nat) returns (perMonTags: array<(Mask, Mask)>)
    ensures fresh(perMonTags) && perMonTags.Length == n
    ensures forall i :: 0 <= i < n ==> perMonTags[i] == (TagsOn(info, ws, i, false), TagsOn(info, ws, i, true))
  {
    hide TagsOn;
    perMonTags := new (Mask, Mask)[n](_ => ({}, {}));
    assert forall i :: TagsOn(info, ws[..0], i, false) == {} && TagsOn(info, ws[..0], i, true) == {};
    for k := 0 to |ws|
      invariant forall i :: 0 <= i < n ==>
        perMonTags[i] == (TagsOn(info, ws[..k], i, false), TagsOn(info, ws[..k], i, true))
    {
      forall i
        ensures TagsOn(info, ws[..k + 1], i, false)
                == if St(info, ws[k]).monIdx == i then TagsOn(info, ws[..k], i, false) + St(info, ws[k]).tags
                   else TagsOn(info, ws[..k], i, false)
        ensures TagsOn(info, ws[..k + 1], i, true)
                == if St(info, ws[k]).monIdx == i && St(info, ws[k]).isUrgent
                   then TagsOn(info, ws[..k], i, true) + St(info, ws[k]).tags
                   else TagsOn(info, ws[..k], i, true)
      {
        TagsOnNext(info, ws, k, i, false);
        TagsOnNext(info, ws, k, i, true);
      }
      var st := St(info, ws[k]);
      if st.monIdx < n {
        var slot := perMonTags[st.monIdx];
        perMonTags[st.monIdx] := (slot.0 + st.tags, if st.isUrgent then slot.1 + st.tags else slot.1);
      }
    }
    assert ws[..|ws|] == ws;
  }

  /** The first window of the focus stack on and visible on every monitor, in one pass over the stack. */
  method CollectFocused(ms: seq<MonitorData>, info: Info, focus: seq<Window>) returns (focusedPerMon: array<Option<Window>>)
    ensures fresh(focusedPerMon) && focusedPerMon.Length == |ms|
    ensures forall i :: 0 <= i < |ms| ==> focusedPerMon[i] == First(OnMonitor(ms[i].Tags(), i), info, focus)
  {
    hide Meets;
    focusedPerMon := new Option<Window>[|ms|](_ => None);
    for k := 0 to |focus|
      invariant forall i :: 0 <= i < |ms| ==> focusedPerMon[i] == First(OnMonitor(ms[i].Tags(), i), info, focus[..k])
    {
      hide First, MonitorData.Tags;
      var w := focus[k];
      assert focus[..k + 1] == focus[..k] + [w];
      forall i | 0 <= i < |ms|
        ensures First(OnMonitor(ms[i].Tags(), i), info, focus[..k + 1]) ==
          if First(OnMonitor(ms[i].Tags(), i), info, focus[..k]).Some?
          then First(OnMonitor(ms[i].Tags(), i), info, focus[..k])
          else if Sat(OnMonitor(ms[i].Tags(), i), St(info, w)) then Some(w) else None
      {
        FirstSnoc(OnMonitor(ms[i].Tags(), i), info, focus[..k], w);
      }
      var mon := St(info, w).monIdx;
      if mon < |ms| && focusedPerMon[mon].None? {
        if Meets(St(info, w).tags, ms[mon].Tags()) {
          focusedPerMon[mon] := Some(w);
        }
      }
    }
    assert focus[..|focus|] == focus;
  }

  /** The status of every monitor, from the two passes, is the status its definition gives. */
  method FormatStatus(cfg: Config, s: State) returns (lines: seq<StatusLine>)
    ensures |lines| == |s.monitors|
    ensures forall i :: 0 <= i < |lines| ==> lines[i] == LineFor(cfg, s, i)
  {
    var perMonTags := CollectTags(s.info, s.windows, |s.monitors|);
    var focusedPerMon := CollectFocused(s.monitors, s.info, s.focus);
    lines := [];
    for i := 0 to |s.monitors|
      invariant |lines| == i
      invariant forall j :: 0 <= j < i ==> lines[j] == LineFor(cfg, s, j)
    {
      var m := s.monitors[i];
      var focused := focusedPerMon[i];
      var st := if focused.Some? then St(s.info, focused.value) else NewWindowState;
      lines := lines + [StatusLine(
        m.output.name, i == s.selMon,
        perMonTags[i].0 * TagMask(cfg.tagCount), m.Tags(), st.tags, perMonTags[i].1 * TagMask(cfg.tagCount),
        st.isFullscreen, st.isFloating, focused, m.Kind(cfg))];
    }
  }

  /** The selected monitor's entry is the window actions apply to. */
  lemma SelectedLineIsFocused(cfg: Config, s: State)
    requires s.selMon < |s.monitors|
    ensures LineFor(cfg, s, s.selMon).focused == FocusedWindow(s)
    ensures forall i :: 0 <= i < |s.monitors| ==> (LineFor(cfg, s, i).selected <==> i == s.selMon)
  {
  }
}
