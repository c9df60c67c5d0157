/** Per-window metadata, shared by every clone of a window handle, and queries over window lists. */
module Windows {
  import opened Sequences
  import opened Tags
  import opened Monitors

  /** A window handle: two handles are equal exactly when they name the same window. */
  type Window = nat

  datatype WindowState = WindowState(
    tags: Mask,
    isFloating: bool, isFullscreen: bool, isUrgent: bool,
    /** `'\0'` for a window that is not a scratchpad. */
    scratchKey: char,
    switchToTag: Option<Mask>,
    rulesApplied: bool, needsCentering: bool,
    savedLoc: Option<Point>,
    monIdx: nat,
    cfact: real,
    pendingGeom: Option<Rect>,
    lastFocused: bool, bufferMapped: bool,
    isX11: bool)
  {
    /** The part `arrange` never writes. */
    function Core(): WindowState {
      this.(savedLoc := None, pendingGeom := None, lastFocused := false)
    }

    /** The part focusing does not write either. */
    function Quiet(): WindowState {
      Core().(isUrgent := false)
    }
  }

  const NO_KEY: char := '\0'

  const NewWindowState: WindowState :=
    WindowState({}, false, false, false, NO_KEY, None, false, false, None, 0, 1.0, None, false, false, false)

  /** Every window's cell; a window without one reads as freshly initialised. */
  type Info = map<Window, WindowState>

  function St(info: Info, w: Window): WindowState {
    if w in info then info[w] else NewWindowState
  }

  /** The same windows as far as tags, monitor and display kind go. */
  ghost predicate SameCore(a: Info, b: Info) {
    forall w :: St(a, w).Core() == St(b, w).Core()
  }

  /** The conditions by which the compositor picks windows out of its lists. */
  datatype Query =
    | Hidden(all: Mask)
    | Tiled(tags: Mask)
    | Floating(tags: Mask)
    | Unkeyed(tags: Mask)
    | Scratch(tags: Mask)
    | Fullscreen(tags: Mask)
    | OnMonitor(tags: Mask, mon: nat)
    | Steppable(tags: Mask, mon: nat)
    | ZoomCandidate(tags: Mask, mon: nat)
    | TileMaster(tags: Mask, mon: nat)
    | Keyed(key: char)
    | Urgent
    | IsX11
    | NotX11

  predicate Sat(q: Query, s: WindowState) {
    match q
    case Hidden(all) => !Meets(s.tags, all)
    case Tiled(tags) => Meets(s.tags, tags) && !s.isFullscreen && !s.isFloating && s.rulesApplied
    case Floating(tags) => Meets(s.tags, tags) && !s.isFullscreen && s.isFloating
    case Unkeyed(tags) => Meets(s.tags, tags) && !s.isFullscreen && s.isFloating && s.scratchKey == NO_KEY
    case Scratch(tags) => Meets(s.tags, tags) && !s.isFullscreen && s.isFloating && s.scratchKey != NO_KEY
    case Fullscreen(tags) => Meets(s.tags, tags) && s.isFullscreen
    case OnMonitor(tags, mon) => Meets(s.tags, tags) && s.monIdx == mon
    case Steppable(tags, mon) => Meets(s.tags, tags) && s.rulesApplied && s.monIdx == mon
    case ZoomCandidate(tags, mon) => Meets(s.tags, tags) && !s.isFloating && s.rulesApplied && s.monIdx == mon
    case TileMaster(tags, mon) =>
      s.monIdx == mon && Meets(s.tags, tags) && s.rulesApplied && !s.isFloating && !s.isFullscreen
    case Keyed(key) => s.scratchKey == key
    case Urgent => s.isUrgent
    case IsX11 => s.isX11
    case NotX11 => !s.isX11
  }

  /** The windows of `ws` that satisfy `q`, in list order. */
  function Select(q: Query, info: Info, ws: seq<Window>): (r: seq<Window>)
    ensures |r| <= |ws|
    ensures forall w :: w in r <==> w in ws && Sat(q, St(info, w))
  {
    if ws == [] then []
    else
      var n := |ws| - 1;
      assert ws == ws[..n] + [ws[n]];
      if Sat(q, St(info, ws[n])) then Select(q, info, ws[..n]) + [ws[n]] else Select(q, info, ws[..n])
  }

  function First(q: Query, info: Info, ws: seq<Window>): (r: Option<Window>)
    ensures r.None? ==> forall w :: w in ws ==> !Sat(q, St(info, w))
    ensures r.Some? ==> r.value in ws && Sat(q, St(info, r.value))
  {
    if ws == [] then None
    else if Sat(q, St(info, ws[0])) then Some(ws[0])
    else First(q, info, ws[1..])
  }

  lemma {:induction false} SelectNoDup(q: Query, info: Info, ws: seq<Window>)
    requires NoDup(ws)
    ensures NoDup(Select(q, info, ws))
  {
    if ws != [] {
      var n := |ws| - 1;
      SelectNoDup(q, info, ws[..n]);
      assert ws[n] !in ws[..n];
    }
  }

  lemma SelectSnoc(q: Query, info: Info, xs: seq<Window>, y: Window)
    ensures Select(q, info, xs + [y]) == if Sat(q, St(info, y)) then Select(q, info, xs) + [y] else Select(q, info, xs)
  {
    var zs := xs + [y];
    assert zs[..|zs| - 1] == xs;
  }

  lemma SelectOne(q: Query, info: Info, x: Window)
    ensures Select(q, info, [x]) == if Sat(q, St(info, x)) then [x] else []
  {
  }

  lemma {:induction false} SelectConcat(q: Query, info: Info, xs: seq<Window>, ys: seq<Window>)
    ensures Select(q, info, xs + ys) == Select(q, info, xs) + Select(q, info, ys)
    decreases |ys|
  {
    hide Sat;
    if ys == [] {
      assert xs + ys == xs;
    } else {
      var n := |ys| - 1;
      var init := ys[..n];
      assert ys == init + [ys[n]];
      SelectConcat(q, info, xs, init);
      SelectSnoc(q, info, init, ys[n]);
      ConcatAssociative(xs, init, [ys[n]]);
      SelectSnoc(q, info, xs + init, ys[n]);
      ConcatAssociative(Select(q, info, xs), Select(q, info, init), [ys[n]]);
    }
  }

  lemma SatCore(q: Query, s: WindowState, t: WindowState)
    requires s.Core() == t.Core()
    ensures Sat(q, s) == Sat(q, t)
  {
    assert s.tags == s.Core().tags && t.tags == t.Core().tags;
    assert s.monIdx == s.Core().monIdx && t.monIdx == t.Core().monIdx;
  }

  /** A selection depends only on what the windows in the list satisfy. */
  lemma {:induction false} SelectSame(q: Query, a: Info, b: Info, ws: seq<Window>)
    requires forall w :: w in ws ==> Sat(q, St(a, w)) == Sat(q, St(b, w))
    ensures Select(q, a, ws) == Select(q, b, ws)
  {
    if ws != [] {
      var n := |ws| - 1;
      assert forall w :: w in ws[..n] ==> w in ws;
      assert ws[n] in ws;
      SelectSame(q, a, b, ws[..n]);
    }
  }

  lemma SelectCore(q: Query, a: Info, b: Info, ws: seq<Window>)
    requires SameCore(a, b)
    ensures Select(q, a, ws) == Select(q, b, ws)
  {
    forall w | w in ws
      ensures Sat(q, St(a, w)) == Sat(q, St(b, w))
    {
      SatCore(q, St(a, w), St(b, w));
    }
    SelectSame(q, a, b, ws);
  }

  lemma {:induction false} FirstCore(q: Query, a: Info, b: Info, ws: seq<Window>)
    requires SameCore(a, b)
    ensures First(q, a, ws) == First(q, b, ws)
  {
    if ws != [] {
      SatCore(q, St(a, ws[0]), St(b, ws[0]));
      FirstCore(q, a, b, ws[1..]);
    }
  }

  /** The first match is the head of the selection. */
  lemma {:induction false} FirstIsHead(q: Query, info: Info, ws: seq<Window>)
    ensures var sel := Select(q, info, ws);
            First(q, info, ws) == if sel == [] then None else Some(sel[0])
  {
    hide Sat, Select;
    if ws != [] {
      var x, rest := ws[0], ws[1..];
      FirstIsHead(q, info, rest);
      assert ws == [x] + rest;
      SelectConcat(q, info, [x], rest);
      SelectOne(q, info, x);
    } else {
      assert Select(q, info, ws) == [];
    }
  }

  lemma {:induction false} SelectWithout(q: Query, info: Info, ws: seq<Window>, x: Window)
    ensures Select(q, info, Without(ws, x)) == Without(Select(q, info, ws), x)
  {
    hide Sat, Select, Without;
    if ws == [] {
      assert Without(ws, x) == [] && Select(q, info, ws) == [];
    } else {
      var n := |ws| - 1;
      var init, y := ws[..n], ws[n];
      assert ws == init + [y];
      SelectWithout(q, info, init, x);
      WithoutSnoc(init, y, x);
      SelectSnoc(q, info, init, y);
      SelectSnoc(q, info, Without(init, x), y);
      WithoutSnoc(Select(q, info, init), y, x);
    }
  }

  // The per-window cell accessors.

  function WithTags(info: Info, w: Window, tags: Mask): Info {
    info[w := St(info, w).(tags := tags)]
  }

  function WithUrgent(info: Info, w: Window, urgent: bool): Info {
    info[w := St(info, w).(isUrgent := urgent)]
  }
}
