/** Which key events reach clients: keybinding look-up and the filter that swallows bound keys. */
module Keys {
  import opened Sequences

  type Code = nat
  type Sym = nat

  datatype KeyAction = TogglePassthrough | Other(id: nat)

  /** A binding applies while a window whose app id contains `appId` is focused, or always when there is none. */
  datatype KeyBind = KeyBind(mods: nat, keysym: Sym, action: KeyAction, appId: Option<string>)

  // Look-up.

  predicate Contains(text: string, part: string) {
    part <= text || (text != [] && Contains(text[1..], part))
  }

  /** Which of the two look-up passes a binding takes part in. */
  predicate InPass(b: KeyBind, appSpecific: bool, focused: Option<string>) {
    if appSpecific then b.appId.Some? && focused.Some? && Contains(focused.value, b.appId.value)
    else b.appId.None?
  }

  predicate Matches(b: KeyBind, sym: Sym, mods: nat, appSpecific: bool, focused: Option<string>, onlyToggle: bool) {
    b.keysym == sym && b.mods == mods && (onlyToggle ==> b.action.TogglePassthrough?) && InPass(b, appSpecific, focused)
  }

  function FirstMatch(keys: seq<KeyBind>, sym: Sym, mods: nat, appSpecific: bool, focused: Option<string>, onlyToggle: bool): (r: Option<nat>)
    ensures r.Some? ==>
      && r.value < |keys| && Matches(keys[r.value], sym, mods, appSpecific, focused, onlyToggle)
      && forall i :: 0 <= i < r.value ==> !Matches(keys[i], sym, mods, appSpecific, focused, onlyToggle)
    ensures r.None? ==> forall i :: 0 <= i < |keys| ==> !Matches(keys[i], sym, mods, appSpecific, focused, onlyToggle)
  {
    if keys == [] then None
    else
      var n := |keys| - 1;
      var earlier := FirstMatch(keys[..n], sym, mods, appSpecific, focused, onlyToggle);
      assert forall i :: 0 <= i < n ==> keys[..n][i] == keys[i];
      if earlier.Some? then earlier
      else if Matches(keys[n], sym, mods, appSpecific, focused, onlyToggle) then Some(n)
      else None
  }

  function OnePass(keys: seq<KeyBind>, modified: Sym, base: Sym, mods: nat, appSpecific: bool, focused: Option<string>, onlyToggle: bool): Option<nat> {
    var exact := FirstMatch(keys, modified, mods, appSpecific, focused, onlyToggle);
    if exact.Some? then exact
    else if base != modified then FirstMatch(keys, base, mods, appSpecific, focused, onlyToggle)
    else None
  }

  /** Bindings of the focused application first, then the general ones; the shifted keysym before the plain one. */
  function MatchKeybind(keys: seq<KeyBind>, modified: Sym, base: Sym, mods: nat, focused: Option<string>, onlyToggle: bool): Option<nat> {
    var specific := OnePass(keys, modified, base, mods, true, focused, onlyToggle);
    if specific.Some? then specific else OnePass(keys, modified, base, mods, false, focused, onlyToggle)
  }

  /** A binding that applies to the event at all. */
  predicate Applies(b: KeyBind, modified: Sym, base: Sym, mods: nat, focused: Option<string>, onlyToggle: bool) {
    && (b.keysym == modified || b.keysym == base) && b.mods == mods
    && (onlyToggle ==> b.action.TogglePassthrough?)
    && (InPass(b, true, focused) || InPass(b, false, focused))
  }

  /** Among applying bindings: application before general, shifted before plain keysym. */
  function Rank(b: KeyBind, modified: Sym): nat {
    (if b.appId.Some? then 0 else 2) + (if b.keysym == modified then 0 else 1)
  }

  lemma OnePassFinds(keys: seq<KeyBind>, modified: Sym, base: Sym, mods: nat, appSpecific: bool, focused: Option<string>, onlyToggle: bool)
    ensures var r := OnePass(keys, modified, base, mods, appSpecific, focused, onlyToggle);
            var hit := (b: KeyBind) => Applies(b, modified, base, mods, focused, onlyToggle) && b.appId.Some? == appSpecific;
            && (r.None? ==> forall i :: 0 <= i < |keys| ==> !hit(keys[i]))
            && (r.Some? ==>
                  && r.value < |keys| && hit(keys[r.value])
                  && forall i :: 0 <= i < |keys| && hit(keys[i]) ==>
                       || Rank(keys[r.value], modified) < Rank(keys[i], modified)
                       || (Rank(keys[r.value], modified) == Rank(keys[i], modified) && r.value <= i))
  {
    hide Contains;
    forall i | 0 <= i < |keys| && Applies(keys[i], modified, base, mods, focused, onlyToggle) && keys[i].appId.Some? == appSpecific
      ensures Matches(keys[i], if keys[i].keysym == modified then modified else base, mods, appSpecific, focused, onlyToggle)
    {
    }
  }

  lemma GeneralRanksAfter(a: KeyBind, b: KeyBind, modified: Sym)
    requires a.appId.Some? && b.appId.None?
    ensures Rank(a, modified) < Rank(b, modified)
  {
  }

  /** The look-up finds a binding exactly when one applies: the first of those of the best rank. */
  lemma MatchKeybindIsBest(keys: seq<KeyBind>, modified: Sym, base: Sym, mods: nat, focused: Option<string>, onlyToggle: bool)
    ensures var r := MatchKeybind(keys, modified, base, mods, focused, onlyToggle);
            && (r.None? <==> forall i :: 0 <= i < |keys| ==> !Applies(keys[i], modified, base, mods, focused, onlyToggle))
            && (r.Some? ==>
                  && r.value < |keys| && Applies(keys[r.value], modified, base, mods, focused, onlyToggle)
                  && forall i :: 0 <= i < |keys| && Applies(keys[i], modified, base, mods, focused, onlyToggle) ==>
                       || Rank(keys[r.value], modified) < Rank(keys[i], modified)
                       || (Rank(keys[r.value], modified) == Rank(keys[i], modified) && r.value <= i))
  {
    hide Applies, Rank, OnePass;
    OnePassFinds(keys, modified, base, mods, true, focused, onlyToggle);
    OnePassFinds(keys, modified, base, mods, false, focused, onlyToggle);
    var r := MatchKeybind(keys, modified, base, mods, focused, onlyToggle);
    if r.Some? && keys[r.value].appId.Some? {
      forall i | 0 <= i < |keys| && keys[i].appId.None?
        ensures Rank(keys[r.value], modified) < Rank(keys[i], modified)
      {
        GeneralRanksAfter(keys[r.value], keys[i], modified);
      }
    }
  }

  // The filter.

  /** Compositor state the filter consults, as it is when the event arrives. */
  datatype Mode = Mode(nativeLock: bool, locked: bool, overview: bool, pip: bool, passthrough: bool, focused: Option<string>)

  datatype KeyEvent = KeyEvent(code: Code, pressed: bool, noSymbol: bool, arrow: bool, escape: bool,
                               modified: Sym, base: Sym, mods: nat)

  /** Whether a press is intercepted, with some action, instead of being forwarded. */
  predicate InterceptsPress(keys: seq<KeyBind>, m: Mode, e: KeyEvent) {
    if m.nativeLock then true
    else if e.noSymbol then false
    else if m.locked then false
    else if m.overview then true
    else if m.pip && e.escape && e.mods == 0 then true
    else if m.passthrough then MatchKeybind(keys, e.modified, e.base, e.mods, None, true).Some?
    else MatchKeybind(keys, e.modified, e.base, e.mods, m.focused, false).Some?
  }

  /** Whether an event reaches the client, given the keys whose press was intercepted. */
  predicate Forwards(keys: seq<KeyBind>, intercepted: set<Code>, m: Mode, e: KeyEvent) {
    if e.pressed then !InterceptsPress(keys, m, e)
    else !m.nativeLock && (e.noSymbol || e.code !in intercepted)
  }

  function Remembered(keys: seq<KeyBind>, intercepted: set<Code>, m: Mode, e: KeyEvent): set<Code> {
    if e.pressed then if InterceptsPress(keys, m, e) then intercepted + {e.code} else intercepted
    else if m.nativeLock || e.noSymbol then intercepted
    else intercepted - {e.code}
  }

  /** A press of a key that is down, or a release of one that is not, never gets as far as the filter. */
  predicate Absorbed(held: set<Code>, e: KeyEvent) {
    e.pressed <==> e.code in held
  }

  class KeyFilter {
    const keys: seq<KeyBind>
    /** The keys the keyboard counts as pressed, whatever became of their press. */
    var held: set<Code>
    var intercepted: set<Code>

    constructor (keys: seq<KeyBind>)
      ensures this.keys == keys && held == {} && intercepted == {}
    {
      this.keys, held, intercepted := keys, {}, {};
    }

    /** One key event; `forwarded` tells whether a client gets it. */
    method Process(m: Mode, e: KeyEvent) returns (forwarded: bool)
      modifies this
      ensures forwarded == (!Absorbed(old(held), e) && Forwards(keys, old(intercepted), m, e))
      ensures held == if e.pressed then old(held) + {e.code} else old(held) - {e.code}
      ensures intercepted == if Absorbed(old(held), e) then old(intercepted) else Remembered(keys, old(intercepted), m, e)
    {
      hide MatchKeybind;
      if Absorbed(held, e) {
        return false;
      }
      held := if e.pressed then held + {e.code} else held - {e.code};
      forwarded := Filter(m, e);
      if e.pressed && !forwarded {
        intercepted := intercepted + {e.code};
      }
    }

    method Filter(m: Mode, e: KeyEvent) returns (forwarded: bool)
      modifies this`intercepted
      ensures forwarded == Forwards(keys, old(intercepted), m, e)
      ensures intercepted == if e.pressed then old(intercepted) else Remembered(keys, old(intercepted), m, e)
    {
      hide MatchKeybind;
      if m.nativeLock {
        return false;
      }
      if e.noSymbol {
        return true;
      }
      if !e.pressed {
        if e.code in intercepted {
          intercepted := intercepted - {e.code};
          return false;
        }
        return true;
      }
      if m.locked {
        return true;
      }
      if m.overview {
        return false;
      }
      if m.pip && e.escape && e.mods == 0 {
        return false;
      }
      if m.passthrough {
        return MatchKeybind(keys, e.modified, e.base, e.mods, None, true).None?;
      }
      forwarded := MatchKeybind(keys, e.modified, e.base, e.mods, m.focused, false).None?;
    }

    /** On leaving the native lock and on resuming: a release of every pressed key, past the filter. */
    method ReleaseAllPressed() returns (released: set<Code>)
      modifies this`held
      ensures released == old(held) && held == {}
    {
      released := {};
      while held != {}
        invariant released + held == old(held)
        decreases |held|
      {
        var c :| c in held;
        released, held := released + {c}, held - {c};
      }
    }
  }

  // Whole streams.

  datatype Input = Key(mode: Mode, event: KeyEvent) | ReleaseAll

  /** The keys that are down, each with whether its press was forwarded, and the compositor's own set. */
  datatype Board = Board(held: map<Code, bool>, intercepted: set<Code>)

  function Feed(keys: seq<KeyBind>, b: Board, i: Input): Board {
    match i
    case ReleaseAll => b.(held := map[])
    case Key(m, e) =>
      if Absorbed(b.held.Keys, e) then b
      else
        Board(if e.pressed then b.held[e.code := Forwards(keys, b.intercepted, m, e)] else b.held - {e.code},
              Remembered(keys, b.intercepted, m, e))
  }

  function After(keys: seq<KeyBind>, inputs: seq<Input>): Board {
    if inputs == [] then Board(map[], {}) else Feed(keys, After(keys, inputs[..|inputs| - 1]), inputs[|inputs| - 1])
  }

  /** The keys that are down and whose press was intercepted. */
  function Swallowed(held: map<Code, bool>): set<Code> {
    set c | c in held && !held[c]
  }

  /** A release the filter treats without regard to its press: the native locker is up, or there is no symbol. */
  predicate Odd(m: Mode, e: KeyEvent) {
    !e.pressed && (m.nativeLock || e.noSymbol)
  }

  /**
   The keys that are remembered though their swallowed press is over: released oddly or by a release of all,
   and neither intercepted again nor released normally since.
   */
  function Stale(keys: seq<KeyBind>, inputs: seq<Input>): set<Code> {
    if inputs == [] then {}
    else
      var n := |inputs| - 1;
      var b, stale := After(keys, inputs[..n]), Stale(keys, inputs[..n]);
      match inputs[n]
      case ReleaseAll => stale + Swallowed(b.held)
      case Key(m, e) =>
        if Absorbed(b.held.Keys, e) then stale
        else if e.pressed then if Forwards(keys, b.intercepted, m, e) then stale else stale - {e.code}
        else if !Odd(m, e) then stale - {e.code}
        else if b.held[e.code] then stale
        else stale + {e.code}
  }

  /** Over every stream, `intercepted_keys` is exactly the held keys whose press was intercepted and the stale ones. */
  lemma {:induction false} InterceptedExactly(keys: seq<KeyBind>, inputs: seq<Input>)
    ensures var b := After(keys, inputs);
            && b.intercepted == Swallowed(b.held) + Stale(keys, inputs)
            && Swallowed(b.held) !! Stale(keys, inputs)
  {
    hide InterceptsPress;
    if inputs != [] {
      InterceptedExactly(keys, inputs[..|inputs| - 1]);
    }
  }

  /** So it is exactly the former if and only if nothing is stale. */
  lemma InterceptedAreHeldIff(keys: seq<KeyBind>, inputs: seq<Input>)
    ensures After(keys, inputs).intercepted == Swallowed(After(keys, inputs).held) <==> Stale(keys, inputs) == {}
  {
    hide After, Stale, Swallowed;
    InterceptedExactly(keys, inputs);
  }

  /** The keys an input releases. */
  function Released(b: Board, i: Input): set<Code> {
    match i
    case ReleaseAll => b.held.Keys
    case Key(_, e) => if !e.pressed && e.code in b.held then {e.code} else {}
  }

  /** Those of them whose release is forwarded; whether a client then gets it depends on the keyboard focus. */
  function Forwarded(keys: seq<KeyBind>, b: Board, i: Input): set<Code> {
    match i
    case ReleaseAll => b.held.Keys
    case Key(m, e) => if !e.pressed && e.code in b.held && Forwards(keys, b.intercepted, m, e) then {e.code} else {}
  }

  /** Exactly those releases are forwarded whose press was. */
  predicate Fits(keys: seq<KeyBind>, b: Board, i: Input) {
    forall c :: c in Released(b, i) ==> (c in Forwarded(keys, b, i) <==> b.held[c])
  }

  /**
   Over every stream: exactly when an input's releases fit their presses.  A release of all fits unless the
   press of a held key was intercepted; an odd release, if what it does anyway happens to fit; a normal one,
   unless its press was forwarded while the key was stale.
   */
  lemma ReleaseFitsIff(keys: seq<KeyBind>, inputs: seq<Input>, i: Input)
    ensures var b := After(keys, inputs);
            Fits(keys, b, i) <==>
              match i
              case ReleaseAll => Swallowed(b.held) == {}
              case Key(m, e) =>
                e.pressed || e.code !in b.held
                || (if Odd(m, e) then b.held[e.code] == !m.nativeLock
                    else !(b.held[e.code] && e.code in Stale(keys, inputs)))
  {
    hide InterceptsPress, After, Stale;
    var b := After(keys, inputs);
    InterceptedExactly(keys, inputs);
    if i.Key? && !i.event.pressed && i.event.code in b.held {
      var c := i.event.code;
      assert Released(b, i) == {c};
      assert c in b.intercepted <==> !b.held[c] || c in Stale(keys, inputs);
    } else if i.ReleaseAll? {
      assert Fits(keys, b, i) <==> forall c :: c in b.held ==> b.held[c];
      assert Swallowed(b.held) == {} <==> forall c :: c in b.held ==> c !in Swallowed(b.held);
    } else {
      assert Released(b, i) == {};
    }
  }

  /** An input that leaves a stale key behind: an odd release, or a release of all, of a swallowed key. */
  predicate Dirties(b: Board, i: Input) {
    match i
    case ReleaseAll => Swallowed(b.held) != {}
    case Key(m, e) => Odd(m, e) && e.code in b.held && !b.held[e.code]
  }

  ghost predicate Clean(keys: seq<KeyBind>, inputs: seq<Input>) {
    forall k :: 0 <= k < |inputs| ==> !Dirties(After(keys, inputs[..k]), inputs[k])
  }

  lemma CleanPrefix(keys: seq<KeyBind>, inputs: seq<Input>, n: nat)
    requires Clean(keys, inputs) && n <= |inputs|
    ensures Clean(keys, inputs[..n])
  {
    forall k | 0 <= k < n
      ensures !Dirties(After(keys, inputs[..n][..k]), inputs[..n][k])
    {
      assert inputs[..n][..k] == inputs[..k];
    }
  }

  lemma {:induction false} CleanNotStale(keys: seq<KeyBind>, inputs: seq<Input>)
    requires Clean(keys, inputs)
    ensures Stale(keys, inputs) == {}
  {
    hide InterceptsPress, After, Forwards;
    if inputs != [] {
      var n := |inputs| - 1;
      CleanPrefix(keys, inputs, n);
      CleanNotStale(keys, inputs[..n]);
      assert !Dirties(After(keys, inputs[..n]), inputs[n]);
    }
  }

  /** As long as no odd release or release of all meets a swallowed key, `intercepted_keys` is exactly the swallowed keys. */
  lemma InterceptedAreHeld(keys: seq<KeyBind>, inputs: seq<Input>)
    requires Clean(keys, inputs)
    ensures After(keys, inputs).intercepted == Swallowed(After(keys, inputs).held)
  {
    hide After, Stale;
    CleanNotStale(keys, inputs);
    InterceptedAreHeldIff(keys, inputs);
  }

  /** And every normal release is forwarded exactly when its press was. */
  lemma ReleaseFollowsPress(keys: seq<KeyBind>, inputs: seq<Input>, k: nat)
    requires Clean(keys, inputs) && k < |inputs| && inputs[k].Key? && !Odd(inputs[k].mode, inputs[k].event)
    ensures Fits(keys, After(keys, inputs[..k]), inputs[k])
  {
    hide After, Stale, Fits;
    CleanPrefix(keys, inputs, k);
    CleanNotStale(keys, inputs[..k]);
    ReleaseFitsIff(keys, inputs[..k], inputs[k]);
  }

  /**
   What a stale key costs: the first time it is pressed and that press is forwarded, its release is
   swallowed, and whoever got the press is left with the key down.
   */
  lemma StaleKeySticks(keys: seq<KeyBind>, inputs: seq<Input>, press: Input, release: Input)
    requires press.Key? && release.Key? && press.event.pressed && !release.event.pressed && !Odd(release.mode, release.event)
    requires press.event.code == release.event.code
    requires var b := After(keys, inputs);
             && press.event.code in Stale(keys, inputs) && press.event.code !in b.held
             && Forwards(keys, b.intercepted, press.mode, press.event)
    ensures !Fits(keys, After(keys, inputs + [press]), release)
    ensures var b := After(keys, inputs + [press]);
            press.event.code in b.held && b.held[press.event.code] && Forwarded(keys, b, release) == {}
  {
    hide InterceptsPress;
    var all := inputs + [press];
    assert all[..|inputs|] == inputs;
    InterceptedExactly(keys, inputs);
    ReleaseFitsIff(keys, all, release);
  }

  /** Every key typed into the native locker becomes stale, released there or by the unlock. */
  lemma LockLeavesStale(keys: seq<KeyBind>, m: Mode, press: KeyEvent, release: KeyEvent)
    requires m.nativeLock && press.pressed && !release.pressed && release.code == press.code
    ensures Stale(keys, [Key(m, press), Key(m, release)]) == {press.code}
    ensures Stale(keys, [Key(m, press), ReleaseAll]) == {press.code}
    ensures After(keys, [Key(m, press), Key(m, release)]).held == map[]
    ensures After(keys, [Key(m, press), ReleaseAll]).held == map[]
  {
    var one := [Key(m, press)];
    assert one[..0] == [];
    assert After(keys, one) == Board(map[press.code := false], {press.code});
    assert [Key(m, press), Key(m, release)][..1] == one;
    assert [Key(m, press), ReleaseAll][..1] == one;
    assert Swallowed(map[press.code := false]) == {press.code};
    assert Stale(keys, []) == {} && Stale(keys, one) == {};
    assert After(keys, [Key(m, press), ReleaseAll]) == Feed(keys, After(keys, one), ReleaseAll);
  }
}
