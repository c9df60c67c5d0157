/**
 Tag bitmasks and the search for the next occupied tag.

 A 32-bit tag mask is modelled by the set of the positions of its one bits: `&` is `*`, `|` is `+`,
 `^` is `Xor`, `!= 0` is `!= {}` and `1 << k` is `{k}`.
 */
module Tags {
  import opened Sequences

  type Mask = set<nat>

  const MASK_BITS: nat := 32

  /** `(1 << tag_count) - 1`. */
  function TagMask(tagCount: nat): (r: Mask)
    ensures forall t: nat :: t in r <==> t < tagCount
  {
    if tagCount == 0 then {} else TagMask(tagCount - 1) + {tagCount - 1}
  }

  /** `a & b != 0`. */
  predicate Meets(a: Mask, b: Mask) {
    a * b != {}
  }

  function Xor(a: Mask, b: Mask): Mask {
    (a - b) + (b - a)
  }

  predicate IsSingle(m: Mask) {
    |m| == 1
  }

  /** `BITS - 1 - leading_zeros`: the position of the most significant one bit. */
  function Highest(m: Mask, bits: nat := MASK_BITS): (top: nat)
    requires m != {} && m <= TagMask(bits)
    ensures top in m && top < bits
    ensures forall t :: t in m ==> t <= top
  {
    if bits - 1 in m then bits - 1
    else Highest(m, bits - 1)
  }

  /** The position `step` tags away from `pos` in direction `dir`, wrapping around. */
  function Reach(pos: nat, dir: int, count: nat, step: nat): (k: nat)
    requires 1 <= count
    ensures k < count
  {
    (pos + dir * step) % count
  }

  /** Trying the steps `step..=count` in order, the first occupied position reached. */
  function FirstStep(pos: nat, occupied: Mask, dir: int, count: nat, step: nat): (r: Option<Mask>)
    requires 1 <= count && 1 <= step
    decreases count + 1 - step
  {
    if step > count then None
    else
      var k := Reach(pos, dir, count, step);
      if Meets(occupied, {k}) then Some({k}) else FirstStep(pos, occupied, dir, count, step + 1)
  }

  function NextOccupied(current: Mask, occupied: Mask, dir: int, count: nat): Option<Mask>
    requires 1 <= count < MASK_BITS && current <= TagMask(MASK_BITS)
  {
    if current == {} then None else FirstStep(Highest(current), occupied, dir, count, 1)
  }

  ghost predicate Hits(pos: nat, occupied: Mask, dir: int, count: nat, step: nat)
    requires 1 <= count
  {
    Reach(pos, dir, count, step) in occupied
  }

  /** Step `d` reaches an occupied tag and no earlier step from `from` on does. */
  ghost predicate FirstHit(pos: nat, occupied: Mask, dir: int, count: nat, from: nat, d: nat)
    requires 1 <= count
  {
    && from <= d <= count
    && Hits(pos, occupied, dir, count, d)
    && forall e: nat :: from <= e < d ==> !Hits(pos, occupied, dir, count, e)
  }

  lemma {:induction false} FirstStepFinds(pos: nat, occupied: Mask, dir: int, count: nat, step: nat, d: nat)
    requires 1 <= count && 1 <= step
    requires FirstHit(pos, occupied, dir, count, step, d)
    ensures FirstStep(pos, occupied, dir, count, step) == Some({Reach(pos, dir, count, d)})
    decreases count + 1 - step
  {
    var k := Reach(pos, dir, count, step);
    if k in occupied {
      assert Hits(pos, occupied, dir, count, step);
      assert k in occupied * {k};
    } else {
      assert occupied * {k} == {};
      FirstStepFinds(pos, occupied, dir, count, step + 1, d);
    }
  }

  lemma {:induction false} FirstStepFound(pos: nat, occupied: Mask, dir: int, count: nat, step: nat) returns (d: nat)
    requires 1 <= count && 1 <= step
    ensures var r := FirstStep(pos, occupied, dir, count, step);
            if r.Some? then FirstHit(pos, occupied, dir, count, step, d) && r.value == {Reach(pos, dir, count, d)}
            else forall e: nat :: step <= e <= count ==> !Hits(pos, occupied, dir, count, e)
    decreases count + 1 - step
  {
    d := step;
    if step <= count {
      var k := Reach(pos, dir, count, step);
      if k in occupied {
        assert k in occupied * {k};
      } else {
        assert occupied * {k} == {};
        d := FirstStepFound(pos, occupied, dir, count, step + 1);
      }
    }
  }

  // Modular arithmetic.

  lemma NonzeroMultiple(k: int, n: int)
    requires n >= 1
    ensures k >= 1 ==> k * n >= n
    ensures k <= -1 ==> k * n <= -n
  {
    if k >= 1 {
      assert (k - 1) * n >= 0;
    } else if k <= -1 {
      assert (-k - 1) * n >= 0;
    }
  }

  lemma ModPlusMultiple(t: int, q: int, n: nat)
    requires 0 <= t < n
    ensures (t + q * n) % n == t
  {
    var x := t + q * n;
    var k := x / n;
    assert x == k * n + x % n;
    assert (k - q) * n == t - x % n;
    NonzeroMultiple(k - q, n);
  }

  lemma ModCongruent(x: int, y: int, q: int, n: nat)
    requires 1 <= n && x == y + q * n
    ensures x % n == y % n
  {
    var t := y % n;
    var p := y / n;
    assert y == t + p * n;
    assert x == t + (p + q) * n;
    ModPlusMultiple(t, p + q, n);
  }

  /** Every tag below `count` is reached by exactly the step computed here. */
  lemma StepTo(pos: nat, dir: int, count: nat, t: nat) returns (d: nat)
    requires 1 <= count && t < count && (dir == 1 || dir == -1)
    ensures 1 <= d <= count && Reach(pos, dir, count, d) == t
  {
    var x := dir * (t - pos) - 1;
    d := x % count + 1;
    var q := x / count;
    assert x == q * count + (d - 1);
    assert pos + dir * d == t + (-dir * q) * count by {
      if dir == 1 {
        assert pos + d == t - q * count;
      } else {
        assert pos - d == t + q * count;
      }
    }
    ModPlusMultiple(t, -dir * q, count);
  }

  /**
   The search succeeds exactly when some configured tag is occupied; what it returns is the single
   occupied tag at the smallest cyclic distance (at least 1) from the most significant active tag.
   */
  lemma NextOccupiedIsNearest(current: Mask, occupied: Mask, dir: int, count: nat) returns (d: nat)
    requires 1 <= count < MASK_BITS && current <= TagMask(MASK_BITS) && current != {}
    requires dir == 1 || dir == -1
    ensures var r := NextOccupied(current, occupied, dir, count);
            && (r.Some? <==> exists t :: t in occupied && t < count)
            && (r.Some? ==>
                  && FirstHit(Highest(current), occupied, dir, count, 1, d)
                  && r.value == {Reach(Highest(current), dir, count, d)})
  {
    var pos := Highest(current);
    d := FirstStepFound(pos, occupied, dir, count, 1);
    if t :| t in occupied && t < count {
      var e := StepTo(pos, dir, count, t);
      assert Hits(pos, occupied, dir, count, e);
    }
  }

  lemma WalkBack(t: nat, dir: int, count: nat, d: nat, e: nat)
    requires 1 <= count && e <= d
    ensures Reach(Reach(t, dir, count, d), -dir, count, e) == Reach(t, dir, count, d - e)
  {
    var u := Reach(t, dir, count, d);
    var q := (t + dir * d) / count;
    assert t + dir * d == u + q * count;
    assert dir * (d - e) == dir * d - dir * e;
    ModCongruent(u + -dir * e, t + dir * (d - e), -q, count);
  }

  lemma NotHitBack(t: nat, occupied: Mask, dir: int, count: nat, d: nat, e: nat)
    requires 1 <= count && 1 <= e < d
    requires FirstHit(t, occupied, dir, count, 1, d)
    ensures !Hits(Reach(t, dir, count, d), occupied, -dir, count, e)
  {
    WalkBack(t, dir, count, d, e);
    assert !Hits(t, occupied, dir, count, d - e);
  }

  lemma FirstHitBack(t: nat, occupied: Mask, dir: int, count: nat, d: nat)
    requires 1 <= count && t < count && t in occupied
    requires FirstHit(t, occupied, dir, count, 1, d)
    ensures Reach(Reach(t, dir, count, d), -dir, count, d) == t
    ensures FirstHit(Reach(t, dir, count, d), occupied, -dir, count, 1, d)
  {
    WalkBack(t, dir, count, d, d);
    assert Reach(t, dir, count, 0) == t by { assert dir * 0 == 0; }
    var u, back := Reach(t, dir, count, d), -dir;
    forall e: nat | 1 <= e < d
      ensures !Hits(u, occupied, back, count, e)
    {
      NotHitBack(t, occupied, dir, count, d, e);
    }
  }

  /** Going to the next occupied tag and back again ends where it started. */
  lemma NextOccupiedRoundTrip(t: nat, occupied: Mask, dir: int, count: nat)
    requires 1 <= count < MASK_BITS && t < count && t in occupied
    requires dir == 1 || dir == -1
    ensures {t} <= TagMask(MASK_BITS)
    ensures var there := NextOccupied({t}, occupied, dir, count);
            && there.Some? && there.value <= TagMask(count)
            && there.value <= TagMask(MASK_BITS) && there.value != {}
            && NextOccupied(there.value, occupied, -dir, count) == Some({t})
  {
    hide Reach, FirstHit, FirstStep;
    var d := NextOccupiedIsNearest({t}, occupied, dir, count);
    assert Highest({t}) == t;
    var u := Reach(t, dir, count, d);
    assert Highest({u}) == u;
    FirstHitBack(t, occupied, dir, count, d);
    FirstStepFinds(u, occupied, -dir, count, 1, d);
  }
}
