/** Sequence vocabulary shared by the window lists, the focus stack and the tag histories. */
module Sequences {

  datatype Option<+T> = None | Some(value: T)

  predicate NoDup<T(==)>(xs: seq<T>) {
    forall i, j :: 0 <= i < j < |xs| ==> xs[i] != xs[j]
  }

  /** `retain(|y| y != x)`. */
  function Without<T(==,!new)>(xs: seq<T>, x: T): (r: seq<T>)
    ensures |r| <= |xs|
    ensures forall y :: y in r <==> y in xs && y != x
    ensures x !in xs ==> r == xs
  {
    if xs == [] then []
    else
      var n := |xs| - 1;
      assert xs == xs[..n] + [xs[n]];
      if xs[n] == x then Without(xs[..n], x) else Without(xs[..n], x) + [xs[n]]
  }

  /** The list with `x` taken out and put back in front. */
  function ToFront<T(==,!new)>(xs: seq<T>, x: T): (r: seq<T>)
    ensures r != [] && r[0] == x
    ensures forall y :: y in r <==> y in xs || y == x
  {
    [x] + Without(xs, x)
  }

  function Find<T(==,!new)>(xs: seq<T>, x: T): (r: Option<nat>)
    ensures r.Some? ==> r.value < |xs| && xs[r.value] == x && x !in xs[..r.value]
    ensures r.None? <==> x !in xs
  {
    if xs == [] then None
    else if xs[0] == x then Some(0)
    else
      match Find(xs[1..], x)
      case None => None
      case Some(i) => assert xs[..i + 1] == [xs[0]] + xs[1..][..i]; Some(i + 1)
  }

  lemma WithoutSnoc<T(!new)>(xs: seq<T>, y: T, x: T)
    ensures Without(xs + [y], x) == if y == x then Without(xs, x) else Without(xs, x) + [y]
  {
    var zs := xs + [y];
    assert zs[..|zs| - 1] == xs;
  }

  lemma ConcatAssociative<T(!new)>(xs: seq<T>, ys: seq<T>, zs: seq<T>)
    ensures (xs + ys) + zs == xs + (ys + zs)
  {
  }

  lemma {:induction false} WithoutConcat<T(!new)>(xs: seq<T>, ys: seq<T>, x: T)
    ensures Without(xs + ys, x) == Without(xs, x) + Without(ys, x)
    decreases |ys|
  {
    if ys == [] {
      assert xs + ys == xs;
    } else {
      var n := |ys| - 1;
      var init := ys[..n];
      assert ys == init + [ys[n]];
      WithoutConcat(xs, init, x);
      WithoutSnoc(init, ys[n], x);
      ConcatAssociative(xs, init, [ys[n]]);
      WithoutSnoc(xs + init, ys[n], x);
      ConcatAssociative(Without(xs, x), Without(init, x), [ys[n]]);
    }
  }

  lemma {:induction false} WithoutNoDup<T(!new)>(xs: seq<T>, x: T)
    requires NoDup(xs)
    ensures NoDup(Without(xs, x))
    ensures x in xs ==> |Without(xs, x)| == |xs| - 1
  {
    if xs != [] {
      var n := |xs| - 1;
      WithoutNoDup(xs[..n], x);
      if xs[n] != x {
        assert x in xs ==> x in xs[..n];
        assert xs[n] !in xs[..n];
      } else {
        assert x !in xs[..n];
      }
    }
  }

  /** Rotating the prefix that ends at `pos` is the same as taking the element out. */
  lemma WithoutAt<T(!new)>(xs: seq<T>, pos: nat)
    requires NoDup(xs) && pos < |xs|
    ensures Without(xs, xs[pos]) == xs[..pos] + xs[pos + 1..]
  {
    hide Without;
    var x, front, back := xs[pos], xs[..pos], xs[pos + 1..];
    NotBefore(xs, pos);
    var upTo := front + [x];
    assert upTo == xs[..pos + 1];
    assert xs == xs[..pos + 1] + back;
    WithoutSnoc(front, x, x);
    WithoutConcat(upTo, back, x);
    assert Without(front, x) == front && Without(back, x) == back;
  }

  lemma NotBefore<T(!new)>(xs: seq<T>, pos: nat)
    requires NoDup(xs) && pos < |xs|
    ensures xs[pos] !in xs[..pos] && xs[pos] !in xs[pos + 1..]
  {
  }

  lemma ToFrontNoDup<T(!new)>(xs: seq<T>, x: T)
    requires NoDup(xs)
    ensures NoDup(ToFront(xs, x))
  {
    WithoutNoDup(xs, x);
  }

  lemma {:induction false} NoDupConcat<T(!new)>(xs: seq<T>, ys: seq<T>)
    requires NoDup(xs) && NoDup(ys)
    requires forall x :: x in xs ==> x !in ys
    ensures NoDup(xs + ys)
  {
    forall i, j | 0 <= i < j < |xs + ys|
      ensures (xs + ys)[i] != (xs + ys)[j]
    {
      if i < |xs| <= j {
        assert (xs + ys)[i] in xs && (xs + ys)[j] in ys;
      }
    }
  }
}
