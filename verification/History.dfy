/** The bounded, duplicate-free list of recently left tagsets kept for each monitor. */
module History {
  import opened Sequences
  import opened Tags

  const LIMIT: nat := 16

  /** Move the left tagset to the back, then drop the oldest entry once there are more than `LIMIT`. */
  function Record(history: seq<Mask>, left: Mask): (r: seq<Mask>) {
    var unique := Without(history, left) + [left];
    if |unique| > LIMIT then unique[1..] else unique
  }

  function Update(history: seq<Mask>, oldTags: Mask, target: Mask): seq<Mask> {
    if oldTags != target then Record(history, oldTags) else history
  }

  /** One call: the tags shown when it is made and the tags about to be shown. */
  datatype Call = Call(oldTags: Mask, target: Mask)

  function RunCalls(calls: seq<Call>): seq<Mask> {
    if calls == [] then []
    else
      var n := |calls| - 1;
      Update(RunCalls(calls[..n]), calls[n].oldTags, calls[n].target)
  }

  /** Every tagset left so far, oldest first, without any bound. */
  function Left(calls: seq<Call>): seq<Mask> {
    if calls == [] then []
    else
      var n := |calls| - 1;
      Left(calls[..n]) + if calls[n].oldTags != calls[n].target then [calls[n].oldTags] else []
  }

  /** Keep only the latest occurrence of each mask. */
  function Latest(xs: seq<Mask>): (r: seq<Mask>)
    ensures NoDup(r) && forall m :: m in r <==> m in xs
    decreases |xs|
  {
    if xs == [] then []
    else
      var n := |xs| - 1;
      assert xs == xs[..n] + [xs[n]];
      WithoutNoDup(Latest(xs[..n]), xs[n]);
      Without(Latest(xs[..n]), xs[n]) + [xs[n]]
  }

  function LastOf(xs: seq<Mask>, k: nat): seq<Mask> {
    if |xs| <= k then xs else xs[|xs| - k..]
  }

  lemma LastOfConcat(xs: seq<Mask>, ys: seq<Mask>)
    ensures LastOf(xs + ys, |ys|) == ys
    ensures ys != [] ==> LastOf(xs + ys, |ys| - 1) == ys[1..]
  {
  }

  lemma DisjointParts(xs: seq<Mask>, k: nat, m: Mask)
    requires NoDup(xs) && k <= |xs| && m in xs[k..]
    ensures m !in xs[..k]
  {
    var j: nat :| j < |xs[k..]| && xs[k..][j] == m;
    assert xs[k + j] == m;
  }

  /** Recording into the truncated list is truncating after recording into the full one. */
  lemma RecordLast(full: seq<Mask>, m: Mask)
    requires NoDup(full)
    ensures Record(LastOf(full, LIMIT), m) == LastOf(Without(full, m) + [m], LIMIT)
  {
    hide Without;
    if |full| > LIMIT {
      var k := |full| - LIMIT;
      var past, recent := full[..k], full[k..];
      assert full == past + recent;
      WithoutConcat(past, recent, m);
      WithoutNoDup(recent, m);
      if m in recent {
        DisjointParts(full, k, m);
      }
      JoinLast(Without(past, m), Without(recent, m), m);
    }
  }

  lemma JoinLast(a: seq<Mask>, b: seq<Mask>, m: Mask)
    requires LIMIT - 1 <= |b| <= LIMIT
    ensures var unique := b + [m];
            LastOf(a + b + [m], LIMIT) == if |unique| > LIMIT then unique[1..] else unique
  {
    assert a + b + [m] == a + (b + [m]);
    LastOfConcat(a, b + [m]);
  }

  /**
   After any sequence of calls the bounded history is the last `LIMIT` entries of the unbounded one
   with only the latest occurrence of each mask kept.
   */
  lemma {:induction false} HistoryRefines(calls: seq<Call>)
    ensures RunCalls(calls) == LastOf(Latest(Left(calls)), LIMIT)
  {
    if calls != [] {
      var n := |calls| - 1;
      HistoryRefines(calls[..n]);
      var c := calls[n];
      if c.oldTags != c.target {
        var past := Left(calls[..n]);
        assert Left(calls) == past + [c.oldTags];
        assert (past + [c.oldTags])[..|past|] == past;
        RecordLast(Latest(past), c.oldTags);
      } else {
        assert Left(calls) == Left(calls[..n]);
      }
    }
  }

  /** Consequently it never holds more than `LIMIT` masks, and none twice. */
  lemma HistoryBounded(calls: seq<Call>)
    ensures |RunCalls(calls)| <= LIMIT && NoDup(RunCalls(calls))
  {
    HistoryRefines(calls);
  }
}
