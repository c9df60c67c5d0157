/** Screen captures waiting for the next rendering of their output, and the copy into a client's buffer. */
module Screencopy {
  import opened Sequences

  type FrameId = nat
  type OutputId = nat
  type Byte = b: int | 0 <= b < 256

  datatype PendingFrame = PendingFrame(frame: FrameId, output: OutputId)

  /** What a client hears about a frame object. */
  datatype Reply = Ready(frame: FrameId) | Failed(frame: FrameId) | AlreadyUsed(frame: FrameId)

  /** The last element takes the place of the removed one. */
  function SwapRemove<T>(xs: seq<T>, i: nat): (r: seq<T>)
    requires i < |xs|
    ensures |r| == |xs| - 1
  {
    if i == |xs| - 1 then xs[..i] else xs[i := xs[|xs| - 1]][..|xs| - 1]
  }

  lemma SwapParts<T>(a: seq<T>, x: T, b: seq<T>, last: T)
    ensures multiset(a + [last] + b) + multiset{x} == multiset(a + [x] + b + [last])
  {
  }

  lemma WholeParts<T>(xs: seq<T>, i: nat)
    requires i + 1 < |xs|
    ensures xs == xs[..i] + [xs[i]] + xs[i + 1..|xs| - 1] + [xs[|xs| - 1]]
  {
  }

  lemma SwapRemoveParts<T>(xs: seq<T>, i: nat)
    requires i + 1 < |xs|
    ensures SwapRemove(xs, i) == xs[..i] + [xs[|xs| - 1]] + xs[i + 1..|xs| - 1]
  {
  }

  lemma SwapRemoveMultiset<T>(xs: seq<T>, i: nat)
    requires i < |xs|
    ensures multiset(SwapRemove(xs, i)) + multiset{xs[i]} == multiset(xs)
  {
    var n := |xs| - 1;
    if i == n {
      assert xs == xs[..n] + [xs[n]];
    } else {
      hide SwapRemove;
      WholeParts(xs, i);
      SwapRemoveParts(xs, i);
      SwapParts(xs[..i], xs[i], xs[i + 1..n], xs[n]);
    }
  }

  function On(pending: seq<PendingFrame>, output: OutputId): (r: seq<PendingFrame>)
    ensures forall pf :: pf in r ==> pf.output == output
  {
    if pending == [] then []
    else
      var n := |pending| - 1;
      if pending[n].output == output then On(pending[..n], output) + [pending[n]] else On(pending[..n], output)
  }

  function Off(pending: seq<PendingFrame>, output: OutputId): (r: seq<PendingFrame>)
    ensures forall pf :: pf in r ==> pf.output != output
  {
    if pending == [] then []
    else
      var n := |pending| - 1;
      if pending[n].output == output then Off(pending[..n], output) else Off(pending[..n], output) + [pending[n]]
  }

  lemma {:induction false} OnAndOff(pending: seq<PendingFrame>, output: OutputId)
    ensures multiset(On(pending, output)) + multiset(Off(pending, output)) == multiset(pending)
  {
    if pending != [] {
      var n := |pending| - 1;
      OnAndOff(pending[..n], output);
      assert pending == pending[..n] + [pending[n]];
    }
  }

  /** Splitting a list by output, in whatever order, is unique up to order. */
  lemma SplitUnique(a: multiset<PendingFrame>, b: multiset<PendingFrame>, c: multiset<PendingFrame>, d: multiset<PendingFrame>, output: OutputId)
    requires a + b == c + d
    requires (forall pf :: pf in a ==> pf.output == output) && (forall pf :: pf in c ==> pf.output == output)
    requires (forall pf :: pf in b ==> pf.output != output) && (forall pf :: pf in d ==> pf.output != output)
    ensures a == c && b == d
  {
    forall pf: PendingFrame
      ensures a[pf] == c[pf] && b[pf] == d[pf]
    {
      assert (a + b)[pf] == (c + d)[pf];
      if pf.output == output {
        assert pf !in b && pf !in d;
      } else {
        assert pf !in a && pf !in c;
      }
    }
  }

  /**
   Take the frames of one output out of the queue: each of them exactly once, in some order, leaving
   exactly the others.  The index does not advance over a removal, yet the loop ends.
   */
  method Drain(pending: seq<PendingFrame>, output: OutputId) returns (rest: seq<PendingFrame>, handed: seq<PendingFrame>)
    ensures multiset(handed) == multiset(On(pending, output))
    ensures multiset(rest) == multiset(Off(pending, output))
    ensures Waiting(handed) + Waiting(rest) == Waiting(pending)
  {
    hide SwapRemove, On, Off, Waiting;
    assert Waiting([]) == multiset{} by { WaitingNone(); }
    rest, handed := pending, [];
    var i := 0;
    while i < |rest|
      invariant i <= |rest|
      invariant multiset(handed) + multiset(rest) == multiset(pending)
      invariant Waiting(handed) + Waiting(rest) == Waiting(pending)
      invariant forall pf :: pf in handed ==> pf.output == output
      invariant forall k :: 0 <= k < i ==> rest[k].output != output
      decreases |rest| - i
    {
      if rest[i].output != output {
        i := i + 1;
      } else {
        SwapRemoveMultiset(rest, i);
        SwapRemovePrefix(rest, i);
        WaitingSwapRemove(rest, i);
        WaitingSnoc(handed, rest[i]);
        handed := handed + [rest[i]];
        rest := SwapRemove(rest, i);
      }
    }
    OnAndOff(pending, output);
    SplitUnique(multiset(handed), multiset(rest), multiset(On(pending, output)), multiset(Off(pending, output)), output);
  }

  lemma SwapRemovePrefix<T>(xs: seq<T>, i: nat)
    requires i < |xs|
    ensures |SwapRemove(xs, i)| >= i
    ensures forall k :: 0 <= k < i ==> SwapRemove(xs, i)[k] == xs[k]
  {
  }

  // The frame objects.

  /** The frame objects a list of pending captures stands for. */
  function Waiting(pending: seq<PendingFrame>): multiset<FrameId> {
    if pending == [] then multiset{} else Waiting(pending[..|pending| - 1]) + multiset{pending[|pending| - 1].frame}
  }

  lemma WaitingNone()
    ensures Waiting([]) == multiset{}
  {
  }

  lemma WaitingSnoc(pending: seq<PendingFrame>, pf: PendingFrame)
    ensures Waiting(pending + [pf]) == Waiting(pending) + multiset{pf.frame}
  {
    assert (pending + [pf])[..|pending|] == pending;
  }

  lemma {:induction false} WaitingConcat(a: seq<PendingFrame>, b: seq<PendingFrame>)
    ensures Waiting(a + b) == Waiting(a) + Waiting(b)
    decreases |b|
  {
    hide Waiting;
    if b == [] {
      assert a + b == a;
      WaitingNone();
    } else {
      var n := |b| - 1;
      var init := b[..n];
      assert b == init + [b[n]];
      WaitingConcat(a, init);
      WaitingSnoc(init, b[n]);
      WaitingSnoc(a + init, b[n]);
      ConcatAssociative(a, init, [b[n]]);
    }
  }

  lemma WaitingSwapParts(a: seq<PendingFrame>, x: PendingFrame, b: seq<PendingFrame>, last: PendingFrame)
    ensures Waiting(a + [last] + b) + multiset{x.frame} == Waiting(a + [x] + b + [last])
  {
    hide Waiting;
    WaitingSnoc(a + [x] + b, last);
    WaitingConcat(a + [x], b);
    WaitingSnoc(a, x);
    WaitingConcat(a + [last], b);
    WaitingSnoc(a, last);
  }

  lemma WaitingSwapRemove(xs: seq<PendingFrame>, i: nat)
    requires i < |xs|
    ensures Waiting(SwapRemove(xs, i)) + multiset{xs[i].frame} == Waiting(xs)
  {
    hide Waiting;
    var n := |xs| - 1;
    if i == n {
      WaitingSnoc(xs[..n], xs[n]);
      assert xs == xs[..n] + [xs[n]];
    } else {
      hide SwapRemove;
      WholeParts(xs, i);
      SwapRemoveParts(xs, i);
      WaitingSwapParts(xs[..i], xs[i], xs[i + 1..n], xs[n]);
    }
  }

  /** The frame objects whose client was told the outcome, with multiplicity. */
  ghost function Answers(replies: seq<Reply>): multiset<FrameId> {
    if replies == [] then multiset{}
    else
      var r := replies[|replies| - 1];
      Answers(replies[..|replies| - 1]) + if r.AlreadyUsed? then multiset{} else multiset{r.frame}
  }

  lemma AnswersSnoc(replies: seq<Reply>, r: Reply)
    ensures Answers(replies + [r]) == Answers(replies) + if r.AlreadyUsed? then multiset{} else multiset{r.frame}
  {
    assert (replies + [r])[..|replies|] == replies;
  }

  lemma {:induction false} AnswersConcat(a: seq<Reply>, b: seq<Reply>)
    ensures Answers(a + b) == Answers(a) + Answers(b)
    decreases |b|
  {
    if b == [] {
      assert a + b == a;
    } else {
      hide Answers;
      var n := |b| - 1;
      var init := b[..n];
      assert b == init + [b[n]];
      AnswersConcat(a, init);
      AnswersSnoc(init, b[n]);
      AnswersSnoc(a + init, b[n]);
      ConcatAssociative(a, init, [b[n]]);
    }
  }

  /** What the clients of handed frames hear: nothing once the object is gone, otherwise the outcome. */
  ghost function Outcomes(handed: seq<PendingFrame>, alive: set<FrameId>, good: set<FrameId>): seq<Reply> {
    if handed == [] then []
    else
      var n := |handed| - 1;
      var f := handed[n].frame;
      if f !in alive then Outcomes(handed[..n], alive, good)
      else Outcomes(handed[..n], alive, good) + [if f in good then Ready(f) else Failed(f)]
  }

  ghost function Gone(handed: seq<PendingFrame>, alive: set<FrameId>): set<FrameId> {
    set pf | pf in handed && pf.frame !in alive :: pf.frame
  }

  lemma {:induction false} OutcomesTold(handed: seq<PendingFrame>, alive: set<FrameId>, good: set<FrameId>, f: FrameId)
    ensures Answers(Outcomes(handed, alive, good))[f] == if f in alive then Waiting(handed)[f] else 0
  {
    hide Waiting, Answers;
    if handed == [] {
      WaitingNone();
      NoAnswers();
    } else {
      var n := |handed| - 1;
      var init, g := handed[..n], handed[n].frame;
      OutcomesTold(init, alive, good, f);
      assert handed == init + [handed[n]];
      WaitingSnoc(init, handed[n]);
      if g in alive {
        AnswersSnoc(Outcomes(init, alive, good), if g in good then Ready(g) else Failed(g));
      }
    }
  }

  lemma NoAnswers()
    ensures Answers([]) == multiset{}
  {
  }

  lemma {:induction false} WaitingIff(pending: seq<PendingFrame>, f: FrameId)
    ensures Waiting(pending)[f] > 0 <==> exists pf :: pf in pending && pf.frame == f
  {
    hide Waiting;
    if pending == [] {
      WaitingNone();
    } else {
      var n := |pending| - 1;
      WaitingIff(pending[..n], f);
      assert pending == pending[..n] + [pending[n]];
      WaitingSnoc(pending[..n], pending[n]);
    }
  }

  /** Every handed frame is answered once, or gone. */
  lemma OutcomesAccount(handed: seq<PendingFrame>, alive: set<FrameId>, good: set<FrameId>, f: FrameId)
    ensures Answers(Outcomes(handed, alive, good))[f] == if f in alive then Waiting(handed)[f] else 0
    ensures f in Gone(handed, alive) <==> f !in alive && Waiting(handed)[f] > 0
  {
    hide Waiting, Answers, Outcomes;
    OutcomesTold(handed, alive, good, f);
    WaitingIff(handed, f);
  }

  /** How many outcomes a frame object is in for: one if it was created without a capture, one if it was used. */
  function Dues(captures: map<FrameId, Option<OutputId>>, used: set<FrameId>, f: FrameId): nat {
    (if f in captures && captures[f].None? then 1 else 0) + (if f in used then 1 else 0)
  }

  /** The books of the frame objects: every outcome is still waited for, was told, or was dropped with its object. */
  ghost predicate Accounted(captures: map<FrameId, Option<OutputId>>, used: set<FrameId>, pending: seq<PendingFrame>,
                            replies: seq<Reply>, dropped: set<FrameId>) {
    forall f: FrameId ::
      Waiting(pending)[f] + Answers(replies)[f] + (if f in dropped then 1 else 0) == Dues(captures, used, f)
  }

  /** Only frames that were created with a capture and used ever wait. */
  ghost predicate Captured(captures: map<FrameId, Option<OutputId>>, used: set<FrameId>, pending: seq<PendingFrame>,
                           dropped: set<FrameId>) {
    && used <= captures.Keys
    && (forall f :: Waiting(pending)[f] > 0 || f in dropped ==> f in captures && captures[f].Some?)
  }

  /**
   A used frame hears of its outcome at most once if and only if it was created with a capture; without one
   it was told at its creation, and is told again by the copy.
   */
  lemma AnsweredOnceIff(captures: map<FrameId, Option<OutputId>>, used: set<FrameId>, pending: seq<PendingFrame>,
                        replies: seq<Reply>, dropped: set<FrameId>, f: FrameId)
    requires Accounted(captures, used, pending, replies, dropped) && Captured(captures, used, pending, dropped)
    requires f in used
    ensures Answers(replies)[f] <= 1 <==> captures[f].Some?
    ensures captures[f].None? ==> Answers(replies)[f] == 2 && Waiting(pending)[f] == 0
  {
    hide Answers, Waiting;
    assert Waiting(pending)[f] + Answers(replies)[f] + (if f in dropped then 1 else 0) == Dues(captures, used, f);
  }

  /** One more outcome told to `f` settles one more due. */
  lemma ToldOne(c: map<FrameId, Option<OutputId>>, u: set<FrameId>, d: map<FrameId, Option<OutputId>>, v: set<FrameId>,
                pending: seq<PendingFrame>, replies: seq<Reply>, dropped: set<FrameId>, f: FrameId)
    requires Accounted(c, u, pending, replies, dropped)
    requires forall g :: Dues(d, v, g) == Dues(c, u, g) + if g == f then 1 else 0
    ensures Accounted(d, v, pending, replies + [Failed(f)], dropped)
  {
    hide Answers, Waiting, Dues;
    AnswersSnoc(replies, Failed(f));
    forall g: FrameId
      ensures Waiting(pending)[g] + Answers(replies + [Failed(f)])[g] + (if g in dropped then 1 else 0) == Dues(d, v, g)
    {
      assert Waiting(pending)[g] + Answers(replies)[g] + (if g in dropped then 1 else 0) == Dues(c, u, g);
    }
  }

  /** So does one more frame waiting. */
  lemma WaitsOne(captures: map<FrameId, Option<OutputId>>, u: set<FrameId>, v: set<FrameId>,
                 pending: seq<PendingFrame>, pf: PendingFrame, replies: seq<Reply>, dropped: set<FrameId>)
    requires Accounted(captures, u, pending, replies, dropped)
    requires forall g :: Dues(captures, v, g) == Dues(captures, u, g) + if g == pf.frame then 1 else 0
    ensures Accounted(captures, v, pending + [pf], replies, dropped)
  {
    hide Answers, Waiting, Dues;
    WaitingSnoc(pending, pf);
    forall g: FrameId
      ensures Waiting(pending + [pf])[g] + Answers(replies)[g] + (if g in dropped then 1 else 0) == Dues(captures, v, g)
    {
      assert Waiting(pending)[g] + Answers(replies)[g] + (if g in dropped then 1 else 0) == Dues(captures, u, g);
    }
  }

  /** Handing over part of the queue settles the books of exactly that part. */
  lemma HandedOver(captures: map<FrameId, Option<OutputId>>, used: set<FrameId>, pending: seq<PendingFrame>, replies: seq<Reply>,
                   dropped: set<FrameId>, handed: seq<PendingFrame>, rest: seq<PendingFrame>, alive: set<FrameId>, good: set<FrameId>)
    requires Accounted(captures, used, pending, replies, dropped) && Captured(captures, used, pending, dropped)
    requires Waiting(handed) + Waiting(rest) == Waiting(pending)
    ensures Accounted(captures, used, rest, replies + Outcomes(handed, alive, good), dropped + Gone(handed, alive))
    ensures Captured(captures, used, rest, dropped + Gone(handed, alive))
  {
    hide Answers, Waiting, Outcomes, Gone, Captured;
    var told := Outcomes(handed, alive, good);
    AnswersConcat(replies, told);
    forall f: FrameId
      ensures Waiting(rest)[f] + Answers(replies + told)[f] + (if f in dropped + Gone(handed, alive) then 1 else 0)
              == Dues(captures, used, f)
      ensures Waiting(rest)[f] > 0 || f in Gone(handed, alive) ==> Waiting(pending)[f] > 0
    {
      OutcomesAccount(handed, alive, good, f);
      assert (Waiting(handed) + Waiting(rest))[f] == Waiting(pending)[f];
      assert (Answers(replies) + Answers(told))[f] == Answers(replies + told)[f];
      assert Waiting(pending)[f] + Answers(replies)[f] + (if f in dropped then 1 else 0) == Dues(captures, used, f);
      AtMostOnePending(captures, used, pending, replies, dropped, f);
    }
    StillCaptured(captures, used, pending, dropped, rest, dropped + Gone(handed, alive));
  }

  /** A waiting frame waits once, has not been told and was not dropped. */
  lemma AtMostOnePending(captures: map<FrameId, Option<OutputId>>, used: set<FrameId>, pending: seq<PendingFrame>,
                         replies: seq<Reply>, dropped: set<FrameId>, f: FrameId)
    requires Accounted(captures, used, pending, replies, dropped) && Captured(captures, used, pending, dropped)
    ensures Waiting(pending)[f] > 0 ==> Waiting(pending)[f] == 1 && Answers(replies)[f] == 0 && f !in dropped
  {
    hide Answers, Waiting;
    assert Waiting(pending)[f] + Answers(replies)[f] + (if f in dropped then 1 else 0) == Dues(captures, used, f);
  }

  lemma StillCaptured(captures: map<FrameId, Option<OutputId>>, used: set<FrameId>, pending: seq<PendingFrame>, dropped: set<FrameId>,
                      rest: seq<PendingFrame>, gone: set<FrameId>)
    requires Captured(captures, used, pending, dropped)
    requires forall f :: Waiting(rest)[f] > 0 || f in gone ==> Waiting(pending)[f] > 0 || f in dropped
    ensures Captured(captures, used, rest, gone)
  {
    hide Waiting;
  }

  class Captures {
    /** The frame objects created, each with the output it captures, if that could be resolved. */
    var captures: map<FrameId, Option<OutputId>>
    /** Frame objects on which a copy was requested. */
    var used: set<FrameId>
    var pending: seq<PendingFrame>
    /** Everything sent to clients about outcomes, in order. */
    ghost var replies: seq<Reply>
    /** Frame objects that went away while waiting. */
    ghost var dropped: set<FrameId>

    ghost predicate Valid()
      reads this
    {
      Accounted(captures, used, pending, replies, dropped) && Captured(captures, used, pending, dropped)
    }

    constructor ()
      ensures Valid() && captures == map[] && pending == [] && used == {} && replies == [] && dropped == {}
    {
      captures, used, pending, replies, dropped := map[], {}, [], [], {};
    }

    static lemma SameDues(c: map<FrameId, Option<OutputId>>, d: map<FrameId, Option<OutputId>>, used: set<FrameId>,
                          pending: seq<PendingFrame>, replies: seq<Reply>, dropped: set<FrameId>)
      requires Accounted(c, used, pending, replies, dropped)
      ensures (forall g :: Dues(d, used, g) == Dues(c, used, g)) ==> Accounted(d, used, pending, replies, dropped)
    {
    }

    /** A capture request creates a frame object; one whose output has no mode, or is gone, fails at once. */
    method Capture(frame: FrameId, output: Option<OutputId>)
      requires Valid() && frame !in captures
      modifies this
      ensures Valid()
      ensures captures == old(captures)[frame := output]
      ensures used == old(used) && pending == old(pending) && dropped == old(dropped)
      ensures replies == if output.None? then old(replies) + [Failed(frame)] else old(replies)
    {
      hide Answers, Waiting, Accounted;
      ghost var before := captures;
      captures := captures[frame := output];
      assert output.Some? ==> Accounted(captures, used, pending, replies, dropped) by {
        SameDues(before, captures, used, pending, replies, dropped);
      }
      if output.None? {
        ToldOne(before, used, captures, used, pending, replies, dropped, frame);
        replies := replies + [Failed(frame)];
      }
    }

    static lemma SaidAgain(captures: map<FrameId, Option<OutputId>>, used: set<FrameId>, pending: seq<PendingFrame>,
                           replies: seq<Reply>, dropped: set<FrameId>, f: FrameId)
      requires Accounted(captures, used, pending, replies, dropped)
      ensures Accounted(captures, used, pending, replies + [AlreadyUsed(f)], dropped)
    {
      hide Answers, Waiting;
      AnswersSnoc(replies, AlreadyUsed(f));
    }

    /** The `copy` request, on a frame object that exists. */
    method Copy(frame: FrameId, locked: bool)
      requires Valid() && frame in captures
      modifies this
      ensures Valid() && captures == old(captures)
      ensures used == old(used) + {frame} && dropped == old(dropped)
      ensures frame in old(used) ==> pending == old(pending) && replies == old(replies) + [AlreadyUsed(frame)]
      ensures frame !in old(used) && (captures[frame].None? || locked) ==>
        pending == old(pending) && replies == old(replies) + [Failed(frame)]
      ensures frame !in old(used) && captures[frame].Some? && !locked ==>
        pending == old(pending) + [PendingFrame(frame, captures[frame].value)] && replies == old(replies)
    {
      hide Answers, Waiting, Accounted;
      if frame in used {
        assert used + {frame} == used;
        SaidAgain(captures, used, pending, replies, dropped, frame);
        replies := replies + [AlreadyUsed(frame)];
        return;
      }
      ghost var before := used;
      used := used + {frame};
      var capture := captures[frame];
      if capture.None? || locked {
        ToldOne(captures, before, captures, used, pending, replies, dropped, frame);
        replies := replies + [Failed(frame)];
        return;
      }
      WaitingSnoc(pending, PendingFrame(frame, capture.value));
      WaitsOne(captures, before, used, pending, PendingFrame(frame, capture.value), replies, dropped);
      pending := pending + [PendingFrame(frame, capture.value)];
    }

    /**
     After rendering `output`: every frame waiting for it is answered, or dropped if its object is gone,
     and every other frame goes on waiting.  `good` are the frames whose pixels can be read and written;
     with none of them this is the path that fails all frames of the output.
     */
    method Submit(output: OutputId, alive: set<FrameId>, good: set<FrameId>) returns (ghost handed: seq<PendingFrame>)
      requires Valid()
      modifies this
      ensures Valid() && used == old(used) && captures == old(captures)
      ensures multiset(handed) == multiset(On(old(pending), output))
      ensures multiset(pending) == multiset(Off(old(pending), output))
      ensures replies == old(replies) + Outcomes(handed, alive, good)
      ensures dropped == old(dropped) + Gone(handed, alive)
    {
      hide Accounted, Captured, Answers, Waiting, Outcomes, Gone, On, Off;
      var rest, list := Drain(pending, output);
      handed := list;
      HandedOver(captures, used, pending, replies, dropped, list, rest, alive, good);
      pending := rest;
      replies := replies + Outcomes(list, alive, good);
      dropped := dropped + Gone(list, alive);
    }

    /** The frame object was destroyed by its client. */
    method Destroyed(frame: FrameId)
      requires Valid()
      modifies this
      ensures Valid() && used == old(used) && replies == old(replies) && captures == old(captures)
      ensures pending == WithoutFrame(old(pending), frame)
      ensures dropped == if Waiting(old(pending))[frame] > 0 then old(dropped) + {frame} else old(dropped)
    {
      hide Answers;
      forall f: FrameId
        ensures Waiting(WithoutFrame(pending, frame))[f] == if f == frame then 0 else Waiting(pending)[f]
      {
        WaitingWithout(pending, frame, f);
      }
      hide Waiting;
      dropped := if Waiting(pending)[frame] > 0 then dropped + {frame} else dropped;
      pending := WithoutFrame(pending, frame);
    }
  }

  function WithoutFrame(pending: seq<PendingFrame>, frame: FrameId): seq<PendingFrame> {
    if pending == [] then []
    else
      var n := |pending| - 1;
      if pending[n].frame == frame then WithoutFrame(pending[..n], frame) else WithoutFrame(pending[..n], frame) + [pending[n]]
  }

  lemma {:induction false} WaitingWithout(pending: seq<PendingFrame>, frame: FrameId, f: FrameId)
    ensures Waiting(WithoutFrame(pending, frame))[f] == if f == frame then 0 else Waiting(pending)[f]
  {
    if pending != [] {
      var n := |pending| - 1;
      WaitingWithout(pending[..n], frame, f);
      if pending[n].frame != frame {
        WaitingSnoc(WithoutFrame(pending[..n], frame), pending[n]);
      }
    }
  }

  // Copying the pixels.

  function Min(a: int, b: int): int {
    if a < b then a else b
  }

  function SatSub(a: nat, b: nat): nat {
    if a >= b then a - b else 0
  }

  /** How much of one row both buffers have room for. */
  function RowLen(dataLen: nat, pixelsLen: nat, srcStart: nat, dstStart: nat, srcStride: nat): nat {
    Min(srcStride, Min(SatSub(pixelsLen, srcStart), SatSub(dataLen, dstStart)))
  }

  /** The client's buffer after one row has been copied into it. */
  function WithRow(data: seq<Byte>, pixels: seq<Byte>, offset: nat, srcStride: nat, dstStride: nat, row: nat): (r: seq<Byte>)
    ensures |r| == |data|
  {
    var s, t := row * srcStride, offset + row * dstStride;
    var len := RowLen(|data|, |pixels|, s, t, srcStride);
    if len > 0 then data[..t] + pixels[s..s + len] + data[t + len..] else data
  }

  function WithRows(data: seq<Byte>, pixels: seq<Byte>, offset: nat, srcStride: nat, dstStride: nat, rows: nat): (r: seq<Byte>)
    ensures |r| == |data|
  {
    if rows == 0 then data
    else WithRow(WithRows(data, pixels, offset, srcStride, dstStride, rows - 1), pixels, offset, srcStride, dstStride, rows - 1)
  }

  /** The copy into the buffer in place; every index is in range whatever strides the client chose. */
  method CopyRows(data: array<Byte>, pixels: seq<Byte>, offset: nat, srcStride: nat, dstStride: nat, rows: nat)
    modifies data
    ensures data[..] == WithRows(old(data[..]), pixels, offset, srcStride, dstStride, rows)
  {
    hide WithRows;
    ghost var was := data[..];
    assert WithRows(was, pixels, offset, srcStride, dstStride, 0) == was by { NoRows(was, pixels, offset, srcStride, dstStride); }
    for row := 0 to rows
      invariant data[..] == WithRows(was, pixels, offset, srcStride, dstStride, row)
    {
      CopyRow(data, pixels, offset, srcStride, dstStride, row);
      NextRow(was, pixels, offset, srcStride, dstStride, row);
    }
  }

  method CopyRow(data: array<Byte>, pixels: seq<Byte>, offset: nat, srcStride: nat, dstStride: nat, row: nat)
    modifies data
    ensures data[..] == WithRow(old(data[..]), pixels, offset, srcStride, dstStride, row)
  {
    var srcStart, dstStart := row * srcStride, offset + row * dstStride;
    var copyLen := RowLen(data.Length, |pixels|, srcStart, dstStart, srcStride);
    if copyLen > 0 {
      forall k | 0 <= k < copyLen {
        data[dstStart + k] := pixels[srcStart + k];
      }
    }
  }

  lemma NoRows(data: seq<Byte>, pixels: seq<Byte>, offset: nat, srcStride: nat, dstStride: nat)
    ensures WithRows(data, pixels, offset, srcStride, dstStride, 0) == data
  {
  }

  lemma NextRow(data: seq<Byte>, pixels: seq<Byte>, offset: nat, srcStride: nat, dstStride: nat, row: nat)
    ensures WithRows(data, pixels, offset, srcStride, dstStride, row + 1)
            == WithRow(WithRows(data, pixels, offset, srcStride, dstStride, row), pixels, offset, srcStride, dstStride, row)
  {
  }

  /** Byte `b` of the buffer belongs to row `row`. */
  predicate InRow(b: nat, offset: nat, srcStride: nat, dstStride: nat, row: nat) {
    offset + row * dstStride <= b < offset + row * dstStride + srcStride
  }

  /** Rows do not overlap, and source and destination have room for all of them. */
  predicate Roomy(dataLen: nat, pixelsLen: nat, offset: nat, srcStride: nat, dstStride: nat, rows: nat) {
    && srcStride <= dstStride && rows * srcStride <= pixelsLen
    && (rows > 0 ==> offset + (rows - 1) * dstStride + srcStride <= dataLen)
  }

  lemma RoomyBefore(dataLen: nat, pixelsLen: nat, offset: nat, srcStride: nat, dstStride: nat, rows: nat)
    requires rows > 0 && Roomy(dataLen, pixelsLen, offset, srcStride, dstStride, rows)
    ensures Roomy(dataLen, pixelsLen, offset, srcStride, dstStride, rows - 1)
    ensures RowLen(dataLen, pixelsLen, (rows - 1) * srcStride, offset + (rows - 1) * dstStride, srcStride) == srcStride
  {
    assert rows * srcStride == (rows - 1) * srcStride + srcStride;
    if rows > 1 {
      assert (rows - 1) * dstStride == (rows - 2) * dstStride + dstStride;
    }
  }

  lemma RowsApart(offset: nat, srcStride: nat, dstStride: nat, r: nat, q: nat, b: nat)
    requires srcStride <= dstStride && r < q && InRow(b, offset, srcStride, dstStride, r)
    ensures !InRow(b, offset, srcStride, dstStride, q)
  {
    var gap: nat := q - r - 1;
    assert q * dstStride == r * dstStride + dstStride + gap * dstStride;
  }

  /** With enough stride and space, every row arrives exactly and no other byte changes. */
  lemma {:induction false} RowsExact(data: seq<Byte>, pixels: seq<Byte>, offset: nat, srcStride: nat, dstStride: nat, rows: nat, b: nat)
    requires Roomy(|data|, |pixels|, offset, srcStride, dstStride, rows) && b < |data|
    ensures forall row: nat :: row < rows && InRow(b, offset, srcStride, dstStride, row) ==>
              var j := b - (offset + row * dstStride);
              && 0 <= row * srcStride + j < |pixels|
              && WithRows(data, pixels, offset, srcStride, dstStride, rows)[b] == pixels[row * srcStride + j]
    ensures (forall row: nat :: row < rows ==> !InRow(b, offset, srcStride, dstStride, row)) ==>
              WithRows(data, pixels, offset, srcStride, dstStride, rows)[b] == data[b]
  {
    hide WithRow;
    if rows > 0 {
      var last := rows - 1;
      RoomyBefore(|data|, |pixels|, offset, srcStride, dstStride, rows);
      RowsExact(data, pixels, offset, srcStride, dstStride, last, b);
      var before := WithRows(data, pixels, offset, srcStride, dstStride, last);
      WithRowAt(before, pixels, offset, srcStride, dstStride, last, b);
      forall row: nat | row < last && InRow(b, offset, srcStride, dstStride, row)
        ensures !InRow(b, offset, srcStride, dstStride, last)
      {
        RowsApart(offset, srcStride, dstStride, row, last, b);
      }
    }
  }

  lemma WithRowAt(data: seq<Byte>, pixels: seq<Byte>, offset: nat, srcStride: nat, dstStride: nat, row: nat, b: nat)
    requires RowLen(|data|, |pixels|, row * srcStride, offset + row * dstStride, srcStride) == srcStride && b < |data|
    ensures var r := WithRow(data, pixels, offset, srcStride, dstStride, row);
            if InRow(b, offset, srcStride, dstStride, row) then
              var j := b - (offset + row * dstStride);
              row * srcStride + j < |pixels| && r[b] == pixels[row * srcStride + j]
            else r[b] == data[b]
  {
  }
}
