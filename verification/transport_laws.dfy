/**
  What becomes of the audio handed to the paced transport: exactly when a block is lost, what a whole
  Send leaves behind, and that the pacer delivers the queue in order.
 */
module TransportLaws {
  import opened Wrappers
  import opened Sequences
  import opened Pcm
  import opened PacedTransport

  // ----- runs in pieces

  lemma {:induction false} RunSplit(enc: Encoder, s: State, a: seq<Action>, b: seq<Action>)
    requires RunFrom(enc, s, a + b).Some?
    ensures RunFrom(enc, s, a).Some? && RunFrom(enc, s, a + b) == RunFrom(enc, RunFrom(enc, s, a).value, b)
    decreases |a|
  {
    if a == [] {
      assert a + b == b;
    } else {
      assert (a + b)[1..] == a[1..] + b && (a + b)[0] == a[0];
      RunSplit(enc, Next(enc, s, a[0]), a[1..], b);
    }
  }

  lemma {:induction false} RunOne(enc: Encoder, s: State, a: Action)
    requires RunFrom(enc, s, [a]).Some?
    ensures Enabled(s, a) && RunFrom(enc, s, [a]) == Some(Next(enc, s, a))
  {
    assert [a][1..] == [];
  }

  /** The state before and after the k-th action of a run. */
  lemma {:induction false} RunAround(enc: Encoder, acts: seq<Action>, k: nat)
    requires k < |acts| && RunFrom(enc, INITIAL, acts).Some?
    ensures RunFrom(enc, INITIAL, acts[..k]).Some? && Enabled(RunFrom(enc, INITIAL, acts[..k]).value, acts[k])
    ensures var t := Next(enc, RunFrom(enc, INITIAL, acts[..k]).value, acts[k]);
      RunFrom(enc, INITIAL, acts[..k + 1]) == Some(t) && RunFrom(enc, INITIAL, acts) == RunFrom(enc, t, acts[k + 1..])
  {
    assert acts[..k + 1] == acts[..k] + [acts[k]] && acts == acts[..k + 1] + acts[k + 1..];
    RunSplit(enc, INITIAL, acts[..k + 1], acts[k + 1..]);
    RunSplit(enc, INITIAL, acts[..k], [acts[k]]);
    RunOne(enc, RunFrom(enc, INITIAL, acts[..k]).value, acts[k]);
  }

  // ----- what a run takes in

  /** The samples of the frames sent before the transport is closed. */
  function TakenIn(acts: seq<Action>): seq<Sample> {
    if acts == [] || acts[0].Close? then []
    else (if acts[0].Accept? then Samples(acts[0].data) else []) + TakenIn(acts[1..])
  }

  lemma {:induction false} TakesStep(enc: Encoder, s: State, a: Action)
    requires Enabled(s, a)
    ensures var t := Next(enc, s, a);
      && (t.closed <==> s.closed || a == Close)
      && t.input == if s.closed || !a.Accept? then s.input else s.input + Samples(a.data)
  {
  }

  lemma {:induction false} ClosedBy(enc: Encoder, s: State, acts: seq<Action>)
    requires RunFrom(enc, s, acts).Some?
    ensures RunFrom(enc, s, acts).value.closed <==> s.closed || Close in acts
    decreases |acts|
  {
    if acts != [] {
      TakesStep(enc, s, acts[0]);
      ClosedBy(enc, Next(enc, s, acts[0]), acts[1..]);
      assert acts == [acts[0]] + acts[1..];
    }
  }

  lemma {:induction false} TakesIn(enc: Encoder, s: State, acts: seq<Action>)
    requires RunFrom(enc, s, acts).Some?
    ensures RunFrom(enc, s, acts).value.input == s.input + if s.closed then [] else TakenIn(acts)
    decreases |acts|
  {
    if acts == [] {
      assert s.input + [] == s.input;
    } else {
      var t, rest := Next(enc, s, acts[0]), TakenIn(acts[1..]);
      var first := if acts[0].Accept? then Samples(acts[0].data) else [];
      assert t.input == s.input + (if s.closed then [] else first) by { TakesStep(enc, s, acts[0]); Unit(s.input); }
      assert t.closed <==> s.closed || acts[0] == Close by { TakesStep(enc, s, acts[0]); }
      TakesIn(enc, t, acts[1..]);
      Unit(s.input);
      Assoc(s.input, first, rest);
    }
  }

  /**
    In every interleaving the transport takes in exactly the samples sent before the first Close: with
    FatesInEveryInterleaving and LostIff, every sample sent is buffered, or its block has one known fate.
   */
  lemma {:induction false} TakesInUntilClosed(enc: Encoder, acts: seq<Action>)
    requires RunFrom(enc, INITIAL, acts).Some?
    ensures var s := RunFrom(enc, INITIAL, acts).value;
      (s.closed <==> Close in acts) && s.input == TakenIn(acts)
  {
    ClosedBy(enc, INITIAL, acts);
    TakesIn(enc, INITIAL, acts);
    assert INITIAL.input + TakenIn(acts) == TakenIn(acts);
  }

  lemma {:induction false} CanTake(enc: Encoder, s: State, acts: seq<Action>, a: Action)
    requires RunFrom(enc, s, acts).Some? && Enabled(RunFrom(enc, s, acts).value, a)
    ensures RunFrom(enc, s, acts + [a]).Some?
    decreases |acts|
  {
    if acts == [] {
      assert acts + [a] == [a] && [a][1..] == [];
    } else {
      CanTake(enc, Next(enc, s, acts[0]), acts[1..], a);
      assert (acts + [a])[1..] == acts[1..] + [a] && (acts + [a])[0] == acts[0];
    }
  }

  /** Nobody waits for ever: the lock is free for a Send or a Close, or its holder can go on; the pacer always can. */
  lemma {:induction false} NeverBlocked(enc: Encoder, acts: seq<Action>, data: seq<Byte>)
    requires RunFrom(enc, INITIAL, acts).Some?
    ensures RunFrom(enc, INITIAL, acts + [Tick]).Some?
    ensures || (RunFrom(enc, INITIAL, acts + [Accept(data)]).Some? && RunFrom(enc, INITIAL, acts + [Close]).Some?)
            || RunFrom(enc, INITIAL, acts + [EncodeBlock]).Some?
            || RunFrom(enc, INITIAL, acts + [Release]).Some?
    ensures acts == [] ==> RunFrom(enc, INITIAL, acts + [Accept(data)]).Some?
  {
    var s := RunFrom(enc, INITIAL, acts).value;
    CanTake(enc, INITIAL, acts, Tick);
    if s.sending {
      CanTake(enc, INITIAL, acts, if |s.buf| >= 480 then EncodeBlock else Release);
    } else {
      CanTake(enc, INITIAL, acts, Accept(data));
      CanTake(enc, INITIAL, acts, Close);
    }
  }

  // ----- when a block is lost

  /** Blocks already handed over keep their verdict: nothing is added to or taken from the failed or dropped ones. */
  ghost predicate SameVerdicts(s: State, t: State) {
    && |s.handed| <= |t.handed|
    && forall i :: 0 <= i < |s.handed| ==> (i in t.failed <==> i in s.failed) && (i in t.dropped <==> i in s.dropped)
  }

  lemma {:induction false} VerdictStep(enc: Encoder, s: State, a: Action)
    requires Enabled(s, a)
    ensures SameVerdicts(s, Next(enc, s, a))
  {
  }

  lemma {:induction false} VerdictsStand(enc: Encoder, s: State, acts: seq<Action>)
    requires RunFrom(enc, s, acts).Some?
    ensures SameVerdicts(s, RunFrom(enc, s, acts).value)
    decreases |acts|
  {
    if acts != [] {
      VerdictStep(enc, s, acts[0]);
      VerdictsStand(enc, Next(enc, s, acts[0]), acts[1..]);
    }
  }

  /** The action that handed over block i. */
  lemma {:induction false} HandedAt(enc: Encoder, acts: seq<Action>, i: nat) returns (k: nat)
    requires RunFrom(enc, INITIAL, acts).Some? && i < |RunFrom(enc, INITIAL, acts).value.handed|
    ensures k < |acts| && acts[k].EncodeBlock?
    ensures RunFrom(enc, INITIAL, acts[..k]).Some? && |RunFrom(enc, INITIAL, acts[..k]).value.handed| == i
  {
    var n := |acts| - 1;
    assert acts == acts[..n] + [acts[n]] by {
      assert acts != [] by { assert RunFrom(enc, INITIAL, []) == Some(INITIAL); }
    }
    RunAround(enc, acts, n);
    assert acts[..n + 1] == acts;
    var before := RunFrom(enc, INITIAL, acts[..n]).value;
    if i < |before.handed| {
      k := HandedAt(enc, acts[..n], i);
      assert acts[..n][..k] == acts[..k];
    } else {
      k := n;
    }
  }

  lemma {:induction false} NotYetJudged(enc: Encoder, s: State)
    requires Inv(enc, s)
    ensures |s.handed| !in s.failed && |s.handed| !in s.dropped
  {
    var i := |s.handed|;
    UpToOnce(i, i);
    assert Fates(s)[i] == 0;
  }

  lemma {:induction false} JudgedNow(enc: Encoder, s: State)
    requires Inv(enc, s) && |s.buf| >= 480
    ensures var t, i, r := Encoded(enc, s), |s.handed|, enc(s.handed + [s.buf[..480]]);
      && t.handed == s.handed + [s.buf[..480]]
      && (i in t.failed <==> r.None?)
      && (i in t.dropped <==> r.Some? && |s.queue| == 1000)
      && (r.Some? && |s.queue| < 1000 ==> t.queue == s.queue + [Frame(i, r.value)])
  {
    NotYetJudged(enc, s);
  }

  /**
    Block i was handed over by one EncodeBlock.  It is lost exactly when the encoder refused it or when
    1000 frames were queued at that moment; otherwise it was queued, last, as the encoder's answer.
   */
  lemma {:induction false} LostIff(enc: Encoder, acts: seq<Action>, i: nat) returns (k: nat)
    requires RunFrom(enc, INITIAL, acts).Some? && i < |RunFrom(enc, INITIAL, acts).value.handed|
    ensures k < |acts| && acts[k].EncodeBlock?
    ensures RunFrom(enc, INITIAL, acts[..k]).Some? && RunFrom(enc, INITIAL, acts[..k + 1]).Some?
    ensures var s, u, t := RunFrom(enc, INITIAL, acts[..k]).value, RunFrom(enc, INITIAL, acts[..k + 1]).value,
        RunFrom(enc, INITIAL, acts).value;
      && |s.handed| == i && |s.buf| >= 480
      && var r := enc(s.handed + [s.buf[..480]]);
         && (i in t.failed <==> r.None?)
         && (i in t.dropped <==> r.Some? && |s.queue| == 1000)
         && (r.Some? && |s.queue| < 1000 ==> u.queue == s.queue + [Frame(i, r.value)])
  {
    k := HandedAt(enc, acts, i);
    RunAround(enc, acts, k);
    var s := RunFrom(enc, INITIAL, acts[..k]).value;
    assert Inv(enc, s) by { RunInv(enc, INITIAL, acts[..k]); }
    JudgedNow(enc, s);
    VerdictsStand(enc, Encoded(enc, s), acts[k + 1..]);
  }

  // ----- a whole Send

  /** How many whole blocks the buffer holds. */
  function Blocks(s: State): nat {
    |s.buf| / 480
  }

  /** What draining the buffer keeps, and that it stops at the first block the encoder refuses. */
  ghost predicate DrainedFrom(s: State, t: State) {
    && t.input == s.input && t.written == s.written && t.cleared == s.cleared && t.closed == s.closed
    && s.queue <= t.queue && s.dropped <= t.dropped && s.handed <= t.handed && !t.sending
    && t.failed == s.failed + (if t.erred then [|t.handed| - 1] else [])
    && |t.handed| - |s.handed| == (|t.queue| - |s.queue|) + (|t.dropped| - |s.dropped|) + (if t.erred then 1 else 0)
    && (!t.erred ==> |t.buf| < 480 && |t.handed| == |s.handed| + Blocks(s))
  }

  lemma {:induction false} DrainStep(enc: Encoder, s: State)
    requires s.sending && !s.erred && |s.buf| >= 480
    ensures var t := Encoded(enc, s);
      && t.input == s.input && t.written == s.written && t.cleared == s.cleared && t.closed == s.closed
      && |t.handed| == |s.handed| + 1 && s.handed <= t.handed && s.queue <= t.queue && s.dropped <= t.dropped
      && Blocks(t) == Blocks(s) - 1
      && if t.sending then
           !t.erred && t.failed == s.failed && |t.queue| + |t.dropped| == |s.queue| + |s.dropped| + 1
           && (|s.queue| < 1000 ==> t.dropped == s.dropped)
         else
           t.erred && t.failed == s.failed + [|s.handed|] && t.queue == s.queue && t.dropped == s.dropped
  {
  }

  lemma {:induction false} DrainKeeps(enc: Encoder, s: State)
    requires s.sending && !s.erred
    ensures DrainedFrom(s, Drained(enc, s))
    decreases |s.buf|
  {
    if |s.buf| >= 480 {
      var t := Encoded(enc, s);
      DrainStep(enc, s);
      if t.sending { DrainKeeps(enc, t); }
    }
  }

  lemma {:induction false} DrainDropsNothing(enc: Encoder, s: State)
    requires s.sending && !s.erred && |s.queue| + Blocks(s) <= 1000
    ensures Drained(enc, s).dropped == s.dropped
    decreases |s.buf|
  {
    if |s.buf| >= 480 {
      var t := Encoded(enc, s);
      DrainStep(enc, s);
      if t.sending { DrainDropsNothing(enc, t); }
    }
  }

  /**
    A whole Send on an open transport takes in its samples and fails exactly when the encoder refused a
    block, which is then the last one handed over; otherwise less than a block stays buffered, every
    block was queued or dropped, and none was dropped if the queue had room for all of them.
   */
  lemma {:induction false} SendOutcome(enc: Encoder, s: State, data: seq<Byte>)
    requires !s.sending && !s.closed
    ensures var t, blocks := Sent(enc, s, data), (|s.buf| + |data| / 2) / 480;
      && t.input == s.input + Samples(data) && t.written == s.written && t.cleared == s.cleared
      && s.queue <= t.queue
      && t.failed == s.failed + (if t.erred then [|t.handed| - 1] else [])
      && (!t.erred ==> |t.buf| < 480 && |t.handed| == |s.handed| + blocks)
      && (!t.erred && |s.queue| + blocks <= 1000 ==> t.dropped == s.dropped && |t.queue| == |s.queue| + blocks)
  {
    var u := Accepted(s, data);
    DrainKeeps(enc, u);
    if |s.queue| + Blocks(u) <= 1000 { DrainDropsNothing(enc, u); }
  }

  /** A Send on a closed transport does nothing. */
  lemma {:induction false} SendAfterClose(enc: Encoder, s: State, data: seq<Byte>)
    requires !s.sending
    ensures Sent(enc, s.(closed := true), data) == s.(closed := true)
  {
  }

  // ----- the pacer and Clear

  function Ticks(n: nat): seq<Action> {
    if n == 0 then [] else [Tick] + Ticks(n - 1)
  }

  /** As many ticks as frames are queued write all of them, in order. */
  lemma {:induction false} TicksDeliver(enc: Encoder, s: State)
    ensures RunFrom(enc, s, Ticks(|s.queue|)) == Some(s.(queue := [], written := s.written + s.queue))
    decreases |s.queue|
  {
    if s.queue == [] {
      assert s.written + [] == s.written;
    } else {
      var t := Next(enc, s, Tick);
      assert Ticks(|s.queue|)[1..] == Ticks(|t.queue|);
      TicksDeliver(enc, t);
      assert s.written + [s.queue[0]] + s.queue[1..] == s.written + s.queue;
    }
  }

  /** A whole Clear forgets every queued frame, oldest first, and nothing else. */
  lemma {:induction false} ClearForgets(s: State)
    ensures Drops(s) == s.(queue := [], cleared := s.cleared + Indices(s.queue))
    decreases |s.queue|
  {
    if s.queue == [] {
      assert Indices(s.queue) == [] && s.cleared + [] == s.cleared;
    } else {
      var first, rest := s.queue[0].index, Indices(s.queue[1..]);
      ClearForgets(s.(queue := s.queue[1..], cleared := s.cleared + [first]));
      assert Indices(s.queue) == [first] + rest;
      Assoc(s.cleared, [first], rest);
    }
  }
}
