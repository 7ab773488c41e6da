/**
  The outbound side of voice/transport/whatsapp: Send cuts PCM into 480-sample blocks, encodes
  them and queues them; the pacer takes one frame per tick; Clear drains the queue.  Send holds a
  lock, but the pacer and Clear do not, so their queue operations fall anywhere between its blocks.

  The Opus encoder is a parameter: `enc(blocks)` is its answer to the last block when it has been
  handed exactly `blocks` since it was created, so it may keep any internal state.
 */
module PacedTransport {
  import opened Wrappers
  import opened Pcm

  const BLOCK: nat := 480
  const QUEUE: nat := 1000

  type Block = seq<Sample>

  type Encoder = seq<Block> -> Option<seq<Byte>>

  /** An encoded block and its position among all blocks handed to the encoder. */
  datatype Frame = Frame(index: nat, data: seq<Byte>)

  datatype State = State(
    buf: seq<Sample>,
    queue: seq<Frame>,
    closed: bool,
    sending: bool,           // some Send holds the lock
    erred: bool,             // the last Send returned an encoding error
    input: seq<Sample>,      // every sample accepted so far
    handed: seq<Block>,      // every block handed to the encoder
    failed: seq<nat>,
    dropped: seq<nat>,
    cleared: seq<nat>,
    written: seq<Frame>)

  const INITIAL := State([], [], false, false, false, [], [], [], [], [], [])

  datatype Action =
    | Accept(data: seq<Byte>)
    | EncodeBlock
    | Release
    | Tick
    | ClearOne
    | Close

  predicate Enabled(s: State, a: Action) {
    match a
    case Accept(_) => !s.sending
    case EncodeBlock => s.sending && |s.buf| >= BLOCK
    case Release => s.sending && |s.buf| < BLOCK
    case Tick => true
    case ClearOne => s.queue != []
    case Close => !s.sending
  }

  function Accepted(s: State, data: seq<Byte>): State {
    if s.closed then s
    else s.(buf := s.buf + Samples(data), input := s.input + Samples(data), sending := true, erred := false)
  }

  /** One round of Send's loop: encode the first 480 samples and offer the frame to the queue. */
  function Encoded(enc: Encoder, s: State): State
    requires |s.buf| >= BLOCK
  {
    var i := |s.handed|;
    var t := s.(buf := s.buf[BLOCK..], handed := s.handed + [s.buf[..BLOCK]]);
    var r := enc(t.handed);
    if r.None? then t.(failed := t.failed + [i], sending := false, erred := true)
    else if |t.queue| < QUEUE then t.(queue := t.queue + [Frame(i, r.value)])
    else t.(dropped := t.dropped + [i])
  }

  function Next(enc: Encoder, s: State, a: Action): State
    requires Enabled(s, a)
  {
    match a
    case Accept(data) => Accepted(s, data)
    case EncodeBlock => Encoded(enc, s)
    case Release => s.(sending := false)
    case Tick => if s.queue == [] then s else s.(queue := s.queue[1..], written := s.written + [s.queue[0]])
    case ClearOne => s.(queue := s.queue[1..], cleared := s.cleared + [s.queue[0].index])
    case Close => s.(closed := true)
  }

  /** The state a run of actions reaches from s; None when some action was not enabled. */
  function RunFrom(enc: Encoder, s: State, acts: seq<Action>): Option<State>
    decreases |acts|
  {
    if acts == [] then Some(s)
    else if Enabled(s, acts[0]) then RunFrom(enc, Next(enc, s, acts[0]), acts[1..])
    else None
  }

  // ----- rechunking

  function Flat(blocks: seq<Block>): seq<Sample> {
    if blocks == [] then [] else Flat(blocks[..|blocks| - 1]) + blocks[|blocks| - 1]
  }

  /** The blocks, laid end to end, and the buffer after them are the input. */
  ghost predicate Rechunked(input: seq<Sample>, handed: seq<Block>, buf: seq<Sample>) {
    && Flat(handed) + buf == input
    && forall k :: 0 <= k < |handed| ==> |handed[k]| == 480
  }

  lemma {:induction false} RechunkOne(input: seq<Sample>, handed: seq<Block>, buf: seq<Sample>)
    requires Rechunked(input, handed, buf) && |buf| >= BLOCK
    ensures Rechunked(input, handed + [buf[..BLOCK]], buf[BLOCK..])
  {
    var h := handed + [buf[..BLOCK]];
    assert h[..|h| - 1] == handed;
    assert Flat(handed) + buf == Flat(h) + buf[BLOCK..];
  }

  /** So block k is the k-th 480-sample slice of the input. */
  lemma {:induction false} BlocksAreSlices(input: seq<Sample>, handed: seq<Block>, buf: seq<Sample>, k: nat)
    requires Rechunked(input, handed, buf) && k < |handed|
    ensures |Flat(handed)| == 480 * |handed| && |input| == 480 * |handed| + |buf|
    ensures handed[k] == input[480 * k..480 * k + 480]
  {
    var n := |handed| - 1;
    var rest := handed[n] + buf;
    assert Flat(handed) + buf == Flat(handed[..n]) + rest;
    if n > 0 { BlocksAreSlices(input, handed[..n], rest, if k < n then k else 0); }
    assert input[480 * n..480 * n + 480] == handed[n];
  }

  // ----- every block has exactly one fate

  function Indices(fs: seq<Frame>): (r: seq<nat>)
    ensures |r| == |fs| && forall i :: 0 <= i < |fs| ==> r[i] == fs[i].index
  {
    seq(|fs|, i requires 0 <= i < |fs| => fs[i].index)
  }

  function UpTo(n: nat): multiset<nat> {
    if n == 0 then multiset{} else UpTo(n - 1) + multiset{n - 1}
  }

  /** Every place a block handed to the encoder can be: failed, dropped, cleared, queued or written. */
  function Fates(s: State): multiset<nat> {
    Total(multiset(s.failed), multiset(s.dropped), multiset(s.cleared),
          multiset(Indices(s.queue)), multiset(Indices(s.written)))
  }

  function Total(
      f: multiset<nat>, d: multiset<nat>, c: multiset<nat>, q: multiset<nat>, w: multiset<nat>): multiset<nat>
  {
    f + d + c + q + w
  }

  lemma {:induction false} TotalMoves(
      f: multiset<nat>, d: multiset<nat>, c: multiset<nat>, q: multiset<nat>, w: multiset<nat>, x: multiset<nat>)
    ensures Total(f + x, d, c, q, w) == Total(f, d, c, q, w) + x
    ensures Total(f, d + x, c, q, w) == Total(f, d, c, q, w) + x
    ensures Total(f, d, c + x, q, w) == Total(f, d, c, q, w) + x
    ensures Total(f, d, c, x + q, w) == Total(f, d, c, q, w) + x
    ensures Total(f, d, c, q + x, w) == Total(f, d, c, q, w) + x
    ensures Total(f, d, c, q, w + x) == Total(f, d, c, q, w) + x
  {
  }

  lemma {:induction false} UpToOnce(n: nat, i: nat)
    ensures UpTo(n)[i] == if i < n then 1 else 0
  {
    if n > 0 { UpToOnce(n - 1, i); }
  }

  lemma {:induction false} IndicesAppend(fs: seq<Frame>, f: Frame)
    ensures multiset(Indices(fs + [f])) == multiset(Indices(fs)) + multiset{f.index}
  {
    assert Indices(fs + [f]) == Indices(fs) + [f.index];
  }

  lemma {:induction false} IndicesTail(fs: seq<Frame>)
    requires fs != []
    ensures multiset(Indices(fs)) == multiset{fs[0].index} + multiset(Indices(fs[1..]))
  {
    assert Indices(fs) == [fs[0].index] + Indices(fs[1..]);
  }

  lemma {:induction false} EncodeAddsOneFate(enc: Encoder, s: State)
    requires |s.buf| >= BLOCK
    ensures Fates(Encoded(enc, s)) == Fates(s) + multiset{|s.handed|}
  {
    var t, i := Encoded(enc, s), |s.handed|;
    var f, d, c := multiset(s.failed), multiset(s.dropped), multiset(s.cleared);
    var q, w := multiset(Indices(s.queue)), multiset(Indices(s.written));
    TotalMoves(f, d, c, q, w, multiset{i});
    if t.failed != s.failed {
      assert t.failed == s.failed + [i] && t.dropped == s.dropped && t.queue == s.queue;
      AppendOne(s.failed, i);
    } else if t.queue != s.queue {
      assert t.dropped == s.dropped;
      IndicesAppend(s.queue, t.queue[|s.queue|]);
    } else {
      assert t.dropped == s.dropped + [i];
      AppendOne(s.dropped, i);
    }
  }

  lemma {:induction false} AppendOne(xs: seq<nat>, i: nat)
    ensures multiset(xs + [i]) == multiset(xs) + multiset{i}
  {
  }

  lemma {:induction false} TickKeepsFates(enc: Encoder, s: State)
    requires s.queue != []
    ensures Fates(Next(enc, s, Tick)) == Fates(s)
  {
    var f, d, c := multiset(s.failed), multiset(s.dropped), multiset(s.cleared);
    var q, w, x := multiset(Indices(s.queue[1..])), multiset(Indices(s.written)), multiset{s.queue[0].index};
    IndicesTail(s.queue);
    IndicesAppend(s.written, s.queue[0]);
    TotalMoves(f, d, c, q, w, x);
    assert Total(f, d, c, x + q, w) == Total(f, d, c, q, w + x);
  }

  lemma {:induction false} ClearKeepsFates(enc: Encoder, s: State)
    requires s.queue != []
    ensures Fates(Next(enc, s, ClearOne)) == Fates(s)
  {
    var f, d, c := multiset(s.failed), multiset(s.dropped), multiset(s.cleared);
    var q, w, x := multiset(Indices(s.queue[1..])), multiset(Indices(s.written)), multiset{s.queue[0].index};
    IndicesTail(s.queue);
    assert multiset(s.cleared + [s.queue[0].index]) == c + x;
    TotalMoves(f, d, c, q, w, x);
    assert Total(f, d, c, x + q, w) == Total(f, d, c + x, q, w);
  }

  // ----- what the frames hold, and in which order they leave

  ghost predicate Right(enc: Encoder, handed: seq<Block>, f: Frame) {
    f.index < |handed| && enc(handed[..f.index + 1]) == Some(f.data)
  }

  ghost predicate Outgoing(enc: Encoder, handed: seq<Block>, out: seq<Frame>) {
    && (forall i :: 0 <= i < |out| ==> Right(enc, handed, out[i]))
    && (forall i, j :: 0 <= i < j < |out| ==> out[i].index < out[j].index)
  }

  lemma {:induction false} OutgoingGrows(enc: Encoder, handed: seq<Block>, out: seq<Frame>, b: Block)
    requires Outgoing(enc, handed, out)
    ensures Outgoing(enc, handed + [b], out)
  {
    forall i | 0 <= i < |out| ensures Right(enc, handed + [b], out[i]) {
      assert Right(enc, handed, out[i]);
      assert (handed + [b])[..out[i].index + 1] == handed[..out[i].index + 1];
    }
  }

  lemma {:induction false} OutgoingAppend(enc: Encoder, handed: seq<Block>, out: seq<Frame>, f: Frame)
    requires f.index + 1 == |handed| && Outgoing(enc, handed[..f.index], out) && Right(enc, handed, f)
    ensures Outgoing(enc, handed, out + [f])
  {
    assert handed == handed[..f.index] + [handed[f.index]];
    OutgoingGrows(enc, handed[..f.index], out, handed[f.index]);
    assert forall i :: 0 <= i < |out| ==> Right(enc, handed[..f.index], out[i]);
  }

  lemma {:induction false} OutgoingAfterEncode(enc: Encoder, s: State)
    requires Outgoing(enc, s.handed, s.written + s.queue) && |s.buf| >= BLOCK
    ensures var t := Encoded(enc, s); Outgoing(enc, t.handed, t.written + t.queue)
  {
    var t := Encoded(enc, s);
    OutgoingGrows(enc, s.handed, s.written + s.queue, s.buf[..BLOCK]);
    if t.queue != s.queue {
      var f := t.queue[|s.queue|];
      assert t.handed[..f.index] == s.handed && t.handed[..f.index + 1] == t.handed;
      OutgoingAppend(enc, t.handed, s.written + s.queue, f);
      assert t.written + t.queue == (s.written + s.queue) + [f];
    }
  }

  lemma {:induction false} OutgoingAfterTake(enc: Encoder, handed: seq<Block>, written: seq<Frame>, queue: seq<Frame>)
    requires Outgoing(enc, handed, written + queue) && queue != []
    ensures Outgoing(enc, handed, written + [queue[0]] + queue[1..])
    ensures Outgoing(enc, handed, written + queue[1..])
  {
    var out, rest, w := written + queue, written + queue[1..], |written|;
    assert written + [queue[0]] + queue[1..] == out;
    assert forall i :: 0 <= i < |rest| ==> rest[i] == out[if i < w then i else i + 1];
  }

  ghost predicate Failures(enc: Encoder, handed: seq<Block>, failed: seq<nat>) {
    forall i :: 0 <= i < |failed| ==> failed[i] < |handed| && enc(handed[..failed[i] + 1]) == None
  }

  lemma {:induction false} FailuresAfterEncode(enc: Encoder, s: State)
    requires Failures(enc, s.handed, s.failed) && |s.buf| >= BLOCK
    ensures Failures(enc, Encoded(enc, s).handed, Encoded(enc, s).failed)
  {
    var t := Encoded(enc, s);
    forall i | 0 <= i < |t.failed|
      ensures t.failed[i] < |t.handed| && enc(t.handed[..t.failed[i] + 1]) == None
    {
      if i < |s.failed| {
        assert t.handed[..s.failed[i] + 1] == s.handed[..s.failed[i] + 1];
      } else {
        assert t.handed[..t.failed[i] + 1] == t.handed;
      }
    }
  }

  /** The queue is bounded, and a whole block stays buffered only during a Send or after an error. */
  ghost predicate Bounded(s: State) {
    && |s.queue| <= QUEUE
    && (!s.sending && !s.erred ==> |s.buf| < BLOCK)
    && (s.erred ==> s.failed != [])
    && (s.closed ==> !s.sending)
  }

  ghost predicate Inv(enc: Encoder, s: State) {
    && Rechunked(s.input, s.handed, s.buf)
    && Fates(s) == UpTo(|s.handed|)
    && Outgoing(enc, s.handed, s.written + s.queue)
    && Failures(enc, s.handed, s.failed)
    && Bounded(s)
  }

  lemma {:induction false} RechunkedAfterEncode(enc: Encoder, s: State)
    requires Rechunked(s.input, s.handed, s.buf) && |s.buf| >= BLOCK
    ensures var t := Encoded(enc, s); Rechunked(t.input, t.handed, t.buf)
  {
    var block, rest := s.buf[..BLOCK], s.buf[BLOCK..];
    RechunkOne(s.input, s.handed, s.buf);
    EncodedShape(enc, s, s.handed + [block], rest);
  }

  lemma {:induction false} EncodedShape(enc: Encoder, s: State, handed: seq<Block>, rest: seq<Sample>)
    requires |s.buf| >= BLOCK && handed == s.handed + [s.buf[..BLOCK]] && rest == s.buf[BLOCK..]
    ensures var t := Encoded(enc, s); t.input == s.input && t.handed == handed && t.buf == rest
  {
  }

  lemma {:induction false} FatesAfterEncode(enc: Encoder, s: State)
    requires Fates(s) == UpTo(|s.handed|) && |s.buf| >= BLOCK
    ensures var t := Encoded(enc, s); Fates(t) == UpTo(|t.handed|)
  {
    EncodeAddsOneFate(enc, s);
    assert |Encoded(enc, s).handed| == |s.handed| + 1;
  }

  lemma {:induction false} BoundedAfterEncode(enc: Encoder, s: State)
    requires Bounded(s) && Enabled(s, EncodeBlock)
    ensures Bounded(Encoded(enc, s))
  {
  }

  lemma {:induction false} EncodeInv(enc: Encoder, s: State)
    requires Inv(enc, s) && Enabled(s, EncodeBlock)
    ensures Inv(enc, Encoded(enc, s))
  {
    RechunkedAfterEncode(enc, s);
    FatesAfterEncode(enc, s);
    OutgoingAfterEncode(enc, s);
    FailuresAfterEncode(enc, s);
    BoundedAfterEncode(enc, s);
  }

  lemma {:induction false} StepInv(enc: Encoder, s: State, a: Action)
    requires Inv(enc, s) && Enabled(s, a)
    ensures Inv(enc, Next(enc, s, a))
  {
    match a
    case EncodeBlock => EncodeInv(enc, s);
    case Accept(data) => assert Flat(s.handed) + (s.buf + Samples(data)) == s.input + Samples(data);
    case Release =>
    case Close =>
    case Tick => if s.queue != [] { TickInv(enc, s); }
    case ClearOne => ClearInv(enc, s);
  }

  lemma {:induction false} TickInv(enc: Encoder, s: State)
    requires Inv(enc, s) && s.queue != []
    ensures Inv(enc, Next(enc, s, Tick))
  {
    TickKeepsFates(enc, s);
    OutgoingAfterTake(enc, s.handed, s.written, s.queue);
  }

  lemma {:induction false} ClearInv(enc: Encoder, s: State)
    requires Inv(enc, s) && s.queue != []
    ensures Inv(enc, Next(enc, s, ClearOne))
  {
    ClearKeepsFates(enc, s);
    OutgoingAfterTake(enc, s.handed, s.written, s.queue);
  }

  lemma {:induction false} RunInv(enc: Encoder, s: State, acts: seq<Action>)
    requires Inv(enc, s) && RunFrom(enc, s, acts).Some?
    ensures Inv(enc, RunFrom(enc, s, acts).value)
    decreases |acts|
  {
    if acts != [] {
      StepInv(enc, s, acts[0]);
      RunInv(enc, Next(enc, s, acts[0]), acts[1..]);
    }
  }

  /** The blocks are the slices of the input, and less than one stays buffered unless the last Send failed. */
  lemma {:induction false} BlocksInEveryInterleaving(enc: Encoder, acts: seq<Action>)
    requires RunFrom(enc, INITIAL, acts).Some?
    ensures var s := RunFrom(enc, INITIAL, acts).value;
      && |s.input| == 480 * |s.handed| + |s.buf|
      && (forall k :: 0 <= k < |s.handed| ==> s.handed[k] == s.input[480 * k..480 * k + 480])
      && (!s.sending && !s.erred ==> |s.buf| < 480)
  {
    RunInv(enc, INITIAL, acts);
    var s := RunFrom(enc, INITIAL, acts).value;
    if s.handed != [] { BlocksAreSlices(s.input, s.handed, s.buf, 0); }
    forall k | 0 <= k < |s.handed| ensures s.handed[k] == s.input[480 * k..480 * k + 480] {
      BlocksAreSlices(s.input, s.handed, s.buf, k);
    }
  }

  /**
    In every interleaving with the pacer and Clear the queue is bounded, each block is in exactly one
    place, and the frames written are the encodings of their blocks, in encoding order.
   */
  lemma {:induction false} FatesInEveryInterleaving(enc: Encoder, acts: seq<Action>, i: nat)
    requires RunFrom(enc, INITIAL, acts).Some?
    ensures var s := RunFrom(enc, INITIAL, acts).value;
      && |s.queue| <= 1000
      && Fates(s)[i] == (if i < |s.handed| then 1 else 0)
      && Outgoing(enc, s.handed, s.written)
  {
    RunInv(enc, INITIAL, acts);
    var s := RunFrom(enc, INITIAL, acts).value;
    UpToOnce(|s.handed|, i);
    assert forall k :: 0 <= k < |s.written| ==> (s.written + s.queue)[k] == s.written[k];
  }

  /** The bytes an action adds: those of a Send that finds the transport open. */
  function Taken(s: State, a: Action): seq<Byte> {
    if a.Accept? && !s.closed then a.data else []
  }

  function Fed(enc: Encoder, s: State, acts: seq<Action>): seq<Byte>
    requires RunFrom(enc, s, acts).Some?
    decreases |acts|
  {
    if acts == [] then [] else Taken(s, acts[0]) + Fed(enc, Next(enc, s, acts[0]), acts[1..])
  }

  ghost predicate WholeSamples(acts: seq<Action>) {
    forall i :: 0 <= i < |acts| && acts[i].Accept? ==> |acts[i].data| % 2 == 0
  }

  lemma {:induction false} InputStep(enc: Encoder, s: State, a: Action)
    requires Enabled(s, a)
    ensures Next(enc, s, a).input == s.input + Samples(Taken(s, a))
  {
    if Next(enc, s, a).input == s.input { assert s.input + [] == s.input; }
  }

  lemma {:induction false} Glue(input: seq<Sample>, first: seq<Byte>, rest: seq<Byte>)
    requires |first| % 2 == 0
    ensures input + Samples(first) + Samples(rest) == input + Samples(first + rest)
  {
    SamplesConcat(first, rest);
  }

  lemma {:induction false} InputIsFed(enc: Encoder, s: State, acts: seq<Action>)
    requires RunFrom(enc, s, acts).Some? && WholeSamples(acts)
    ensures RunFrom(enc, s, acts).value.input == s.input + Samples(Fed(enc, s, acts))
    decreases |acts|
  {
    if acts != [] {
      var t := Next(enc, s, acts[0]);
      var first, rest := Taken(s, acts[0]), Fed(enc, t, acts[1..]);
      InputIsFed(enc, t, acts[1..]);
      InputStep(enc, s, acts[0]);
      Glue(s.input, first, rest);
    }
  }

  /**
    However the same bytes are split over Send calls, and whatever failed on the way, the encoder is
    handed the same blocks once a Send has gone through.
   */
  lemma {:induction false} SplitDoesNotMatter(enc: Encoder, acts: seq<Action>, enc': Encoder, acts': seq<Action>)
    requires RunFrom(enc, INITIAL, acts).Some? && RunFrom(enc', INITIAL, acts').Some?
    requires WholeSamples(acts) && WholeSamples(acts')
    requires Fed(enc, INITIAL, acts) == Fed(enc', INITIAL, acts')
    requires var s := RunFrom(enc, INITIAL, acts).value; !s.sending && !s.erred
    requires var s := RunFrom(enc', INITIAL, acts').value; !s.sending && !s.erred
    ensures RunFrom(enc, INITIAL, acts).value.handed == RunFrom(enc', INITIAL, acts').value.handed
    ensures RunFrom(enc, INITIAL, acts).value.buf == RunFrom(enc', INITIAL, acts').value.buf
  {
    var s, s' := RunFrom(enc, INITIAL, acts).value, RunFrom(enc', INITIAL, acts').value;
    InputIsFed(enc, INITIAL, acts);
    InputIsFed(enc', INITIAL, acts');
    BlocksInEveryInterleaving(enc, acts);
    BlocksInEveryInterleaving(enc', acts');
    assert |s.handed| == |s'.handed|;
    RunInv(enc, INITIAL, acts);
    RunInv(enc', INITIAL, acts');
    assert s.handed == s'.handed;
    assert s.buf == s.input[|Flat(s.handed)|..] && s'.buf == s'.input[|Flat(s'.handed)|..];
  }

  // ----- Send, Clear and Close run to the end, as one goroutine executes them

  function Drained(enc: Encoder, s: State): State
    requires s.sending
    decreases |s.buf|
  {
    if |s.buf| < BLOCK then s.(sending := false)
    else var t := Encoded(enc, s); if t.sending then Drained(enc, t) else t
  }

  function Sent(enc: Encoder, s: State, data: seq<Byte>): State
    requires !s.sending
  {
    if s.closed then s else Drained(enc, Accepted(s, data))
  }

  function Drops(s: State): State
    decreases |s.queue|
  {
    if s.queue == [] then s
    else Drops(s.(queue := s.queue[1..], cleared := s.cleared + [s.queue[0].index]))
  }

  lemma {:induction false} DrainedIsARun(enc: Encoder, s: State) returns (acts: seq<Action>)
    requires s.sending
    ensures RunFrom(enc, s, acts) == Some(Drained(enc, s))
    decreases |s.buf|
  {
    if |s.buf| < BLOCK {
      acts := [Release];
    } else {
      var t := Encoded(enc, s);
      var rest := [];
      if t.sending { rest := DrainedIsARun(enc, t); }
      acts := [EncodeBlock] + rest;
      assert acts[1..] == rest;
    }
  }

  /** A Send that nobody interrupts is one of the interleavings. */
  lemma {:induction false} SentIsARun(enc: Encoder, s: State, data: seq<Byte>) returns (acts: seq<Action>)
    requires !s.sending
    ensures RunFrom(enc, s, acts) == Some(Sent(enc, s, data))
  {
    var rest := [];
    if !s.closed { rest := DrainedIsARun(enc, Accepted(s, data)); }
    acts := [Accept(data)] + rest;
    assert acts[1..] == rest;
  }

  lemma {:induction false} DropsIsARun(enc: Encoder, s: State) returns (acts: seq<Action>)
    ensures RunFrom(enc, s, acts) == Some(Drops(s))
    decreases |s.queue|
  {
    acts := [];
    if s.queue != [] {
      var rest := DropsIsARun(enc, Next(enc, s, ClearOne));
      acts := [ClearOne] + rest;
      assert acts[1..] == rest;
    }
  }

  function Payloads(fs: seq<Frame>): seq<seq<Byte>> {
    seq(|fs|, i requires 0 <= i < |fs| => fs[i].data)
  }

  class Transport {
    var sendBuf: seq<Sample>
    var outQueue: seq<seq<Byte>>
    var encoder: seq<Block>  // what the encoder has been handed
    var closed: bool
    ghost var st: State

    ghost predicate Valid()
      reads this
    {
      && st.buf == sendBuf && st.handed == encoder && st.closed == closed
      && outQueue == Payloads(st.queue)
    }

    constructor ()
      ensures Valid() && st == INITIAL
    {
      sendBuf, outQueue, encoder, closed := [], [], [], false;
      st := INITIAL;
    }

    method Send(enc: Encoder, data: seq<Byte>) returns (ok: bool)
      requires Valid() && !st.sending
      modifies this
      ensures Valid() && !st.sending
      ensures st == Sent(enc, old(st), data)
      ensures !ok <==> !old(closed) && st.erred
    {
      if closed {
        return true;
      }
      var samples := BytesToInt16LE(data);
      sendBuf := sendBuf + samples;
      st := Accepted(st, data);
      while |sendBuf| >= BLOCK
        invariant Valid() && st.sending && !st.erred && !closed
        invariant Drained(enc, st) == Sent(enc, old(st), data)
        decreases |sendBuf|
      {
        var frame := sendBuf[..BLOCK];
        sendBuf := sendBuf[BLOCK..];
        encoder := encoder + [frame];
        var r := enc(encoder);
        st := Encoded(enc, st);
        if r.None? {
          return false;
        }
        if |outQueue| < QUEUE {
          outQueue := outQueue + [r.value];
        }
      }
      st := st.(sending := false);
      return true;
    }

    method Clear()
      requires Valid()
      modifies this
      ensures Valid() && outQueue == [] && st == Drops(old(st))
    {
      while outQueue != []
        invariant Valid() && Drops(st) == Drops(old(st))
        decreases |outQueue|
      {
        outQueue := outQueue[1..];
        st := st.(queue := st.queue[1..], cleared := st.cleared + [st.queue[0].index]);
      }
    }

    method Close()
      requires Valid()
      modifies this
      ensures Valid() && closed && st == old(st).(closed := true)
    {
      closed := true;
      st := st.(closed := true);
    }

    /** The pacer's choice on one tick: the oldest queued frame, or silence. */
    method Take(silence: seq<Byte>) returns (frame: seq<Byte>)
      requires Valid()
      modifies this
      ensures Valid()
      ensures frame == if old(outQueue) == [] then silence else old(outQueue)[0]
      ensures forall enc :: st == Next(enc, old(st), Tick)
    {
      frame := silence;
      if outQueue != [] {
        frame := outQueue[0];
        outQueue := outQueue[1..];
        st := st.(queue := st.queue[1..], written := st.written + [st.queue[0]]);
      }
    }
  }

  // ----- the deadline clock of the pacer, in nanoseconds

  const FRAME: int := 20_000_000
  const LAG: int := 1_000_000_000

  /** One pass of the pacer: the reading behind `wait`, the one a resync takes, and when it writes. */
  datatype Pass = Pass(now: int, resync: int, write: int)

  function Deadline(previous: int, p: Pass): int {
    var next := previous + FRAME;
    if next - p.now < -LAG then p.resync else next
  }

  /** The deadline after a whole run of passes. */
  function DeadlineAfter(start: int, ps: seq<Pass>): int {
    if ps == [] then start else Deadline(DeadlineAfter(start, ps[..|ps| - 1]), ps[|ps| - 1])
  }

  /** Time moves forward within a pass, and a positive wait is slept in full. */
  ghost predicate Clocked(start: int, ps: seq<Pass>) {
    forall i :: 0 <= i < |ps| ==>
      && ps[i].now <= ps[i].resync <= ps[i].write
      && (DeadlineAfter(start, ps[..i]) + FRAME > ps[i].now ==> ps[i].write >= DeadlineAfter(start, ps[..i]) + FRAME)
  }

  lemma {:induction false} DeadlineBounds(start: int, ps: seq<Pass>, i: nat)
    requires Clocked(start, ps) && i < |ps|
    ensures ps[i].now - LAG <= DeadlineAfter(start, ps[..i + 1]) <= ps[i].write
    ensures DeadlineAfter(start, ps[..i + 1]) >= DeadlineAfter(start, ps[..i]) + FRAME
  {
    assert ps[..i + 1][..i] == ps[..i] && ps[..i + 1][i] == ps[i];
  }

  lemma {:induction false} DeadlinesAdvance(start: int, ps: seq<Pass>, i: nat, j: nat)
    requires Clocked(start, ps) && i <= j < |ps|
    ensures DeadlineAfter(start, ps[..j + 1]) >= DeadlineAfter(start, ps[..i + 1]) + 20_000_000 * (j - i)
    decreases j
  {
    if i < j {
      DeadlinesAdvance(start, ps, i, j - 1);
      DeadlineBounds(start, ps, j);
    }
  }

  /** After any stall the pacer catches up by at most one second of frames: it never bursts. */
  lemma {:induction false} BurstIsBounded(start: int, ps: seq<Pass>, i: nat, j: nat)
    requires Clocked(start, ps) && i <= j < |ps|
    ensures 20_000_000 * (j - i) <= ps[j].write - ps[i].now + 1_000_000_000
  {
    DeadlinesAdvance(start, ps, i, j);
    DeadlineBounds(start, ps, i);
    DeadlineBounds(start, ps, j);
  }

  /** While the pacer is never a second late, deadline k is exactly start + 20 ms * k: no drift. */
  lemma {:induction false} NoDrift(start: int, ps: seq<Pass>)
    requires forall i :: 0 <= i < |ps| ==> ps[i].now <= start + 20_000_000 * (i + 1) + 1_000_000_000
    ensures DeadlineAfter(start, ps) == start + 20_000_000 * |ps|
  {
    if ps != [] {
      NoDrift(start, ps[..|ps| - 1]);
    }
  }
}
