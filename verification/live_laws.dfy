/** What the live translation passes on besides text: audio, transcripts, interruptions, turns and tool calls. */
module LiveLaws {
  import opened Wrappers
  import opened Sequences
  import opened LiveEvents

  /** Seen through f, the events of a message are g of that message, whatever text is pending. */
  ghost predicate Passes<T>(f: Event -> seq<T>, g: Message -> seq<T>) {
    forall pending: string, m: Message :: FlatMap(f, MessageEvents(pending, m)) == g(m)
  }

  /** And so are the events of a whole stream. */
  lemma {:induction false} PassedOn<T>(f: Event -> seq<T>, g: Message -> seq<T>, pending: string, msgs: seq<Message>)
    requires Passes(f, g)
    ensures FlatMap(f, Trace(pending, msgs)) == FlatMap(g, msgs)
    decreases |msgs|
  {
    if msgs != [] {
      var after := PendingAfter(pending, msgs[0]);
      PassedOn(f, g, after, msgs[1..]);
      FlatMapConcat(f, MessageEvents(pending, msgs[0]), Trace(after, msgs[1..]));
    }
  }

  // ----- the projections, and what the server sent

  function AudioOf(e: Event): seq<seq<int>> {
    if e.AudioOut? then [e.data] else []
  }

  function TranscriptOf(e: Event): seq<string> {
    if e.CallerTranscript? then [e.text] else []
  }

  function CallsOf(e: Event): seq<ToolCall> {
    if e.ToolCalls? then e.calls else []
  }

  /** Interruptions and completed turns, in order. */
  function SignalOf(e: Event): seq<Event> {
    if e.Interrupted? || e.TurnComplete? then [e] else []
  }

  function PartAudio(p: Part): seq<seq<int>> {
    if p.audio.Good? then [p.audio.data] else []
  }

  function SentAudio(m: Message): seq<seq<int>> {
    if m.Malformed? || m.content.None? then [] else FlatMap(PartAudio, m.content.value.parts)
  }

  function SentTranscript(m: Message): seq<string> {
    if m.Malformed? || m.content.None? || m.content.value.input == "" then [] else [m.content.value.input]
  }

  function SentCalls(m: Message): seq<ToolCall> {
    if m.Malformed? then [] else m.calls
  }

  function SentSignals(m: Message): seq<Event> {
    if m.Malformed? || m.content.None? then [] else Signals(m.content.value)
  }

  // ----- one message

  /** A projection that ignores texts. */
  ghost predicate SkipsText<T>(f: Event -> seq<T>) {
    forall e: Event :: e.AssistantText? ==> f(e) == []
  }

  lemma {:induction false} StreamedSkipped<T>(f: Event -> seq<T>, text: string)
    requires SkipsText(f)
    ensures FlatMap(f, Streamed(text)) == []
  {
    FlatMapNothing(f, Streamed(text));
  }

  lemma {:induction false} HeardThrough<T>(f: Event -> seq<T>, c: Content)
    requires SkipsText(f)
    ensures FlatMap(f, Heard(c)) == if c.input == "" then [] else f(CallerTranscript(c.input))
  {
    var x: seq<Event> := if c.input == "" then [] else [CallerTranscript(c.input)];
    FlatMapConcat(f, x, Streamed(c.output));
    StreamedSkipped(f, c.output);
    if x != [] { FlatMapOne(f, x[0]); }
    assert FlatMap(f, x) + [] == FlatMap(f, x);
  }

  lemma {:induction false} PartThrough<T>(f: Event -> seq<T>, p: Part)
    requires SkipsText(f)
    ensures FlatMap(f, PartEvents(p)) == if p.audio.Good? then f(AudioOut(p.audio.data)) else []
  {
    StreamedSkipped(f, p.text);
    if p.audio.Good? {
      FlatMapConcat(f, [AudioOut(p.audio.data)], Streamed(p.text));
      FlatMapOne(f, AudioOut(p.audio.data));
      assert f(AudioOut(p.audio.data)) + [] == f(AudioOut(p.audio.data));
    }
  }

  lemma {:induction false} PartsThrough<T>(f: Event -> seq<T>, g: Part -> seq<T>, ps: seq<Part>)
    requires SkipsText(f) && forall p: Part :: g(p) == if p.audio.Good? then f(AudioOut(p.audio.data)) else []
    ensures FlatMap(f, PartsEvents(ps)) == FlatMap(g, ps)
  {
    if ps != [] {
      PartsThrough(f, g, ps[1..]);
      FlatMapConcat(f, PartEvents(ps[0]), PartsEvents(ps[1..]));
      PartThrough(f, ps[0]);
    }
  }

  lemma {:induction false} EndingThrough<T>(f: Event -> seq<T>, text: string, c: Content)
    requires SkipsText(f)
    ensures FlatMap(f, Ending(text, c)) ==
            (if c.interrupted then f(Interrupted) else []) + if c.turnComplete then f(TurnComplete) else []
  {
    var x: seq<Event> := if c.interrupted then [Interrupted] else [];
    var y: seq<Event> := if text == "" then [] else [AssistantText(text, true)];
    if x != [] { FlatMapOne(f, Interrupted); }
    if c.turnComplete {
      FlatMapConcat(f, x, y + [TurnComplete]);
      FlatMapConcat(f, y, [TurnComplete]);
      FlatMapNothing(f, y);
      FlatMapOne(f, TurnComplete);
      assert [] + f(TurnComplete) == f(TurnComplete);
    } else {
      assert Ending(text, c) == x + [] == x;
      assert FlatMap(f, x) + [] == FlatMap(f, x);
    }
  }

  /** What a content shows through f: what the caller said, the audio, the signals. */
  lemma {:induction false} ContentThrough<T>(
      f: Event -> seq<T>, pending: string, c: Content, said: seq<T>, audio: seq<T>, signals: seq<T>)
    requires FlatMap(f, Heard(c)) == said && FlatMap(f, PartsEvents(c.parts)) == audio
    requires FlatMap(f, Ending(TurnText(pending, c), c)) == signals
    ensures FlatMap(f, ContentEvents(pending, c)) == said + audio + signals
  {
    var x, y, z := Heard(c), PartsEvents(c.parts), Ending(TurnText(pending, c), c);
    FlatMapConcat(f, x + y, z);
    FlatMapConcat(f, x, y);
  }

  lemma {:induction false} MessageThrough<T>(f: Event -> seq<T>, pending: string, m: Message, shown: seq<T>)
    requires m.Message?
    requires shown == if m.content.Some? then FlatMap(f, ContentEvents(pending, m.content.value)) else []
    ensures FlatMap(f, MessageEvents(pending, m)) == shown + if m.calls == [] then [] else f(ToolCalls(m.calls))
  {
    var x: seq<Event> := if m.content.Some? then ContentEvents(pending, m.content.value) else [];
    var y: seq<Event> := if m.calls == [] then [] else [ToolCalls(m.calls)];
    FlatMapConcat(f, x, y);
    if y != [] { FlatMapOne(f, y[0]); }
  }

  lemma {:induction false} NoPartsThrough<T>(f: Event -> seq<T>, ps: seq<Part>)
    requires SkipsText(f) && forall e: Event :: e.AudioOut? ==> f(e) == []
    ensures FlatMap(f, PartsEvents(ps)) == []
  {
    if ps != [] {
      NoPartsThrough(f, ps[1..]);
      FlatMapConcat(f, PartEvents(ps[0]), PartsEvents(ps[1..]));
      PartThrough(f, ps[0]);
    }
  }

  lemma {:induction false} ContentAudio(pending: string, c: Content)
    ensures FlatMap(AudioOf, ContentEvents(pending, c)) == FlatMap(PartAudio, c.parts)
  {
    var audio := FlatMap(PartAudio, c.parts);
    HeardThrough(AudioOf, c);
    PartsThrough(AudioOf, PartAudio, c.parts);
    EndingThrough(AudioOf, TurnText(pending, c), c);
    ContentThrough(AudioOf, pending, c, [], audio, []);
    Unit(audio);
  }

  lemma {:induction false} ContentTranscript(pending: string, c: Content)
    ensures FlatMap(TranscriptOf, ContentEvents(pending, c)) == if c.input == "" then [] else [c.input]
  {
    var said := if c.input == "" then [] else [c.input];
    HeardThrough(TranscriptOf, c);
    NoPartsThrough(TranscriptOf, c.parts);
    EndingThrough(TranscriptOf, TurnText(pending, c), c);
    ContentThrough(TranscriptOf, pending, c, said, [], []);
    Unit(said);
  }

  lemma {:induction false} ContentCalls(pending: string, c: Content)
    ensures FlatMap(CallsOf, ContentEvents(pending, c)) == []
  {
    HeardThrough(CallsOf, c);
    NoPartsThrough(CallsOf, c.parts);
    EndingThrough(CallsOf, TurnText(pending, c), c);
    ContentThrough(CallsOf, pending, c, [], [], []);
  }

  function Signals(c: Content): seq<Event> {
    (if c.interrupted then [Interrupted] else []) + if c.turnComplete then [TurnComplete] else []
  }

  lemma {:induction false} ContentSignals(pending: string, c: Content)
    ensures FlatMap(SignalOf, ContentEvents(pending, c)) == Signals(c)
  {
    HeardThrough(SignalOf, c);
    NoPartsThrough(SignalOf, c.parts);
    EndingThrough(SignalOf, TurnText(pending, c), c);
    ContentThrough(SignalOf, pending, c, [], [], Signals(c));
    Unit(Signals(c));
  }

  lemma {:induction false} PassesAudio(pending: string, m: Message)
    ensures FlatMap(AudioOf, MessageEvents(pending, m)) == SentAudio(m)
  {
    if m.Message? {
      if m.content.Some? { ContentAudio(pending, m.content.value); }
      MessageThrough(AudioOf, pending, m, SentAudio(m));
      Unit(SentAudio(m));
    }
  }

  lemma {:induction false} PassesTranscript(pending: string, m: Message)
    ensures FlatMap(TranscriptOf, MessageEvents(pending, m)) == SentTranscript(m)
  {
    if m.Message? {
      if m.content.Some? { ContentTranscript(pending, m.content.value); }
      MessageThrough(TranscriptOf, pending, m, SentTranscript(m));
      Unit(SentTranscript(m));
    }
  }

  lemma {:induction false} PassesCalls(pending: string, m: Message)
    ensures FlatMap(CallsOf, MessageEvents(pending, m)) == SentCalls(m)
  {
    if m.Message? {
      if m.content.Some? { ContentCalls(pending, m.content.value); }
      MessageThrough(CallsOf, pending, m, []);
      Unit(m.calls);
    }
  }

  lemma {:induction false} PassesSignals(pending: string, m: Message)
    ensures FlatMap(SignalOf, MessageEvents(pending, m)) == SentSignals(m)
  {
    if m.Message? {
      if m.content.Some? { ContentSignals(pending, m.content.value); }
      MessageThrough(SignalOf, pending, m, SentSignals(m));
      Unit(SentSignals(m));
    }
  }

  /**
    Over any stream: every decodable audio blob, every caller transcript, every interruption and completed turn
    and every tool call the server sent is passed on, in order, and no other is.
   */
  lemma {:induction false} AllIsPassedOn(pending: string, msgs: seq<Message>)
    ensures FlatMap(AudioOf, Trace(pending, msgs)) == FlatMap(SentAudio, msgs)
    ensures FlatMap(TranscriptOf, Trace(pending, msgs)) == FlatMap(SentTranscript, msgs)
    ensures FlatMap(SignalOf, Trace(pending, msgs)) == FlatMap(SentSignals, msgs)
    ensures FlatMap(CallsOf, Trace(pending, msgs)) == FlatMap(SentCalls, msgs)
  {
    assert Passes(AudioOf, SentAudio) by { forall p: string, m: Message { PassesAudio(p, m); } }
    assert Passes(TranscriptOf, SentTranscript) by { forall p: string, m: Message { PassesTranscript(p, m); } }
    assert Passes(SignalOf, SentSignals) by { forall p: string, m: Message { PassesSignals(p, m); } }
    assert Passes(CallsOf, SentCalls) by { forall p: string, m: Message { PassesCalls(p, m); } }
    PassedOn(AudioOf, SentAudio, pending, msgs);
    PassedOn(TranscriptOf, SentTranscript, pending, msgs);
    PassedOn(SignalOf, SentSignals, pending, msgs);
    PassedOn(CallsOf, SentCalls, pending, msgs);
  }
}
