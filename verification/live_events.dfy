/**
  The translation loop of voice/llm/gemini: server messages in, pipeline events out, with the text
  of a turn accumulated and repeated once as final.  Reading and decoding are inputs: a message that
  is not valid JSON is Malformed, and inline audio that is not valid base64 is Bad.
 */
module LiveEvents {
  import opened Wrappers

  datatype Audio = NoAudio | Bad | Good(data: seq<int>)

  datatype Part = Part(audio: Audio, text: string)

  /** Absent transcriptions are empty texts: both are skipped. */
  datatype Content = Content(input: string, output: string, parts: seq<Part>, interrupted: bool, turnComplete: bool)

  datatype ToolCall = ToolCall(id: string, name: string, args: string)

  datatype Message = Malformed | Message(content: Option<Content>, calls: seq<ToolCall>)

  datatype Event =
    | CallerTranscript(text: string)
    | AssistantText(text: string, final: bool)
    | AudioOut(data: seq<int>)
    | Interrupted
    | TurnComplete
    | ToolCalls(calls: seq<ToolCall>)

  // ----- one message

  function Streamed(text: string): seq<Event> {
    if text == "" then [] else [AssistantText(text, false)]
  }

  /** A part whose audio cannot be decoded is skipped whole, its text included. */
  function PartEvents(p: Part): seq<Event> {
    match p.audio
    case Bad => []
    case NoAudio => Streamed(p.text)
    case Good(data) => [AudioOut(data)] + Streamed(p.text)
  }

  function PartText(p: Part): string {
    if p.audio.Bad? then "" else p.text
  }

  function PartsEvents(ps: seq<Part>): seq<Event> {
    if ps == [] then [] else PartEvents(ps[0]) + PartsEvents(ps[1..])
  }

  function PartsText(ps: seq<Part>): string {
    if ps == [] then "" else PartText(ps[0]) + PartsText(ps[1..])
  }

  /** The text of the turn once the content has been read. */
  function TurnText(pending: string, c: Content): string {
    pending + c.output + PartsText(c.parts)
  }

  function Ending(text: string, c: Content): seq<Event> {
    (if c.interrupted then [Interrupted] else []) +
    if !c.turnComplete then [] else (if text == "" then [] else [AssistantText(text, true)]) + [TurnComplete]
  }

  function Heard(c: Content): seq<Event> {
    (if c.input == "" then [] else [CallerTranscript(c.input)]) + Streamed(c.output)
  }

  function ContentEvents(pending: string, c: Content): seq<Event> {
    Heard(c) + PartsEvents(c.parts) + Ending(TurnText(pending, c), c)
  }

  function MessageEvents(pending: string, m: Message): seq<Event> {
    if m.Malformed? then []
    else (if m.content.Some? then ContentEvents(pending, m.content.value) else [])
         + if m.calls == [] then [] else [ToolCalls(m.calls)]
  }

  function PendingAfter(pending: string, m: Message): string {
    if m.Malformed? || m.content.None? then pending
    else if m.content.value.turnComplete then "" else TurnText(pending, m.content.value)
  }

  // ----- the whole stream

  function Trace(pending: string, msgs: seq<Message>): seq<Event>
    decreases |msgs|
  {
    if msgs == [] then [] else MessageEvents(pending, msgs[0]) + Trace(PendingAfter(pending, msgs[0]), msgs[1..])
  }

  function Pending(pending: string, msgs: seq<Message>): string
    decreases |msgs|
  {
    if msgs == [] then pending else Pending(PendingAfter(pending, msgs[0]), msgs[1..])
  }

  /** What gets through when the context is done after `budget` events. */
  function Cut(evs: seq<Event>, budget: nat): seq<Event> {
    if |evs| <= budget then evs else evs[..budget]
  }

  lemma {:induction false} CutMore(a: seq<Event>, b: seq<Event>, budget: nat)
    requires |a| > budget
    ensures Cut(a + b, budget) == Cut(a, budget)
  {
  }

  /** Sends events one by one; a send fails once the context is done. */
  method Emit(out: seq<Event>, budget: nat, evs: seq<Event>) returns (ok: bool, out': seq<Event>)
    requires |out| <= budget
    ensures out' == Cut(out + evs, budget) && (ok <==> |out + evs| <= budget)
  {
    out' := out;
    for i := 0 to |evs|
      invariant out' == out + evs[..i] && |out'| <= budget
    {
      if |out'| == budget {
        assert (out + evs)[..budget] == out + evs[..i];
        return false, out';
      }
      out' := out' + [evs[i]];
      assert evs[..i + 1] == evs[..i] + [evs[i]];
    }
    assert evs[..|evs|] == evs;
    return true, out';
  }

  lemma {:induction false} PartsStep(ps: seq<Part>, i: nat)
    requires i < |ps|
    ensures PartsEvents(ps[i..]) == PartEvents(ps[i]) + PartsEvents(ps[i + 1..])
    ensures PartsText(ps[i..]) == PartText(ps[i]) + PartsText(ps[i + 1..])
  {
    assert ps[i..][1..] == ps[i + 1..];
  }

  /** The parts of a model turn: their audio and text are sent, and their text joins the turn. */
  method TranslateParts(ps: seq<Part>, turnText: string, out: seq<Event>, budget: nat)
    returns (ok: bool, turnText': string, out': seq<Event>)
    requires |out| <= budget
    ensures out' == Cut(out + PartsEvents(ps), budget) && (ok <==> |out + PartsEvents(ps)| <= budget)
    ensures ok ==> turnText' == turnText + PartsText(ps)
  {
    turnText', out' := turnText, out;
    ghost var all := out + PartsEvents(ps);
    for i := 0 to |ps|
      invariant |out'| <= budget && out' + PartsEvents(ps[i..]) == all
      invariant turnText' + PartsText(ps[i..]) == turnText + PartsText(ps)
    {
      PartsStep(ps, i);
      ghost var was, rest := out', PartsEvents(ps[i + 1..]);
      assert was + (PartEvents(ps[i]) + rest) == (was + PartEvents(ps[i])) + rest;
      ok, out' := Emit(out', budget, PartEvents(ps[i]));
      if !ok {
        CutMore(was + PartEvents(ps[i]), rest, budget);
        return;
      }
      assert turnText' + (PartText(ps[i]) + PartsText(ps[i + 1..])) ==
        (turnText' + PartText(ps[i])) + PartsText(ps[i + 1..]);
      turnText' := turnText' + PartText(ps[i]);
    }
    ok := true;
  }

  lemma {:induction false} CutInThree(out: seq<Event>, x: seq<Event>, y: seq<Event>, z: seq<Event>, budget: nat)
    ensures out + (x + y + z) == out + x + y + z
    ensures |out + x| > budget ==> Cut(out + (x + y + z), budget) == Cut(out + x, budget)
    ensures |out + x + y| > budget ==> Cut(out + (x + y + z), budget) == Cut(out + x + y, budget)
  {
    assert out + (x + y + z) == (out + x) + (y + z) == (out + x + y) + z;
    if |out + x| > budget { CutMore(out + x, y + z, budget); }
    if |out + x + y| > budget { CutMore(out + x + y, z, budget); }
  }

  method TranslateContent(c: Content, turnText: string, out: seq<Event>, budget: nat)
    returns (ok: bool, turnText': string, out': seq<Event>)
    requires |out| <= budget
    ensures out' == Cut(out + ContentEvents(turnText, c), budget)
    ensures ok <==> |out + ContentEvents(turnText, c)| <= budget
    ensures ok ==> turnText' == if c.turnComplete then "" else TurnText(turnText, c)
  {
    CutInThree(out, Heard(c), PartsEvents(c.parts), Ending(TurnText(turnText, c), c), budget);
    turnText' := turnText + c.output;
    ok, out' := Emit(out, budget, Heard(c));
    if !ok {
      return;
    }
    ok, turnText', out' := TranslateParts(c.parts, turnText', out', budget);
    if !ok {
      return;
    }
    ok, out' := Emit(out', budget, Ending(turnText', c));
    if ok && c.turnComplete {
      turnText' := "";
    }
  }

  /** One pass of the read loop. */
  method Translate(m: Message, turnText: string, out: seq<Event>, budget: nat)
    returns (ok: bool, turnText': string, out': seq<Event>)
    requires |out| <= budget
    ensures out' == Cut(out + MessageEvents(turnText, m), budget)
    ensures ok <==> |out + MessageEvents(turnText, m)| <= budget
    ensures ok ==> turnText' == PendingAfter(turnText, m)
  {
    ok, turnText', out' := true, turnText, out;
    if m.Malformed? {
      return;
    }
    ghost var x := if m.content.Some? then ContentEvents(turnText, m.content.value) else [];
    ghost var y := if m.calls == [] then [] else [ToolCalls(m.calls)];
    assert out + (x + y) == (out + x) + y;
    if m.content.Some? {
      ok, turnText', out' := TranslateContent(m.content.value, turnText, out', budget);
      if !ok {
        CutMore(out + x, y, budget);
        return;
      }
    }
    assert out' == out + x;
    if m.calls != [] {
      ok, out' := Emit(out', budget, [ToolCalls(m.calls)]);
    }
  }

  lemma {:induction false} TraceStep(pending: string, msgs: seq<Message>, i: nat, out: seq<Event>)
    requires i < |msgs|
    ensures out + Trace(pending, msgs[i..]) ==
            (out + MessageEvents(pending, msgs[i])) + Trace(PendingAfter(pending, msgs[i]), msgs[i + 1..])
  {
    var evs, rest := MessageEvents(pending, msgs[i]), Trace(PendingAfter(pending, msgs[i]), msgs[i + 1..]);
    assert Trace(pending, msgs[i..]) == evs + rest by { assert msgs[i..][1..] == msgs[i + 1..]; }
    Append(out, evs, rest);
  }

  lemma {:induction false} Append(a: seq<Event>, b: seq<Event>, c: seq<Event>)
    ensures a + (b + c) == (a + b) + c
  {
  }

  /** The read loop: stopping early, at any point, yields a prefix of the full trace. */
  method Events(msgs: seq<Message>, budget: nat) returns (out: seq<Event>)
    ensures out == Cut(Trace("", msgs), budget)
    ensures out <= Trace("", msgs)
  {
    out := [];
    var turnText := "";
    ghost var all := Trace("", msgs);
    for i := 0 to |msgs|
      invariant |out| <= budget && out + Trace(turnText, msgs[i..]) == all
    {
      ghost var was, evs, rest := out, MessageEvents(turnText, msgs[i]),
        Trace(PendingAfter(turnText, msgs[i]), msgs[i + 1..]);
      TraceStep(turnText, msgs, i, out);
      var ok;
      ok, turnText, out := Translate(msgs[i], turnText, out, budget);
      if !ok {
        CutMore(was + evs, rest, budget);
        return;
      }
    }
  }

  // ----- the text is conserved

  function FinalText(e: Event): string {
    if e.AssistantText? && e.final then e.text else ""
  }

  function StreamedText(e: Event): string {
    if e.AssistantText? && !e.final then e.text else ""
  }

  function Finals(evs: seq<Event>): string {
    if evs == [] then "" else FinalText(evs[0]) + Finals(evs[1..])
  }

  function NonFinals(evs: seq<Event>): string {
    if evs == [] then "" else StreamedText(evs[0]) + NonFinals(evs[1..])
  }

  function Collect(heard: string, e: Event): string {
    if !e.AssistantText? then heard else if e.final then "" else heard + e.text
  }

  /** What a listener who has collected `heard` since the last final text collects by the end. */
  function Collected(heard: string, evs: seq<Event>): string
    decreases |evs|
  {
    if evs == [] then heard else Collected(Collect(heard, evs[0]), evs[1..])
  }

  /** To such a listener every final text repeats what it collected, and a turn completes right after it. */
  ghost predicate Told(heard: string, evs: seq<Event>)
    decreases |evs|
  {
    evs == [] ||
    match evs[0]
    case AssistantText(text, final) =>
      if final then text == heard && text != "" && (|evs| > 1 ==> evs[1].TurnComplete?) && Told("", evs[1..])
      else Told(heard + text, evs[1..])
    case TurnComplete => heard == "" && Told(heard, evs[1..])
    case _ => Told(heard, evs[1..])
  }

  lemma {:induction false} ToldConcat(heard: string, a: seq<Event>, b: seq<Event>)
    requires Told(heard, a) && Told(Collected(heard, a), b)
    requires a == [] || b == [] || !(a[|a| - 1].AssistantText? && a[|a| - 1].final)
    ensures Told(heard, a + b) && Collected(heard, a + b) == Collected(Collected(heard, a), b)
    decreases |a|
  {
    if a == [] {
      assert a + b == b;
    } else {
      assert (a + b)[1..] == a[1..] + b;
      ToldConcat(Collect(heard, a[0]), a[1..], b);
    }
  }

  lemma {:induction false} ToldPrefix(heard: string, evs: seq<Event>, k: nat)
    requires Told(heard, evs) && k <= |evs|
    ensures Told(heard, evs[..k])
    decreases |evs|
  {
    if k > 0 {
      assert evs[..k][1..] == evs[1..][..k - 1];
      ToldPrefix(Collect(heard, evs[0]), evs[1..], k - 1);
    }
  }

  lemma {:induction false} ConserveStep(heard: string, e: Event, n: string, f: string, c: string)
    requires Collect(heard, e) + n == f + c && (e.AssistantText? && e.final ==> e.text == heard)
    ensures heard + (StreamedText(e) + n) == (FinalText(e) + f) + c
  {
    if e.AssistantText? && e.final {
      assert "" + n == n;
      assert heard + (f + c) == (heard + f) + c;
    } else {
      assert "" + f == f;
      assert heard + (StreamedText(e) + n) == (heard + StreamedText(e)) + n;
      assert heard + StreamedText(e) == Collect(heard, e);
    }
  }

  /** Telling implies conservation: finals plus what is still pending are the streamed texts. */
  lemma {:induction false} ToldConserves(heard: string, evs: seq<Event>)
    requires Told(heard, evs)
    ensures heard + NonFinals(evs) == Finals(evs) + Collected(heard, evs)
    decreases |evs|
  {
    if evs != [] {
      var h := Collect(heard, evs[0]);
      ToldConserves(h, evs[1..]);
      ConserveStep(heard, evs[0], NonFinals(evs[1..]), Finals(evs[1..]), Collected(h, evs[1..]));
    }
  }

  lemma {:induction false} StreamedTold(heard: string, text: string)
    ensures Told(heard, Streamed(text)) && Collected(heard, Streamed(text)) == heard + text
  {
    if text == "" { assert heard + text == heard; } else { assert Streamed(text)[1..] == []; }
  }

  lemma {:induction false} PartTold(heard: string, p: Part)
    ensures Told(heard, PartEvents(p)) && Collected(heard, PartEvents(p)) == heard + PartText(p)
  {
    StreamedTold(heard, p.text);
    match p.audio
    case Bad => assert heard + "" == heard;
    case NoAudio =>
    case Good(data) => assert PartEvents(p)[1..] == Streamed(p.text);
  }

  ghost predicate NoFinal(evs: seq<Event>) {
    forall i :: 0 <= i < |evs| ==> !(evs[i].AssistantText? && evs[i].final)
  }

  lemma {:induction false} PartsNoFinal(ps: seq<Part>)
    ensures NoFinal(PartsEvents(ps))
  {
    if ps != [] { PartsNoFinal(ps[1..]); }
  }

  lemma {:induction false} ToldBoth(heard: string, a: seq<Event>, x: string, b: seq<Event>, y: string)
    requires Told(heard, a) && Collected(heard, a) == heard + x && NoFinal(a)
    requires Told(heard + x, b) && Collected(heard + x, b) == heard + x + y
    ensures Told(heard, a + b) && Collected(heard, a + b) == heard + (x + y)
  {
    ToldConcat(heard, a, b);
    Assoc(heard, x, y);
  }

  lemma {:induction false} Assoc(a: string, b: string, c: string)
    ensures a + (b + c) == a + b + c
  {
  }

  lemma {:induction false} PartsTold(heard: string, ps: seq<Part>)
    ensures Told(heard, PartsEvents(ps)) && Collected(heard, PartsEvents(ps)) == heard + PartsText(ps)
    decreases |ps|
  {
    if ps == [] {
      assert heard + "" == heard;
    } else {
      PartTold(heard, ps[0]);
      PartsTold(heard + PartText(ps[0]), ps[1..]);
      PartEnd(ps[0]);
      ToldBoth(heard, PartEvents(ps[0]), PartText(ps[0]), PartsEvents(ps[1..]), PartsText(ps[1..]));
    }
  }

  lemma {:induction false} PartEnd(p: Part)
    ensures NoFinal(PartEvents(p))
  {
  }

  lemma {:induction false} HeardTold(heard: string, c: Content)
    ensures Told(heard, Heard(c)) && Collected(heard, Heard(c)) == heard + c.output && NoFinal(Heard(c))
  {
    StreamedTold(heard, c.output);
    if c.input == "" {
      assert Heard(c) == Streamed(c.output);
    } else {
      assert Heard(c)[1..] == Streamed(c.output);
    }
  }

  function Done(text: string): seq<Event> {
    (if text == "" then [] else [AssistantText(text, true)]) + [TurnComplete]
  }

  lemma {:induction false} DoneTold(text: string)
    ensures Told(text, Done(text)) && Collected(text, Done(text)) == ""
  {
    var d := Done(text);
    if text == "" {
      assert d == [TurnComplete] && d[1..] == [];
    } else {
      assert d == [AssistantText(text, true), TurnComplete] && d[1..] == [TurnComplete] && d[1..][1..] == [];
      assert Told("", d[1..]) && Collected("", d[1..]) == "";
    }
  }

  lemma {:induction false} EndingTold(text: string, c: Content)
    ensures Told(text, Ending(text, c))
    ensures Collected(text, Ending(text, c)) == if c.turnComplete then "" else text
    ensures Ending(text, c) != [] ==> !Ending(text, c)[|Ending(text, c)| - 1].AssistantText?
  {
    var tail := if c.turnComplete then Done(text) else [];
    DoneTold(text);
    if c.interrupted {
      assert Ending(text, c) == [Interrupted] + tail;
      assert ([Interrupted] + tail)[1..] == tail;
    } else {
      assert Ending(text, c) == tail;
    }
  }

  lemma {:induction false} FrontTold(pending: string, c: Content)
    ensures var evs := Heard(c) + PartsEvents(c.parts);
      Told(pending, evs) && Collected(pending, evs) == TurnText(pending, c) && NoFinal(evs)
  {
    var x, y, text := Heard(c), PartsEvents(c.parts), PartsText(c.parts);
    assert Told(pending, x) && Collected(pending, x) == pending + c.output && NoFinal(x) by { HeardTold(pending, c); }
    PartsTold(pending + c.output, c.parts);
    PartsNoFinal(c.parts);
    ToldBoth(pending, x, c.output, y, text);
    Assoc(pending, c.output, text);
  }

  lemma {:induction false} ContentTold(pending: string, c: Content)
    ensures Told(pending, ContentEvents(pending, c))
    ensures Collected(pending, ContentEvents(pending, c)) == if c.turnComplete then "" else TurnText(pending, c)
    ensures var evs := ContentEvents(pending, c); evs != [] ==> !(evs[|evs| - 1].AssistantText? && evs[|evs| - 1].final)
  {
    var text := TurnText(pending, c);
    FrontTold(pending, c);
    EndingTold(text, c);
    ToldConcat(pending, Heard(c) + PartsEvents(c.parts), Ending(text, c));
  }

  lemma {:induction false} MessageTold(pending: string, m: Message)
    ensures Told(pending, MessageEvents(pending, m))
      && Collected(pending, MessageEvents(pending, m)) == PendingAfter(pending, m)
    ensures var evs := MessageEvents(pending, m); evs != [] ==> !(evs[|evs| - 1].AssistantText? && evs[|evs| - 1].final)
  {
    if m.Message? {
      var x: seq<Event> := if m.content.Some? then ContentEvents(pending, m.content.value) else [];
      var y: seq<Event> := if m.calls == [] then [] else [ToolCalls(m.calls)];
      if m.content.Some? { ContentTold(pending, m.content.value); }
      if y != [] { assert y[1..] == []; }
      ToldConcat(pending, x, y);
    }
  }

  /** A listener is told the truth over every stream of messages, and ends with the loop's accumulator. */
  lemma {:induction false} TraceTold(pending: string, msgs: seq<Message>)
    ensures Told(pending, Trace(pending, msgs)) && Collected(pending, Trace(pending, msgs)) == Pending(pending, msgs)
    decreases |msgs|
  {
    if msgs != [] {
      MessageTold(pending, msgs[0]);
      TraceTold(PendingAfter(pending, msgs[0]), msgs[1..]);
      ToldConcat(pending, MessageEvents(pending, msgs[0]), Trace(PendingAfter(pending, msgs[0]), msgs[1..]));
    }
  }

  /** All final texts plus the pending accumulator are all streamed texts, and those are the texts kept, in order. */
  lemma {:induction false} TextIsConserved(msgs: seq<Message>)
    ensures NonFinals(Trace("", msgs)) == Finals(Trace("", msgs)) + Pending("", msgs) == KeptText(msgs)
  {
    var evs := Trace("", msgs);
    assert Told("", evs) && Collected("", evs) == Pending("", msgs) by { TraceTold("", msgs); }
    ToldFromStart(evs);
    StreamedIsKept("", msgs);
  }

  lemma {:induction false} ToldFromStart(evs: seq<Event>)
    requires Told("", evs)
    ensures NonFinals(evs) == Finals(evs) + Collected("", evs)
  {
    ToldConserves("", evs);
    assert "" + NonFinals(evs) == NonFinals(evs);
  }

  // ----- and it is what the server sent

  /** The text of a part as the server sent it, and how much of it PartText drops. */
  function PartsSent(ps: seq<Part>): string {
    if ps == [] then "" else ps[0].text + PartsSent(ps[1..])
  }

  function PartsLost(ps: seq<Part>): nat {
    if ps == [] then 0 else (if ps[0].audio.Bad? then |ps[0].text| else 0) + PartsLost(ps[1..])
  }

  function Sent(m: Message): string {
    if m.Malformed? || m.content.None? then "" else m.content.value.output + PartsSent(m.content.value.parts)
  }

  function Kept(m: Message): string {
    if m.Malformed? || m.content.None? then "" else m.content.value.output + PartsText(m.content.value.parts)
  }

  function Lost(m: Message): nat {
    if m.Malformed? || m.content.None? then 0 else PartsLost(m.content.value.parts)
  }

  /** Everything the model said, in order: output transcriptions and the text of every part. */
  function ServerText(msgs: seq<Message>): string {
    if msgs == [] then "" else Sent(msgs[0]) + ServerText(msgs[1..])
  }

  function KeptText(msgs: seq<Message>): string {
    if msgs == [] then "" else Kept(msgs[0]) + KeptText(msgs[1..])
  }

  function TextLost(msgs: seq<Message>): nat {
    if msgs == [] then 0 else Lost(msgs[0]) + TextLost(msgs[1..])
  }

  lemma {:induction false} PartsSentOrLost(ps: seq<Part>)
    ensures |PartsSent(ps)| == |PartsText(ps)| + PartsLost(ps)
    ensures PartsLost(ps) == 0 ==> PartsSent(ps) == PartsText(ps)
  {
    if ps != [] { PartsSentOrLost(ps[1..]); }
  }

  lemma {:induction false} SentOrLost(msgs: seq<Message>)
    ensures |ServerText(msgs)| == |KeptText(msgs)| + TextLost(msgs)
    ensures TextLost(msgs) == 0 ==> ServerText(msgs) == KeptText(msgs)
  {
    if msgs != [] {
      SentOrLost(msgs[1..]);
      if msgs[0].Message? && msgs[0].content.Some? { PartsSentOrLost(msgs[0].content.value.parts); }
    }
  }

  /** No part with audio that cannot be decoded carries text. */
  ghost predicate PartsHeard(ps: seq<Part>) {
    forall i :: 0 <= i < |ps| ==> ps[i].audio.Bad? ==> ps[i].text == ""
  }

  ghost predicate MessageHeard(m: Message) {
    m.Message? && m.content.Some? ==> PartsHeard(m.content.value.parts)
  }

  lemma {:induction false} NothingLostIff(ps: seq<Part>)
    ensures PartsLost(ps) == 0 <==> PartsHeard(ps)
  {
    if ps != [] {
      NothingLostIff(ps[1..]);
      assert PartsHeard(ps) <==> (ps[0].audio.Bad? ==> ps[0].text == "") && PartsHeard(ps[1..]) by {
        assert forall i :: 1 <= i < |ps| ==> ps[i] == ps[1..][i - 1];
      }
    }
  }

  lemma {:induction false} NoTextLostIff(msgs: seq<Message>)
    ensures TextLost(msgs) == 0 <==> forall i :: 0 <= i < |msgs| ==> MessageHeard(msgs[i])
  {
    if msgs != [] {
      NoTextLostIff(msgs[1..]);
      assert Lost(msgs[0]) == 0 <==> MessageHeard(msgs[0]) by {
        if msgs[0].Message? && msgs[0].content.Some? { NothingLostIff(msgs[0].content.value.parts); }
      }
      assert forall i :: 1 <= i < |msgs| ==> msgs[i] == msgs[1..][i - 1];
    }
  }

  lemma {:induction false} NonFinalsConcat(a: seq<Event>, b: seq<Event>)
    ensures NonFinals(a + b) == NonFinals(a) + NonFinals(b)
  {
    if a == [] {
      assert a + b == b;
    } else {
      assert (a + b)[1..] == a[1..] + b;
      NonFinalsConcat(a[1..], b);
      Assoc(StreamedText(a[0]), NonFinals(a[1..]), NonFinals(b));
    }
  }

  lemma {:induction false} NonFinalsOfPart(p: Part)
    ensures NonFinals(PartEvents(p)) == PartText(p)
  {
    NonFinalsOfStreamed(p.text);
    if p.audio.Good? { NonFinalsConcat([AudioOut(p.audio.data)], Streamed(p.text)); }
  }

  lemma {:induction false} NonFinalsOfStreamed(text: string)
    ensures NonFinals(Streamed(text)) == text
  {
    if text != "" { assert Streamed(text)[1..] == []; }
  }

  lemma {:induction false} NonFinalsOfParts(ps: seq<Part>)
    ensures NonFinals(PartsEvents(ps)) == PartsText(ps)
  {
    if ps != [] {
      NonFinalsOfParts(ps[1..]);
      NonFinalsOfPart(ps[0]);
      NonFinalsConcat(PartEvents(ps[0]), PartsEvents(ps[1..]));
    }
  }

  lemma {:induction false} NonFinalsOfHeard(c: Content)
    ensures NonFinals(Heard(c)) == c.output
  {
    NonFinalsOfStreamed(c.output);
    if c.input != "" { NonFinalsConcat([CallerTranscript(c.input)], Streamed(c.output)); }
  }

  lemma {:induction false} NoStreamedText(evs: seq<Event>)
    requires forall i :: 0 <= i < |evs| ==> StreamedText(evs[i]) == ""
    ensures NonFinals(evs) == ""
  {
    if evs != [] { NoStreamedText(evs[1..]); }
  }

  lemma {:induction false} NonFinalsOfContent(pending: string, c: Content)
    ensures NonFinals(ContentEvents(pending, c)) == c.output + PartsText(c.parts)
  {
    var x, y, z := Heard(c), PartsEvents(c.parts), Ending(TurnText(pending, c), c);
    NonFinalsConcat(x + y, z);
    NonFinalsConcat(x, y);
    NonFinalsOfHeard(c);
    NonFinalsOfParts(c.parts);
    NonFinalsOfEnding(TurnText(pending, c), c);
  }

  lemma {:induction false} NonFinalsOfEnding(text: string, c: Content)
    ensures NonFinals(Ending(text, c)) == ""
  {
    NoStreamedText(Ending(text, c));
  }

  lemma {:induction false} NonFinalsOfMessage(pending: string, m: Message)
    ensures NonFinals(MessageEvents(pending, m)) == Kept(m)
  {
    if m.Message? {
      var x: seq<Event> := if m.content.Some? then ContentEvents(pending, m.content.value) else [];
      var y: seq<Event> := if m.calls == [] then [] else [ToolCalls(m.calls)];
      NonFinalsConcat(x, y);
      NoStreamedText(y);
      if m.content.Some? { NonFinalsOfContent(pending, m.content.value); }
    }
  }

  /** The streamed texts are exactly the texts the loop does not drop. */
  lemma {:induction false} StreamedIsKept(pending: string, msgs: seq<Message>)
    ensures NonFinals(Trace(pending, msgs)) == KeptText(msgs)
    decreases |msgs|
  {
    if msgs != [] {
      var after := PendingAfter(pending, msgs[0]);
      StreamedIsKept(after, msgs[1..]);
      NonFinalsOfMessage(pending, msgs[0]);
      NonFinalsConcat(MessageEvents(pending, msgs[0]), Trace(after, msgs[1..]));
    }
  }

  /** All text the server sent is streamed, in order, iff no part with undecodable audio carries text. */
  lemma {:induction false} AllTextStreamedIff(pending: string, msgs: seq<Message>)
    ensures NonFinals(Trace(pending, msgs)) == ServerText(msgs) <==>
            forall i :: 0 <= i < |msgs| ==> MessageHeard(msgs[i])
  {
    StreamedIsKept(pending, msgs);
    SentOrLost(msgs);
    NoTextLostIff(msgs);
  }

  /** A greeting beside a broken audio blob is never heard. */
  lemma {:induction false} BadAudioLosesText()
    ensures var msgs := [Message(Some(Content("", "", [Part(Bad, "hi")], false, true)), [])];
      ServerText(msgs) == "hi" && Trace("", msgs) == [TurnComplete]
  {
    var ps := [Part(Bad, "hi")];
    var msgs := [Message(Some(Content("", "", ps, false, true)), [])];
    assert ps[1..] == [] && msgs[1..] == [];
    assert PartsSent(ps) == "hi" && PartsEvents(ps) == [] && PartsText(ps) == "";
  }

  /** However early the loop stops, what came out is still told truthfully; finals never run ahead. */
  lemma {:induction false} EarlyStopIsTold(msgs: seq<Message>, budget: nat)
    ensures var out := Cut(Trace("", msgs), budget);
      Told("", out) && Finals(out) <= NonFinals(out)
  {
    var all := Trace("", msgs);
    var out := Cut(all, budget);
    TraceTold("", msgs);
    ToldPrefix("", all, |out|);
    assert out == all[..|out|];
    ToldConserves("", out);
    assert "" + NonFinals(out) == NonFinals(out);
  }

  lemma {:induction false} ToldFinalAt(heard: string, evs: seq<Event>, i: nat)
    requires Told(heard, evs) && i < |evs| && evs[i].AssistantText? && evs[i].final
    ensures evs[i].text != "" && (i + 1 < |evs| ==> evs[i + 1].TurnComplete?)
    decreases |evs|
  {
    if i > 0 {
      ToldFinalAt(Collect(heard, evs[0]), evs[1..], i - 1);
    }
  }

  /** In a full trace every final text is followed at once by the completion of its turn. */
  lemma {:induction false} FinalThenTurnComplete(msgs: seq<Message>, i: nat)
    requires i < |Trace("", msgs)| && Trace("", msgs)[i].AssistantText? && Trace("", msgs)[i].final
    ensures i + 1 < |Trace("", msgs)| && Trace("", msgs)[i + 1] == TurnComplete
  {
    TraceTold("", msgs);
    ToldFinalAt("", Trace("", msgs), i);
    TraceEnd("", msgs);
  }

  /** The last event is a final text. */
  ghost predicate EndsFinal(evs: seq<Event>) {
    evs != [] && evs[|evs| - 1].AssistantText? && evs[|evs| - 1].final
  }

  lemma {:induction false} EndOfConcat(a: seq<Event>, b: seq<Event>)
    requires !EndsFinal(a) && !EndsFinal(b)
    ensures !EndsFinal(a + b)
  {
  }

  lemma {:induction false} TraceEnd(pending: string, msgs: seq<Message>)
    ensures !EndsFinal(Trace(pending, msgs))
    decreases |msgs|
  {
    if msgs != [] {
      var after := PendingAfter(pending, msgs[0]);
      MessageTold(pending, msgs[0]);
      TraceEnd(after, msgs[1..]);
      EndOfConcat(MessageEvents(pending, msgs[0]), Trace(after, msgs[1..]));
    }
  }

  /** Where an event of one message may stand. */
  function Rank(e: Event): nat {
    match e
    case CallerTranscript(_) => 0
    case AssistantText(_, final) => if final then 3 else 1
    case AudioOut(_) => 1
    case Interrupted => 2
    case TurnComplete => 4
    case ToolCalls(_) => 5
  }

  /** In non-decreasing rank, all between lo and hi. */
  ghost predicate Ranked(evs: seq<Event>, lo: nat, hi: nat) {
    && (forall i :: 0 <= i < |evs| ==> lo <= Rank(evs[i]) <= hi)
    && (forall i, j :: 0 <= i < j < |evs| ==> Rank(evs[i]) <= Rank(evs[j]))
  }

  lemma {:induction false} RankedConcat(a: seq<Event>, b: seq<Event>, lo: nat, mid: nat, hi: nat)
    requires Ranked(a, lo, mid) && Ranked(b, mid, hi)
    ensures lo <= mid <= hi ==> Ranked(a + b, lo, hi)
  {
  }

  lemma {:induction false} PartsRank(ps: seq<Part>)
    ensures Ranked(PartsEvents(ps), 1, 1)
  {
    if ps != [] {
      PartsRank(ps[1..]);
      RankedConcat(PartEvents(ps[0]), PartsEvents(ps[1..]), 1, 1, 1);
    }
  }

  lemma {:induction false} EndsRank(c: Content, text: string)
    ensures Ranked(Heard(c), 0, 1) && Ranked(Ending(text, c), 1, 4)
  {
  }

  lemma {:induction false} ContentRank(pending: string, c: Content)
    ensures Ranked(ContentEvents(pending, c), 0, 4)
  {
    var x, y, z := Heard(c), PartsEvents(c.parts), Ending(TurnText(pending, c), c);
    PartsRank(c.parts);
    EndsRank(c, TurnText(pending, c));
    RankedConcat(x, y, 0, 1, 1);
    RankedConcat(x + y, z, 0, 1, 4);
  }

  lemma {:induction false} RankedThenCalls(x: seq<Event>, calls: seq<ToolCall>)
    requires Ranked(x, 0, 4)
    ensures Ranked(x + if calls == [] then [] else [ToolCalls(calls)], 0, 5)
  {
    RankedConcat(x, if calls == [] then [] else [ToolCalls(calls)], 0, 4, 5);
  }

  /** Caller, then assistant and audio, then interruption, final text, turn completion and tool calls. */
  lemma {:induction false} MessageInOrder(pending: string, m: Message)
    ensures Ranked(MessageEvents(pending, m), 0, 5)
  {
    if m.Message? {
      if m.content.Some? {
        ContentRank(pending, m.content.value);
        RankedThenCalls(ContentEvents(pending, m.content.value), m.calls);
      } else {
        RankedThenCalls([], m.calls);
      }
    }
  }
}
