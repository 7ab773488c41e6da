/**
  How ai/llm/geminitext renders a conversation for the Gemini API: runs of tool turns become one
  model content with all calls and one user content with all responses.
 */
module History {
  import opened Wrappers

  /** A decoded JSON value; rendering only carries it along. */
  datatype Value = Value(json: string)

  /** The roles a turn can have; any string other than "tool" and "assistant" counts as the user's. */
  datatype TurnRole = ToolRole | Assistant | Other(name: string)

  /** The two roles of a Gemini content. */
  datatype Speaker = Model | User

  datatype Turn = Turn(role: TurnRole, text: string, toolName: string, toolArgs: Value, toolResult: Value,
    toolSig: string)

  datatype FunctionCall = FunctionCall(name: string, args: Value)

  datatype FunctionResponse = FunctionResponse(name: string, result: Value)

  datatype Part = Part(text: string, call: Option<FunctionCall>, response: Option<FunctionResponse>, sig: string)

  datatype Content = Content(role: Speaker, parts: seq<Part>)

  predicate IsTool(t: Turn) {
    t.role.ToolRole?
  }

  function CallPart(t: Turn): Part {
    Part("", Some(FunctionCall(t.toolName, t.toolArgs)), None, t.toolSig)
  }

  function ResponsePart(t: Turn): Part {
    Part("", None, Some(FunctionResponse(t.toolName, t.toolResult)), "")
  }

  function TextContent(role: Speaker, text: string): Content {
    Content(role, [Part(text, None, None, "")])
  }

  /** turnContents: one turn on its own. */
  function TurnContents(t: Turn): seq<Content> {
    if IsTool(t) then [Content(Model, [CallPart(t)]), Content(User, [ResponsePart(t)])]
    else [TextContent(if t.role.Assistant? then Model else User, t.text)]
  }

  function CallParts(run: seq<Turn>): seq<Part> {
    if run == [] then [] else [CallPart(run[0])] + CallParts(run[1..])
  }

  function ResponseParts(run: seq<Turn>): seq<Part> {
    if run == [] then [] else [ResponsePart(run[0])] + ResponseParts(run[1..])
  }

  function Group(run: seq<Turn>): seq<Content> {
    [Content(Model, CallParts(run)), Content(User, ResponseParts(run))]
  }

  /** How many tool turns a history starts with. */
  function LeadingTools(h: seq<Turn>): (n: nat)
    ensures n <= |h|
    ensures forall i :: 0 <= i < n ==> IsTool(h[i])
    ensures n < |h| ==> !IsTool(h[n])
  {
    if h == [] || !IsTool(h[0]) then 0 else 1 + LeadingTools(h[1..])
  }

  /** The grouped rendering. */
  function Rendered(h: seq<Turn>): seq<Content>
    decreases |h|
  {
    if h == [] then []
    else if IsTool(h[0]) then
      var n := LeadingTools(h);
      Group(h[..n]) + Rendered(h[n..])
    else TurnContents(h[0]) + Rendered(h[1..])
  }

  function Trailing(userText: string): seq<Content> {
    if userText == "" then [] else [TextContent(User, userText)]
  }

  lemma {:induction false} PartsAppend(run: seq<Turn>, t: Turn)
    ensures CallParts(run + [t]) == CallParts(run) + [CallPart(t)]
    ensures ResponseParts(run + [t]) == ResponseParts(run) + [ResponsePart(t)]
  {
    if run != [] {
      PartsAppend(run[1..], t);
      assert (run + [t])[1..] == run[1..] + [t];
    }
  }

  lemma {:induction false} LeadingToolsIs(h: seq<Turn>, n: nat)
    requires n <= |h| && (forall i :: 0 <= i < n ==> IsTool(h[i])) && (n < |h| ==> !IsTool(h[n]))
    ensures LeadingTools(h) == n
  {
    if n > 0 { LeadingToolsIs(h[1..], n - 1); }
  }

  method RenderRun(run: seq<Turn>) returns (callParts: seq<Part>, respParts: seq<Part>)
    ensures callParts == CallParts(run) && respParts == ResponseParts(run)
  {
    callParts, respParts := [], [];
    for k := 0 to |run|
      invariant callParts == CallParts(run[..k]) && respParts == ResponseParts(run[..k])
    {
      PartsAppend(run[..k], run[k]);
      assert run[..k + 1] == run[..k] + [run[k]];
      callParts := callParts + [CallPart(run[k])];
      respParts := respParts + [ResponsePart(run[k])];
    }
    assert run[..|run|] == run;
  }

  lemma {:induction false} RenderRunFirst(h: seq<Turn>, n: nat)
    requires 0 < n <= |h| && (forall i :: 0 <= i < n ==> IsTool(h[i])) && (n < |h| ==> !IsTool(h[n]))
    ensures Rendered(h) == Group(h[..n]) + Rendered(h[n..])
  {
    LeadingToolsIs(h, n);
  }

  lemma {:induction false} ToolRunAt(h: seq<Turn>, i: nat, j: nat)
    requires i < j <= |h| && (forall k :: i <= k < j ==> IsTool(h[k])) && (j < |h| ==> !IsTool(h[j]))
    ensures Rendered(h[i..]) == Group(h[i..j]) + Rendered(h[j..])
  {
    RenderRunFirst(h[i..], j - i);
    assert h[i..][..j - i] == h[i..j] && h[i..][j - i..] == h[j..];
  }

  lemma {:induction false} TextAt(h: seq<Turn>, i: nat)
    requires i < |h| && !IsTool(h[i])
    ensures Rendered(h[i..]) == TurnContents(h[i]) + Rendered(h[i + 1..])
  {
    assert h[i..][1..] == h[i + 1..];
  }

  method EndOfRun(history: seq<Turn>, i: nat) returns (j: nat)
    requires i < |history| && IsTool(history[i])
    ensures i < j <= |history| && (forall k :: i <= k < j ==> IsTool(history[k]))
    ensures j < |history| ==> !IsTool(history[j])
  {
    j := i;
    while j < |history| && history[j].role.ToolRole?
      invariant i <= j <= |history|
      invariant forall k :: i <= k < j ==> IsTool(history[k])
    {
      j := j + 1;
    }
  }

  method ChatContents(history: seq<Turn>, userText: string) returns (out: seq<Content>)
    ensures out == Rendered(history) + Trailing(userText)
  {
    out := [];
    var i := 0;
    while i < |history|
      invariant 0 <= i <= |history|
      invariant out + Rendered(history[i..]) == Rendered(history)
    {
      ghost var was := out;
      if history[i].role.ToolRole? {
        var j := EndOfRun(history, i);
        var callParts, respParts := RenderRun(history[i..j]);
        ToolRunAt(history, i, j);
        out := out + [Content(Model, callParts), Content(User, respParts)];
        assert out + Rendered(history[j..]) == was + (Group(history[i..j]) + Rendered(history[j..]));
        i := j;
      } else {
        TextAt(history, i);
        out := out + TurnContents(history[i]);
        assert out + Rendered(history[i + 1..]) == was + (TurnContents(history[i]) + Rendered(history[i + 1..]));
        i := i + 1;
      }
    }
    if userText != "" {
      out := out + [Content(User, [Part(userText, None, None, "")])];
    }
  }

  lemma {:induction false} SplitFirst(h: seq<Turn>, tail: seq<Content>)
    requires h != []
    ensures IsTool(h[0]) ==> var n := LeadingTools(h);
      n > 0 && Rendered(h) + tail == Group(h[..n]) + (Rendered(h[n..]) + tail)
    ensures !IsTool(h[0]) ==> Rendered(h) + tail == TurnContents(h[0]) + (Rendered(h[1..]) + tail)
  {
    if IsTool(h[0]) {
      var n := LeadingTools(h);
      assert Group(h[..n]) + Rendered(h[n..]) + tail == Group(h[..n]) + (Rendered(h[n..]) + tail);
    } else {
      assert TurnContents(h[0]) + Rendered(h[1..]) + tail == TurnContents(h[0]) + (Rendered(h[1..]) + tail);
    }
  }

  // ----- the same as rendering turn by turn and merging adjacent tool pairs

  predicate IsCall(c: Content) {
    c.parts != [] && c.parts[0].call.Some?
  }

  predicate StartsWithPair(cs: seq<Content>) {
    |cs| >= 2 && IsCall(cs[0])
  }

  /** Puts a call and its response in front, merged into a pair that already leads. */
  function Merge(call: Content, response: Content, rest: seq<Content>): seq<Content> {
    if StartsWithPair(rest)
    then [Content(Model, call.parts + rest[0].parts), Content(User, response.parts + rest[1].parts)] + rest[2..]
    else [call, response] + rest
  }

  function Regroup(cs: seq<Content>): seq<Content>
    decreases |cs|
  {
    if cs == [] then []
    else if StartsWithPair(cs) then Merge(cs[0], cs[1], Regroup(cs[2..]))
    else [cs[0]] + Regroup(cs[1..])
  }

  function TurnByTurn(h: seq<Turn>): seq<Content> {
    if h == [] then [] else TurnContents(h[0]) + TurnByTurn(h[1..])
  }

  lemma {:induction false} RenderToolFirst(h: seq<Turn>)
    requires h != [] && IsTool(h[0])
    ensures Rendered(h) == Merge(TurnContents(h[0])[0], TurnContents(h[0])[1], Rendered(h[1..]))
  {
    var t, rest := h[0], h[1..];
    var n := LeadingTools(rest);
    assert LeadingTools(h) == n + 1;
    assert h[..n + 1] == [t] + rest[..n] && h[n + 1..] == rest[n..];
    assert ([t] + rest[..n])[1..] == rest[..n];
    if n == 0 {
      assert rest[..0] == [] && rest[0..] == rest;
      assert CallParts(h[..1]) == [CallPart(t)] && ResponseParts(h[..1]) == [ResponsePart(t)];
      if rest != [] { assert Rendered(rest)[0] == TurnContents(rest[0])[0]; }
    } else {
      assert Rendered(rest) == Group(rest[..n]) + Rendered(rest[n..]);
      assert CallParts(rest[..n])[0] == CallPart(rest[0]);
      assert Rendered(rest)[2..] == Rendered(rest[n..]);
    }
  }

  /** chatContents is the turn-by-turn rendering with adjacent tool pairs merged into maximal groups. */
  lemma {:induction false} RenderedIsRegrouped(h: seq<Turn>)
    ensures Rendered(h) == Regroup(TurnByTurn(h))
  {
    if h != [] {
      RenderedIsRegrouped(h[1..]);
      var cs, rest := TurnByTurn(h), TurnByTurn(h[1..]);
      if IsTool(h[0]) {
        RenderToolFirst(h);
        assert cs[2..] == rest;
      } else {
        assert cs[1..] == rest;
      }
    }
  }

  // ----- the shape the API asks for

  predicate IsText(c: Content) {
    |c.parts| == 1 && c.parts[0].call.None? && c.parts[0].response.None?
  }

  /** A call group and the response group that answers it, position by position. */
  ghost predicate Answers(calls: Content, responses: Content) {
    && calls.role == Model && responses.role == User
    && |calls.parts| == |responses.parts| > 0
    && forall i :: 0 <= i < |calls.parts| ==>
         && calls.parts[i].call.Some? && responses.parts[i].response.Some?
         && calls.parts[i].call.value.name == responses.parts[i].response.value.name
  }

  /** Texts and answered call groups, with no two groups next to each other. */
  ghost predicate Grouped(cs: seq<Content>)
    decreases |cs|
  {
    || cs == []
    || (IsText(cs[0]) && Grouped(cs[1..]))
    || (|cs| >= 2 && Answers(cs[0], cs[1]) && (|cs| == 2 || IsText(cs[2])) && Grouped(cs[2..]))
  }

  lemma {:induction false} GroupAnswers(run: seq<Turn>)
    ensures |CallParts(run)| == |ResponseParts(run)| == |run|
    ensures forall i :: 0 <= i < |run| ==>
      CallParts(run)[i] == CallPart(run[i]) && ResponseParts(run)[i] == ResponsePart(run[i])
  {
    if run != [] { GroupAnswers(run[1..]); }
  }

  lemma {:induction false} GroupFirst(run: seq<Turn>, rest: seq<Content>)
    requires run != [] && Grouped(rest) && (rest == [] || IsText(rest[0]))
    ensures Grouped(Group(run) + rest)
  {
    GroupAnswers(run);
    var cs := Group(run) + rest;
    assert cs[2..] == rest;
    assert Answers(cs[0], cs[1]);
  }

  lemma {:induction false} TextFirst(t: Turn, rest: seq<Content>)
    requires !IsTool(t) && Grouped(rest)
    ensures Grouped(TurnContents(t) + rest)
  {
    assert (TurnContents(t) + rest)[1..] == rest;
  }

  lemma {:induction false} RenderedFirst(h: seq<Turn>, userText: string)
    requires h == [] || !IsTool(h[0])
    ensures var cs := Rendered(h) + Trailing(userText); cs == [] || IsText(cs[0])
  {
  }

  /** Every call group is followed at once by a response group of equal length and matching names. */
  lemma {:induction false} RenderedIsGrouped(h: seq<Turn>, userText: string)
    ensures Grouped(Rendered(h) + Trailing(userText))
    decreases |h|
  {
    var tail := Trailing(userText);
    if h == [] {
      assert [] + tail == tail;
      if userText != "" { assert tail[1..] == []; }
    } else if IsTool(h[0]) {
      var n := LeadingTools(h);
      SplitFirst(h, tail);
      RenderedIsGrouped(h[n..], userText);
      RenderedFirst(h[n..], userText);
      GroupFirst(h[..n], Rendered(h[n..]) + tail);
    } else {
      SplitFirst(h, tail);
      RenderedIsGrouped(h[1..], userText);
      TextFirst(h[0], Rendered(h[1..]) + tail);
    }
  }

  // ----- nothing is lost, duplicated or reordered

  /** What a turn says to the model: of a text turn only who spoke and the text. */
  datatype Said = Text(assistant: bool, text: string) | Tool(name: string, args: Value, result: Value, sig: string)

  function Meaning(t: Turn): Said {
    if IsTool(t) then Tool(t.toolName, t.toolArgs, t.toolResult, t.toolSig) else Text(t.role.Assistant?, t.text)
  }

  function Meanings(h: seq<Turn>): seq<Said> {
    if h == [] then [] else [Meaning(h[0])] + Meanings(h[1..])
  }

  function Paired(calls: seq<Part>, responses: seq<Part>): seq<Said> {
    if calls == [] || responses == [] || calls[0].call.None? || responses[0].response.None? then []
    else [Tool(calls[0].call.value.name, calls[0].call.value.args, responses[0].response.value.result, calls[0].sig)]
         + Paired(calls[1..], responses[1..])
  }

  /** A reader of the request, which knows nothing of turns. */
  function Decode(cs: seq<Content>): seq<Said>
    decreases |cs|
  {
    if cs == [] then []
    else if IsText(cs[0]) then [Text(cs[0].role.Model?, cs[0].parts[0].text)] + Decode(cs[1..])
    else if |cs| >= 2 then Paired(cs[0].parts, cs[1].parts) + Decode(cs[2..])
    else []
  }

  lemma {:induction false} PairedRecovers(run: seq<Turn>)
    requires forall i :: 0 <= i < |run| ==> IsTool(run[i])
    ensures Paired(CallParts(run), ResponseParts(run)) == Meanings(run)
  {
    if run != [] {
      PairedRecovers(run[1..]);
    }
  }

  lemma {:induction false} MeaningsConcat(a: seq<Turn>, b: seq<Turn>)
    ensures Meanings(a + b) == Meanings(a) + Meanings(b)
  {
    if a == [] {
      assert a + b == b;
    } else {
      MeaningsConcat(a[1..], b);
      assert (a + b)[1..] == a[1..] + b;
    }
  }

  lemma {:induction false} DecodeGroup(run: seq<Turn>, rest: seq<Content>)
    requires run != [] && forall i :: 0 <= i < |run| ==> IsTool(run[i])
    ensures Decode(Group(run) + rest) == Meanings(run) + Decode(rest)
  {
    PairedRecovers(run);
    var cs := Group(run) + rest;
    assert cs[2..] == rest;
    assert cs[0].parts[0] == CallPart(run[0]);
  }

  lemma {:induction false} DecodeText(t: Turn, rest: seq<Content>)
    requires !IsTool(t)
    ensures Decode(TurnContents(t) + rest) == [Meaning(t)] + Decode(rest)
  {
    assert (TurnContents(t) + rest)[1..] == rest;
  }

  lemma {:induction false} DecodeToolsThen(h: seq<Turn>, n: nat, rest: seq<Content>, said: seq<Said>)
    requires 0 < n <= |h| && (forall i :: 0 <= i < n ==> IsTool(h[i]))
    requires Decode(rest) == Meanings(h[n..]) + said
    ensures Decode(Group(h[..n]) + rest) == Meanings(h) + said
  {
    DecodeGroup(h[..n], rest);
    MeaningsConcat(h[..n], h[n..]);
    assert h == h[..n] + h[n..];
    assert Meanings(h[..n]) + (Meanings(h[n..]) + said) == (Meanings(h[..n]) + Meanings(h[n..])) + said;
  }

  lemma {:induction false} DecodeThen(h: seq<Turn>, tail: seq<Content>)
    ensures Decode(Rendered(h) + tail) == Meanings(h) + Decode(tail)
    decreases |h|
  {
    if h == [] {
      assert [] + tail == tail;
    } else if IsTool(h[0]) {
      var n := LeadingTools(h);
      SplitFirst(h, tail);
      DecodeThen(h[n..], tail);
      DecodeToolsThen(h, n, Rendered(h[n..]) + tail, Decode(tail));
    } else {
      SplitFirst(h, tail);
      DecodeThen(h[1..], tail);
      DecodeText(h[0], Rendered(h[1..]) + tail);
    }
  }

  /** A decoder recovers every turn, in order: tool turns with name, args, result and signature. */
  lemma {:induction false} DecodeRecovers(h: seq<Turn>, userText: string)
    ensures Decode(Rendered(h) + Trailing(userText)) ==
            Meanings(h) + if userText == "" then [] else [Text(false, userText)]
  {
    DecodeThen(h, Trailing(userText));
    if userText != "" { assert Trailing(userText)[1..] == []; }
  }
}
