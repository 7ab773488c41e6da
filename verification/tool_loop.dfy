/**
  The tool loop of ai/orchestrator on top of the rendering of ai/llm/geminitext.  The model and the
  dispatcher are parameters: `chat(hop, history)` answers the hop-th request and `run(n, call)` is
  the outcome of the n-th tool execution, so neither needs to answer equal questions alike.
 */
module ToolLoop {
  import opened Wrappers
  import opened History

  datatype Message = Message(role: string, content: string)

  datatype ToolCall = ToolCall(id: string, name: string, args: Value, sig: string)

  datatype Usage = Usage(prompt: int, completion: int, total: int)

  datatype Response = Response(text: string, calls: seq<ToolCall>, finishReason: string, usage: Usage)

  datatype Execution = Execution(call: ToolCall, result: Value, error: Option<string>)

  datatype Reply = Reply(text: string, toolHistory: seq<Execution>, finishReason: string)

  datatype Failure = ChatFailed(cause: string) | NoDispatcher(name: string) | HopLimit(hops: nat)

  type Chat = (nat, seq<Turn>) -> Result<Response, string>

  type Dispatcher = (nat, ToolCall) -> (Value, Option<string>)

  const NOTHING := Value("null")

  function TextTurn(role: TurnRole, text: string): Turn {
    Turn(role, text, "", NOTHING, NOTHING, "")
  }

  function MessageTurn(m: Message): Turn {
    TextTurn(if m.role == "assistant" || m.role == "model" then Assistant else Other("user"), m.content)
  }

  function MessageTurns(msgs: seq<Message>): (r: seq<Turn>)
    ensures |r| == |msgs| && forall i :: 0 <= i < |r| ==> !IsTool(r[i])
  {
    if msgs == [] then [] else [MessageTurn(msgs[0])] + MessageTurns(msgs[1..])
  }

  /** The history of the first request: the stored messages, then what the user just said. */
  function Base(msgs: seq<Message>, userText: string): seq<Turn> {
    MessageTurns(msgs) + [TextTurn(Other("user"), userText)]
  }

  function ToolTurn(e: Execution): Turn {
    Turn(ToolRole, "", e.call.name, e.call.args, e.result, e.call.sig)
  }

  function ToolTurns(es: seq<Execution>): (r: seq<Turn>)
    ensures |r| == |es| && forall i :: 0 <= i < |es| ==> r[i] == ToolTurn(es[i])
  {
    seq(|es|, i requires 0 <= i < |es| => ToolTurn(es[i]))
  }

  /** The executions of one response's calls, in order; `first` have been made before. */
  function Executed(run: Dispatcher, first: nat, calls: seq<ToolCall>): (r: seq<Execution>)
    ensures |r| == |calls|
    ensures forall i :: 0 <= i < |r| ==>
      r[i] == Execution(calls[i], run(first + i, calls[i]).0, run(first + i, calls[i]).1)
  {
    seq(|calls|, i requires 0 <= i < |calls| => var o := run(first + i, calls[i]); Execution(calls[i], o.0, o.1))
  }

  // ----- the conversation, hop by hop

  function CallsIn(r: Result<Response, string>): seq<ToolCall> {
    if r.Ok? then r.value.calls else []
  }

  /** Every tool execution made before hop k. */
  function Before(chat: Chat, run: Dispatcher, base: seq<Turn>, k: nat): seq<Execution> {
    if k == 0 then []
    else
      var es := Before(chat, run, base, k - 1);
      es + Executed(run, |es|, CallsIn(chat(k - 1, base + ToolTurns(es))))
  }

  function Request(chat: Chat, run: Dispatcher, base: seq<Turn>, k: nat): seq<Turn> {
    base + ToolTurns(Before(chat, run, base, k))
  }

  function Answer(chat: Chat, run: Dispatcher, base: seq<Turn>, k: nat): Result<Response, string> {
    chat(k, Request(chat, run, base, k))
  }

  function Hops(maxToolHops: int): nat {
    if maxToolHops <= 0 then 5 else maxToolHops
  }

  /** The k-th request was answered with tool calls. */
  ghost predicate Continues(chat: Chat, run: Dispatcher, base: seq<Turn>, k: nat) {
    CallsIn(Answer(chat, run, base, k)) != []
  }

  ghost predicate AllContinue(chat: Chat, run: Dispatcher, base: seq<Turn>, n: int) {
    forall k :: 0 <= k < n ==> Continues(chat, run, base, k)
  }

  /** These are the histories of the first requests. */
  ghost predicate AreRequests(chat: Chat, run: Dispatcher, base: seq<Turn>, requests: seq<seq<Turn>>) {
    forall k :: 0 <= k < |requests| ==> requests[k] == Request(chat, run, base, k)
  }

  /** What Process returns, given the answer to its last request. */
  ghost predicate Concludes(answer: Result<Response, string>, made: seq<Execution>, hasDispatcher: bool,
                            sent: nat, hops: nat, r: Result<Reply, Failure>)
  {
    match answer
    case Err(e) => r == Err(ChatFailed(e))
    case Ok(resp) =>
      if resp.calls == [] then r == Ok(Reply(resp.text, made, resp.finishReason))
      else if !hasDispatcher then r == Err(NoDispatcher(resp.calls[0].name))
      else sent == hops && r == Err(HopLimit(hops))
  }

  method MessagesToTurns(msgs: seq<Message>) returns (out: seq<Turn>)
    ensures out == MessageTurns(msgs)
  {
    out := [];
    for i := 0 to |msgs|
      invariant out + MessageTurns(msgs[i..]) == MessageTurns(msgs)
    {
      assert msgs[i..][1..] == msgs[i + 1..];
      assert out + MessageTurns(msgs[i..]) == (out + [MessageTurn(msgs[i])]) + MessageTurns(msgs[i + 1..]);
      out := out + [MessageTurn(msgs[i])];
    }
  }

  method FirstTurns(history: seq<Message>, userText: string) returns (turns: seq<Turn>)
    ensures turns == Base(history, userText)
  {
    turns := MessagesToTurns(history);
    turns := turns + [TextTurn(Other("user"), userText)];
  }

  /** Runs the calls of one response, recording each and appending its tool turn. */
  method Dispatch(run: Dispatcher, calls: seq<ToolCall>, toolHistory: seq<Execution>, turns: seq<Turn>)
    returns (toolHistory': seq<Execution>, turns': seq<Turn>)
    ensures toolHistory' == toolHistory + Executed(run, |toolHistory|, calls)
    ensures turns' == turns + ToolTurns(Executed(run, |toolHistory|, calls))
  {
    toolHistory', turns' := toolHistory, turns;
    ghost var want := Executed(run, |toolHistory|, calls);
    for i := 0 to |calls|
      invariant toolHistory' == toolHistory + want[..i]
      invariant turns' == turns + ToolTurns(want[..i])
    {
      var (result, toolErr) := run(|toolHistory'|, calls[i]);
      var e := Execution(calls[i], result, toolErr);
      assert want[i] == e && want[..i + 1] == want[..i] + [e];
      assert ToolTurns(want[..i + 1]) == ToolTurns(want[..i]) + [ToolTurn(e)];
      toolHistory' := toolHistory' + [e];
      turns' := turns' + [ToolTurn(e)];
    }
    assert want[..|calls|] == want;
  }

  /** The dispatcher to speak of; without one no call is ever run. */
  function Runner(dispatcher: Option<Dispatcher>): Dispatcher {
    if dispatcher.Some? then dispatcher.value else (n, call) => (NOTHING, None)
  }

  lemma {:induction false} ToolTurnsConcat(a: seq<Execution>, b: seq<Execution>)
    ensures ToolTurns(a + b) == ToolTurns(a) + ToolTurns(b)
  {
  }

  /** The next request is this one plus the tool turns of the calls its answer asked for. */
  lemma {:induction false} NextRequest(chat: Chat, run: Dispatcher, base: seq<Turn>, k: nat)
    ensures var es := Before(chat, run, base, k);
      var made := Executed(run, |es|, CallsIn(Answer(chat, run, base, k)));
      && Before(chat, run, base, k + 1) == es + made
      && Request(chat, run, base, k + 1) == Request(chat, run, base, k) + ToolTurns(made)
  {
    var es := Before(chat, run, base, k);
    var made := Executed(run, |es|, CallsIn(Answer(chat, run, base, k)));
    assert Before(chat, run, base, k + 1) == es + made;
    Append(base, es, made);
  }

  lemma {:induction false} Append(base: seq<Turn>, es: seq<Execution>, made: seq<Execution>)
    ensures base + ToolTurns(es + made) == base + ToolTurns(es) + ToolTurns(made)
  {
    ToolTurnsConcat(es, made);
  }

  /** Where the loop stands before hop n. */
  ghost predicate Reached(chat: Chat, run: Dispatcher, base: seq<Turn>, n: nat,
                          toolHistory: seq<Execution>, turns: seq<Turn>, requests: seq<seq<Turn>>)
  {
    && toolHistory == Before(chat, run, base, n) && turns == Request(chat, run, base, n)
    && |requests| == n && AreRequests(chat, run, base, requests)
    && AllContinue(chat, run, base, n)
  }

  lemma {:induction false} OneMoreRequest(
      chat: Chat, run: Dispatcher, base: seq<Turn>, requests: seq<seq<Turn>>, turns: seq<Turn>)
    requires AreRequests(chat, run, base, requests) && turns == Request(chat, run, base, |requests|)
    ensures AreRequests(chat, run, base, requests + [turns])
  {
  }

  lemma {:induction false} OneMoreContinues(chat: Chat, run: Dispatcher, base: seq<Turn>, n: nat)
    requires AllContinue(chat, run, base, n) && Continues(chat, run, base, n)
    ensures AllContinue(chat, run, base, n + 1)
  {
  }

  lemma {:induction false} ReachedFirst(chat: Chat, run: Dispatcher, base: seq<Turn>)
    ensures Reached(chat, run, base, 0, [], base, [])
  {
    assert ToolTurns([]) == [] && base + [] == base;
  }

  lemma {:induction false} ReachedNext(chat: Chat, run: Dispatcher, base: seq<Turn>, n: nat,
                                       toolHistory: seq<Execution>, turns: seq<Turn>, requests: seq<seq<Turn>>)
    requires Reached(chat, run, base, n, toolHistory, turns, requests)
    requires var resp := chat(n, turns); resp.Ok? && resp.value.calls != []
    ensures var made := Executed(run, |toolHistory|, CallsIn(chat(n, turns)));
      Reached(chat, run, base, n + 1, toolHistory + made, turns + ToolTurns(made), requests + [turns])
  {
    OneMoreRequest(chat, run, base, requests, turns);
    OneMoreContinues(chat, run, base, n);
    NextRequest(chat, run, base, n);
  }

  predicate OutOfHops(r: Result<Reply, Failure>) {
    r.Err? && r.error.HopLimit?
  }

  /**
    A whole Process call: all but the last request were answered with tool calls, the executions made
    are those of the calls answered, and the result is what the last answer calls for.
   */
  ghost predicate Conducted(chat: Chat, run: Dispatcher, base: seq<Turn>, hasDispatcher: bool, hops: nat,
                            r: Result<Reply, Failure>, requests: seq<seq<Turn>>, made: seq<Execution>)
  {
    && 1 <= |requests| <= hops
    && (!hasDispatcher ==> |requests| == 1)
    && AreRequests(chat, run, base, requests)
    && var n := |requests|;
       var answered := if OutOfHops(r) then n else n - 1;
       && AllContinue(chat, run, base, answered)
       && made == Before(chat, run, base, answered)
       && Concludes(Answer(chat, run, base, n - 1), Before(chat, run, base, n - 1), hasDispatcher, n, hops, r)
  }

  lemma {:induction false} StopsAt(chat: Chat, run: Dispatcher, base: seq<Turn>, hasDispatcher: bool, n: nat, hops: nat,
                                   toolHistory: seq<Execution>, turns: seq<Turn>, requests: seq<seq<Turn>>,
                                   r: Result<Reply, Failure>)
    requires Reached(chat, run, base, n, toolHistory, turns, requests) && n < hops && (n > 0 ==> hasDispatcher)
    requires Concludes(chat(n, turns), toolHistory, hasDispatcher, n + 1, hops, r) && !OutOfHops(r)
    ensures Conducted(chat, run, base, hasDispatcher, hops, r, requests + [turns], toolHistory)
  {
    OneMoreRequest(chat, run, base, requests, turns);
    assert |requests + [turns]| == n + 1;
  }

  lemma {:induction false} RunsOut(chat: Chat, run: Dispatcher, base: seq<Turn>, hops: nat,
                                   toolHistory: seq<Execution>, turns: seq<Turn>, requests: seq<seq<Turn>>)
    requires Reached(chat, run, base, hops, toolHistory, turns, requests) && hops > 0
    ensures Conducted(chat, run, base, true, hops, Err(HopLimit(hops)), requests, toolHistory)
  {
    assert Continues(chat, run, base, hops - 1);
  }

  /** One turn of the loop: ask the model; stop, or run the calls it asked for. */
  method Hop(chat: Chat, dispatcher: Option<Dispatcher>, ghost hops: nat, hop: nat,
             toolHistory: seq<Execution>, turns: seq<Turn>)
    returns (stop: Option<Result<Reply, Failure>>, toolHistory': seq<Execution>, turns': seq<Turn>)
    ensures stop.Some? ==>
      && Concludes(chat(hop, turns), toolHistory, dispatcher.Some?, hop + 1, hops, stop.value)
      && !OutOfHops(stop.value) && toolHistory' == toolHistory
    ensures stop.None? ==>
      var made := Executed(Runner(dispatcher), |toolHistory|, CallsIn(chat(hop, turns)));
      && dispatcher.Some? && made != []
      && toolHistory' == toolHistory + made && turns' == turns + ToolTurns(made)
  {
    toolHistory', turns' := toolHistory, turns;
    var resp := chat(hop, turns);
    if resp.Err? {
      return Some(Err(ChatFailed(resp.error))), toolHistory', turns';
    }
    if resp.value.calls == [] {
      return Some(Ok(Reply(resp.value.text, toolHistory, resp.value.finishReason))), toolHistory', turns';
    }
    if dispatcher.None? {
      return Some(Err(NoDispatcher(resp.value.calls[0].name))), toolHistory', turns';
    }
    toolHistory', turns' := Dispatch(dispatcher.value, resp.value.calls, toolHistory, turns);
    stop := None;
  }

  /** Besides the result: the histories sent to the model and the tool executions made, in order. */
  method Process(chat: Chat, dispatcher: Option<Dispatcher>, maxToolHops: int, history: seq<Message>, userText: string)
    returns (r: Result<Reply, Failure>, requests: seq<seq<Turn>>, made: seq<Execution>)
    ensures Conducted(chat, Runner(dispatcher), Base(history, userText), dispatcher.Some?, Hops(maxToolHops), r,
      requests, made)
  {
    var hops := if maxToolHops <= 0 then 5 else maxToolHops;
    var turns := FirstTurns(history, userText);
    ghost var base, run := turns, Runner(dispatcher);
    var toolHistory := [];
    ReachedFirst(chat, run, base);
    var sent := 0;
    requests := [];
    while sent < hops
      invariant sent <= hops && |requests| == sent
      invariant Reached(chat, run, base, sent, toolHistory, turns, requests)
      invariant sent > 0 ==> dispatcher.Some?
    {
      ghost var before := toolHistory;
      var asked := turns;
      var stop;
      stop, toolHistory, turns := Hop(chat, dispatcher, hops, sent, toolHistory, turns);
      if stop.Some? {
        StopsAt(chat, run, base, dispatcher.Some?, sent, hops, before, asked, requests, stop.value);
        return stop.value, requests + [asked], toolHistory;
      }
      ReachedNext(chat, run, base, sent, before, asked, requests);
      sent, requests := sent + 1, requests + [asked];
    }
    RunsOut(chat, run, base, hops, toolHistory, turns, requests);
    return Err(HopLimit(hops)), requests, toolHistory;
  }

  /** A request shows the model all the executions made before hop k + 1 iff its answer asked for none. */
  lemma {:induction false} LastRequestShowsAllIff(chat: Chat, run: Dispatcher, base: seq<Turn>, k: nat)
    ensures Request(chat, run, base, k) == base + ToolTurns(Before(chat, run, base, k + 1))
      <==> !Continues(chat, run, base, k)
  {
    NextRequest(chat, run, base, k);
  }

  /**
    Every execution a Process call made was in its last request, unless there is a dispatcher and every
    one of the allowed answers asks for calls: then the calls of the last one are carried out, and the
    model is never told.
   */
  lemma {:induction false} ShownIff(chat: Chat, run: Dispatcher, base: seq<Turn>, hasDispatcher: bool, hops: nat,
                                    r: Result<Reply, Failure>, requests: seq<seq<Turn>>, made: seq<Execution>)
    requires Conducted(chat, run, base, hasDispatcher, hops, r, requests, made)
    ensures requests[|requests| - 1] == base + ToolTurns(made) <==>
            !(hasDispatcher && AllContinue(chat, run, base, hops))
    ensures OutOfHops(r) <==> hasDispatcher && AllContinue(chat, run, base, hops)
  {
    var k := |requests| - 1;
    LastRequestShowsAllIff(chat, run, base, k);
    if OutOfHops(r) || AllContinue(chat, run, base, hops) { assert Continues(chat, run, base, k); }
  }

  /** A model that always asks for one more call, limited to one hop: Process makes the call and never reports it. */
  lemma {:induction false} UnseenExecution(run: Dispatcher, base: seq<Turn>)
    ensures var call := ToolCall("f", "f", NOTHING, "");
      var chat: Chat := (k, h) => Ok(Response("", [call], "STOP", Usage(0, 0, 0)));
      && Conducted(chat, run, base, true, 1, Err(HopLimit(1)), [base], Before(chat, run, base, 1))
      && |Before(chat, run, base, 1)| == 1 && Before(chat, run, base, 1)[0].call == call
  {
    var call := ToolCall("f", "f", NOTHING, "");
    var chat: Chat := (k, h) => Ok(Response("", [call], "STOP", Usage(0, 0, 0)));
    ReachedFirst(chat, run, base);
    ReachedNext(chat, run, base, 0, [], base, []);
    NextRequest(chat, run, base, 0);
    var made := Before(chat, run, base, 1);
    assert [] + [base] == [base];
    RunsOut(chat, run, base, 1, made, Request(chat, run, base, 1), [base]);
  }

  // ----- what the requests look like

  /** Each request's history extends every earlier one. */
  lemma {:induction false} RequestsExtend(chat: Chat, run: Dispatcher, base: seq<Turn>, j: nat, k: nat)
    requires j <= k
    ensures Request(chat, run, base, j) <= Request(chat, run, base, k)
  {
    if j < k {
      RequestsExtend(chat, run, base, j, k - 1);
      NextRequest(chat, run, base, k - 1);
    }
  }

  /** The calls of the first k answers, one after another. */
  function CallsBefore(chat: Chat, run: Dispatcher, base: seq<Turn>, k: nat): seq<ToolCall> {
    if k == 0 then [] else CallsBefore(chat, run, base, k - 1) + CallsIn(Answer(chat, run, base, k - 1))
  }

  /** Execution i is of call i, with the dispatcher's answer to it as the i-th. */
  ghost predicate Matching(run: Dispatcher, es: seq<Execution>, calls: seq<ToolCall>) {
    && |es| == |calls|
    && forall i :: 0 <= i < |es| ==> es[i] == Execution(calls[i], run(i, calls[i]).0, run(i, calls[i]).1)
  }

  lemma {:induction false} MatchingMore(run: Dispatcher, es: seq<Execution>, calls: seq<ToolCall>, more: seq<ToolCall>)
    requires Matching(run, es, calls)
    ensures Matching(run, es + Executed(run, |es|, more), calls + more)
  {
  }

  /** The executions before hop k are those of exactly these calls, in this order, each with the dispatcher's answer. */
  lemma {:induction false} ExecutedInOrder(chat: Chat, run: Dispatcher, base: seq<Turn>, k: nat)
    ensures Matching(run, Before(chat, run, base, k), CallsBefore(chat, run, base, k))
  {
    if k > 0 {
      var es, calls := Before(chat, run, base, k - 1), CallsBefore(chat, run, base, k - 1);
      ExecutedInOrder(chat, run, base, k - 1);
      var more := CallsIn(Answer(chat, run, base, k - 1));
      MatchingMore(run, es, calls, more);
      assert Before(chat, run, base, k) == es + Executed(run, |es|, more) by { NextRequest(chat, run, base, k - 1); }
    }
  }

  lemma {:induction false} TextsOnly(a: seq<Turn>)
    requires forall i :: 0 <= i < |a| ==> !IsTool(a[i])
    ensures |Rendered(a)| == |a| && forall i :: 0 <= i < |a| ==> IsText(Rendered(a)[i])
  {
    if a != [] { TextsOnly(a[1..]); }
  }

  lemma {:induction false} TextsFirst(a: seq<Turn>, b: seq<Turn>)
    requires forall i :: 0 <= i < |a| ==> !IsTool(a[i])
    ensures Rendered(a + b) == Rendered(a) + Rendered(b)
  {
    if a == [] {
      assert a + b == b;
    } else {
      TextsFirst(a[1..], b);
      assert (a + b)[1..] == a[1..] + b;
      SplitFirst(a, Rendered(b));
    }
  }

  lemma {:induction false} ToolsOnly(tools: seq<Turn>)
    requires tools != [] && forall i :: 0 <= i < |tools| ==> IsTool(tools[i])
    ensures Rendered(tools) == Group(tools)
  {
    RenderRunFirst(tools, |tools|);
    assert tools[..|tools|] == tools && tools[|tools|..] == [];
  }

  /** The functionCall part that replays a call: its name, its args, its thought signature. */
  function Replay(call: ToolCall): Part {
    Part("", Some(FunctionCall(call.name, call.args)), None, call.sig)
  }

  lemma {:induction false} SomeCalls(chat: Chat, run: Dispatcher, base: seq<Turn>, k: nat)
    requires k > 0 && forall j :: 0 <= j < k ==> Continues(chat, run, base, j)
    ensures Before(chat, run, base, k) != []
  {
    NextRequest(chat, run, base, k - 1);
    assert Continues(chat, run, base, k - 1);
  }

  /**
    After the first tool hop every rendered request is text contents only, then exactly one call
    group and one response group; the call group replays every call so far, in order, with the args
    and the signature the model returned.
   */
  lemma {:induction false} RequestEndsInOneGroup(
      chat: Chat, run: Dispatcher, msgs: seq<Message>, userText: string, k: nat)
    requires k > 0 && forall j :: 0 <= j < k ==> Continues(chat, run, Base(msgs, userText), j)
    ensures var base := Base(msgs, userText);
      var es, calls := Before(chat, run, base, k), CallsBefore(chat, run, base, k);
      && Rendered(Request(chat, run, base, k)) == Rendered(base) + Group(ToolTurns(es))
      && (forall i :: 0 <= i < |Rendered(base)| ==> IsText(Rendered(base)[i]))
      && |CallParts(ToolTurns(es))| == |calls| > 0
      && forall i :: 0 <= i < |calls| ==> CallParts(ToolTurns(es))[i] == Replay(calls[i])
  {
    var base := Base(msgs, userText);
    var es := Before(chat, run, base, k);
    SomeCalls(chat, run, base, k);
    ExecutedInOrder(chat, run, base, k);
    TextsOnly(base);
    TextsFirst(base, ToolTurns(es));
    ToolsOnly(ToolTurns(es));
    GroupAnswers(ToolTurns(es));
  }

  // ----- what the model is told, read back

  /** What the stored messages say. */
  function MessagesSaid(msgs: seq<Message>): seq<Said> {
    if msgs == [] then []
    else [Text(msgs[0].role == "assistant" || msgs[0].role == "model", msgs[0].content)] + MessagesSaid(msgs[1..])
  }

  /** What the tools said: call i with its args and signature, and what the dispatcher answered to it. */
  function ToolsSaid(run: Dispatcher, calls: seq<ToolCall>): seq<Said> {
    seq(|calls|, i requires 0 <= i < |calls| =>
      Tool(calls[i].name, calls[i].args, run(i, calls[i]).0, calls[i].sig))
  }

  lemma {:induction false} MeaningsOfMessages(msgs: seq<Message>)
    ensures Meanings(MessageTurns(msgs)) == MessagesSaid(msgs)
  {
    if msgs != [] {
      MeaningsOfMessages(msgs[1..]);
      assert MessageTurns(msgs)[1..] == MessageTurns(msgs[1..]);
    }
  }

  lemma {:induction false} MeaningsAt(h: seq<Turn>)
    ensures |Meanings(h)| == |h| && forall i :: 0 <= i < |h| ==> Meanings(h)[i] == Meaning(h[i])
  {
    if h != [] { MeaningsAt(h[1..]); }
  }

  lemma {:induction false} MeaningsOfTools(run: Dispatcher, es: seq<Execution>, calls: seq<ToolCall>)
    requires Matching(run, es, calls)
    ensures Meanings(ToolTurns(es)) == ToolsSaid(run, calls)
  {
    MeaningsAt(ToolTurns(es));
  }

  lemma {:induction false} MeaningsOfBase(msgs: seq<Message>, userText: string)
    ensures Meanings(Base(msgs, userText)) == MessagesSaid(msgs) + [Text(false, userText)]
  {
    var user := TextTurn(Other("user"), userText);
    MeaningsOfMessages(msgs);
    MeaningsConcat(MessageTurns(msgs), [user]);
    MeaningsAt([user]);
  }

  /**
    Every request, read back by a decoder that knows nothing of turns, says the stored messages, the user's
    text, and every call made so far with the dispatcher's answer to it, in order.
   */
  lemma {:induction false} RequestSays(chat: Chat, run: Dispatcher, msgs: seq<Message>, userText: string, k: nat)
    ensures var base := Base(msgs, userText);
      Decode(Rendered(Request(chat, run, base, k))) ==
      MessagesSaid(msgs) + [Text(false, userText)] + ToolsSaid(run, CallsBefore(chat, run, base, k))
  {
    var base := Base(msgs, userText);
    var es, calls, h := Before(chat, run, base, k), CallsBefore(chat, run, base, k), Request(chat, run, base, k);
    ExecutedInOrder(chat, run, base, k);
    MeaningsOfTools(run, es, calls);
    MeaningsOfBase(msgs, userText);
    MeaningsConcat(base, ToolTurns(es));
    ReadBack(h);
  }

  lemma {:induction false} ReadBack(h: seq<Turn>)
    ensures Decode(Rendered(h)) == Meanings(h)
  {
    DecodeThen(h, []);
    assert Rendered(h) + [] == Rendered(h) && Decode([]) == [] && Meanings(h) + [] == Meanings(h);
  }

  // ----- chatResponse: from the model's parts to tool calls

  function CallOf(p: Part): seq<ToolCall> {
    if p.call.Some? then [ToolCall(p.call.value.name, p.call.value.name, p.call.value.args, p.sig)] else []
  }

  function CallsOf(parts: seq<Part>): seq<ToolCall> {
    if parts == [] then [] else CallOf(parts[0]) + CallsOf(parts[1..])
  }

  function TextOf(parts: seq<Part>): string {
    if parts == [] then "" else parts[0].text + TextOf(parts[1..])
  }

  lemma {:induction false} PartsStep(parts: seq<Part>, i: nat, text: string, calls: seq<ToolCall>)
    requires i < |parts|
    ensures text + TextOf(parts[i..]) == (text + parts[i].text) + TextOf(parts[i + 1..])
    ensures calls + CallsOf(parts[i..]) == (calls + CallOf(parts[i])) + CallsOf(parts[i + 1..])
  {
    assert parts[i..][1..] == parts[i + 1..];
  }

  datatype Candidate = Candidate(parts: seq<Part>, finishReason: string)

  method ReadParts(parts: seq<Part>) returns (text: string, calls: seq<ToolCall>)
    ensures text == TextOf(parts) && calls == CallsOf(parts)
  {
    text, calls := "", [];
    for i := 0 to |parts|
      invariant text + TextOf(parts[i..]) == TextOf(parts)
      invariant calls + CallsOf(parts[i..]) == CallsOf(parts)
    {
      var part := parts[i];
      PartsStep(parts, i, text, calls);
      if part.text != "" {
        text := text + part.text;
      }
      if part.call.Some? {
        calls := calls + [ToolCall(part.call.value.name, part.call.value.name, part.call.value.args, part.sig)];
      }
    }
  }

  /** Only the first candidate is read; without one the usage is dropped too. */
  method ChatResponse(candidates: seq<Candidate>, usage: Usage) returns (r: Response)
    ensures candidates == [] ==> r == Response("", [], "empty", Usage(0, 0, 0))
    ensures candidates != [] ==>
      r == Response(TextOf(candidates[0].parts), CallsOf(candidates[0].parts), candidates[0].finishReason, usage)
  {
    if |candidates| == 0 {
      return Response("", [], "empty", Usage(0, 0, 0));
    }
    var text, calls := ReadParts(candidates[0].parts);
    return Response(text, calls, candidates[0].finishReason, usage);
  }

  /** The functionCall parts of an answer, without any text that came in the same part. */
  function FunctionParts(parts: seq<Part>): seq<Part> {
    if parts == [] then []
    else (if parts[0].call.Some? then [Part("", parts[0].call, None, parts[0].sig)] else []) + FunctionParts(parts[1..])
  }

  function Replays(calls: seq<ToolCall>): seq<Part> {
    if calls == [] then [] else [Replay(calls[0])] + Replays(calls[1..])
  }

  /** What is replayed later is what the model said: reading an answer and replaying it loses nothing. */
  lemma {:induction false} ReplayIsFaithful(parts: seq<Part>)
    ensures Replays(CallsOf(parts)) == FunctionParts(parts)
  {
    if parts != [] {
      ReplayIsFaithful(parts[1..]);
      if parts[0].call.Some? {
        assert CallsOf(parts)[1..] == CallsOf(parts[1..]);
      } else {
        assert CallsOf(parts) == CallsOf(parts[1..]) && FunctionParts(parts) == FunctionParts(parts[1..]);
      }
    }
  }
}
