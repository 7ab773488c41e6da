/**
  What a whole session tells its observer and its transport, read off the actions of the run, and
  when it moves on: every LLM event is passed on, every failure is reported, and Run returns.
 */
module SessionLaws {
  import opened Wrappers
  import opened Sequences
  import opened Session

  // ----- the LLM events of a run

  /** An LLM event, with the number of turns completed once it has been handled. */
  datatype Told = Told(ev: LLMEvent, turn: nat)

  function TurnsDone(acts: seq<Action>): nat {
    if acts == [] then 0
    else
      var a := acts[|acts| - 1];
      TurnsDone(acts[..|acts| - 1]) + if a.Dispatch? && a.ev.TurnComplete? then 1 else 0
  }

  /** The LLM events a run dispatched, in order. */
  function Dispatched(acts: seq<Action>): seq<Told> {
    if acts == [] then []
    else
      var a := acts[|acts| - 1];
      Dispatched(acts[..|acts| - 1]) + if a.Dispatch? then [Told(a.ev, TurnsDone(acts))] else []
  }

  lemma {:induction false} TurnIsCounted(acts: seq<Action>)
    requires Run(acts).Some?
    ensures Run(acts).value.turn == TurnsDone(acts)
  {
    if acts != [] { TurnIsCounted(acts[..|acts| - 1]); }
  }

  /** What is logged outside the dispatch of LLM events. */
  predicate IsFrame(e: Event) {
    e.OnError? || e.OnHistoryInjected? || e.OnSessionStart? || e.OnSessionEnd?
  }

  ghost predicate SkipsFrame<T>(f: Event -> seq<T>) {
    forall e :: IsFrame(e) ==> f(e) == []
  }

  /** Seen through f, what an LLM event leads to is g of that event. */
  ghost predicate Carries<T>(f: Event -> seq<T>, g: Told -> seq<T>) {
    forall t: Told :: FlatMap(f, Callbacks(t.ev, t.turn)) == g(t)
  }

  /** What a run has logged and is about to log. */
  function Heard(s: State): seq<Event> {
    s.log + Pending(s)
  }

  /** What a step logs outside the dispatch of LLM events. */
  function Added(s: State, a: Action): seq<Event>
    requires Enabled(s, a)
  {
    match a
    case Announce =>
      [if s.main.Failing? then OnError(s.main.cause)
       else if s.main.Injecting? then OnHistoryInjected else OnSessionStart]
    case Notify(side) => [OnError(Of(s, side).err)]
    case Finish => [OnSessionEnd(if s.main.Failed? then FatalError else s.main.reason)]
    case _ => []
  }

  lemma {:induction false} AddedStep(s: State, a: Action)
    requires PhaseInv(s) && Enabled(s, a) && (a.Announce? || a.Notify? || a.Finish?)
    ensures var t := Next(s, a); t.log == s.log + Added(s, a) && Pending(t) == Pending(s)
  {
  }

  lemma {:induction false} EmitStep(s: State)
    requires Enabled(s, Emit)
    ensures Heard(Next(s, Emit)) == Heard(s)
  {
    var t := Next(s, Emit);
    assert t.log + Pending(t) == s.log + Pending(s);
  }

  lemma {:induction false} InsertFlat<T>(f: Event -> seq<T>, log: seq<Event>, e: Event, pending: seq<Event>)
    ensures FlatMap(f, log + [e] + pending) == FlatMap(f, log) + f(e) + FlatMap(f, pending)
  {
    FlatMapConcat(f, log + [e], pending);
    FlatMapConcat(f, log, [e]);
    FlatMapOne(f, e);
  }

  /** A step that dispatches nothing adds at most one event, of the frame. */
  lemma {:induction false} QuietStep<T>(f: Event -> seq<T>, s: State, a: Action)
    requires PhaseInv(s) && Enabled(s, a) && !a.Dispatch? && SkipsFrame(f)
    ensures FlatMap(f, Heard(Next(s, a))) == FlatMap(f, Heard(s))
  {
    if a.Announce? || a.Notify? || a.Finish? {
      var e := Added(s, a)[0];
      AddedStep(s, a);
      assert IsFrame(e) && Added(s, a) == [e];
      InsertFlat(f, s.log, e, Pending(s));
      FlatMapConcat(f, s.log, Pending(s));
      assert FlatMap(f, s.log) + [] == FlatMap(f, s.log);
    } else if a.Emit? {
      EmitStep(s);
    } else {
      NothingLogged(s, a);
    }
  }

  lemma {:induction false} DispatchStep<T>(
      f: Event -> seq<T>, g: Told -> seq<T>, s: State, ev: LLMEvent, before: seq<Told>)
    requires Enabled(s, Dispatch(ev)) && Carries(f, g) && FlatMap(f, Heard(s)) == FlatMap(g, before)
    ensures var t := Next(s, Dispatch(ev)); FlatMap(f, Heard(t)) == FlatMap(g, before + [Told(ev, t.turn)])
  {
    var told := Told(ev, Next(s, Dispatch(ev)).turn);
    assert s.log + [] == s.log;
    FlatMapConcat(f, s.log, Callbacks(ev, told.turn));
    FlatMapConcat(g, before, [told]);
    FlatMapOne(g, told);
    assert FlatMap(f, Callbacks(told.ev, told.turn)) == g(told);
  }

  lemma {:induction false} DispatchedNext(acts: seq<Action>)
    requires acts != [] && Run(acts).Some?
    ensures var before, a := acts[..|acts| - 1], acts[|acts| - 1];
      Dispatched(acts) == Dispatched(before) + if a.Dispatch? then [Told(a.ev, Run(acts).value.turn)] else []
  {
    TurnIsCounted(acts);
  }

  /** Everything the run dispatched is heard, in order, and nothing else is. */
  lemma {:induction false} AllIsCarried<T>(f: Event -> seq<T>, g: Told -> seq<T>, acts: seq<Action>)
    requires Run(acts).Some? && SkipsFrame(f) && Carries(f, g)
    ensures FlatMap(f, Heard(Run(acts).value)) == FlatMap(g, Dispatched(acts))
  {
    if acts != [] {
      var before, a := acts[..|acts| - 1], acts[|acts| - 1];
      var s, told := Run(before).value, Dispatched(before);
      AllIsCarried(f, g, before);
      DispatchedNext(acts);
      assert PhaseInv(s) by { RunInv(before); }
      if a.Dispatch? {
        DispatchStep(f, g, s, a.ev, told);
      } else {
        QuietStep(f, s, a);
        assert told + [] == told;
      }
    }
  }

  // ----- what the observer is told

  /** The LLM event a callback reports. */
  function Reported(e: Event): seq<LLMEvent> {
    match e
    case OnAssistantText(text, final) => [AssistantText(text, final)]
    case OnCallerTranscript(text) => [CallerTranscript(text)]
    case OnTurnComplete(_) => [TurnComplete]
    case OnInterrupted => [Interrupted]
    case _ => []
  }

  function Reportable(t: Told): seq<LLMEvent> {
    if t.ev.AudioOut? || t.ev.ToolCalls? then [] else [t.ev]
  }

  function TurnNumber(e: Event): seq<nat> {
    if e.OnTurnComplete? then [e.turn] else []
  }

  function TurnOf(t: Told): seq<nat> {
    if t.ev.TurnComplete? then [t.turn] else []
  }

  function CallId(e: Event): seq<string> {
    if e.OnToolCall? then [e.id] else []
  }

  function ResponseId(e: Event): seq<string> {
    if e.OnToolResponse? then [e.id] else []
  }

  function ToolIds(t: Told): seq<string> {
    if t.ev.ToolCalls? then t.ev.ids else []
  }

  // ----- what the transport is asked to do

  function AudioSent(e: Event): seq<Frame> {
    if e.SendAudio? then [e.frame] else []
  }

  function AudioOf(t: Told): seq<Frame> {
    if t.ev.AudioOut? then [t.ev.frame] else []
  }

  function Marked(e: Event): seq<nat> {
    if e.Mark? then [e.turn] else []
  }

  function Cleared(e: Event): seq<()> {
    if e.ClearTransport? then [()] else []
  }

  /** Queued audio is stale after an interruption, and after the filler played during a tool batch. */
  function Stale(t: Told): seq<()> {
    if t.ev.Interrupted? || t.ev.ToolCalls? then [()] else []
  }

  lemma {:induction false} CarriesBatch<T>(f: Event -> seq<T>, t: Told, first: seq<T>, second: seq<T>)
    requires t.ev.ToolCalls? && forall e: Event :: e.OnError? ==> f(e) == []
    requires FlatMap(f, ToolEvents(t.ev.ids, false)) == first && FlatMap(f, ToolEvents(t.ev.ids, true)) == second
    ensures FlatMap(f, Callbacks(t.ev, t.turn)) == first + f(ClearTransport) + second
  {
    var x, y := ToolEvents(t.ev.ids, false), ToolEvents(t.ev.ids, true);
    var z: seq<Event> := if t.ev.sendErr.Some? then [OnError(t.ev.sendErr.value)] else [];
    FlatMapConcat(f, x + [ClearTransport] + y, z);
    FlatMapConcat(f, x + [ClearTransport], y);
    FlatMapConcat(f, x, [ClearTransport]);
    FlatMapOne(f, ClearTransport);
    FlatMapNothing(f, z);
    Unit(first + f(ClearTransport) + second);
  }

  /** A projection that ignores tool callbacks and errors sees of a tool batch only that the transport is cleared. */
  lemma {:induction false} SkipsTools<T>(f: Event -> seq<T>, t: Told)
    requires t.ev.ToolCalls? && forall e: Event :: e.OnToolCall? || e.OnToolResponse? || e.OnError? ==> f(e) == []
    ensures FlatMap(f, Callbacks(t.ev, t.turn)) == f(ClearTransport)
  {
    FlatMapNothing(f, ToolEvents(t.ev.ids, false));
    FlatMapNothing(f, ToolEvents(t.ev.ids, true));
    CarriesBatch(f, t, [], []);
    Unit(f(ClearTransport));
  }

  /** The callbacks of an event that is no tool batch are one or two. */
  lemma {:induction false} CarriesOne<T>(f: Event -> seq<T>, t: Told)
    requires !t.ev.ToolCalls?
    ensures FlatMap(f, Callbacks(t.ev, t.turn)) ==
            match t.ev
            case AudioOut(frame) => f(SendAudio(frame))
            case AssistantText(text, final) => f(OnAssistantText(text, final))
            case CallerTranscript(text) => f(OnCallerTranscript(text))
            case TurnComplete => f(Mark(t.turn)) + f(OnTurnComplete(t.turn))
            case Interrupted => f(ClearTransport) + f(OnInterrupted)
  {
    match t.ev
    case AudioOut(frame) => FlatMapOne(f, SendAudio(frame));
    case AssistantText(text, final) => FlatMapOne(f, OnAssistantText(text, final));
    case CallerTranscript(text) => FlatMapOne(f, OnCallerTranscript(text));
    case TurnComplete => FlatMapTwo(f, Mark(t.turn), OnTurnComplete(t.turn));
    case Interrupted => FlatMapTwo(f, ClearTransport, OnInterrupted);
  }

  lemma {:induction false} CarriesReports()
    ensures Carries(Reported, Reportable)
  {
    forall t: Told ensures FlatMap(Reported, Callbacks(t.ev, t.turn)) == Reportable(t) {
      if t.ev.ToolCalls? { SkipsTools(Reported, t); } else { CarriesOne(Reported, t); }
    }
  }

  lemma {:induction false} CarriesTurns()
    ensures Carries(TurnNumber, TurnOf) && Carries(Marked, TurnOf)
  {
    forall t: Told
      ensures FlatMap(TurnNumber, Callbacks(t.ev, t.turn)) == TurnOf(t) == FlatMap(Marked, Callbacks(t.ev, t.turn))
    {
      if t.ev.ToolCalls? {
        SkipsTools(TurnNumber, t);
        SkipsTools(Marked, t);
      } else {
        CarriesOne(TurnNumber, t);
        CarriesOne(Marked, t);
      }
    }
  }

  lemma {:induction false} CarriesTransport()
    ensures Carries(AudioSent, AudioOf) && Carries(Cleared, Stale)
  {
    forall t: Told
      ensures FlatMap(AudioSent, Callbacks(t.ev, t.turn)) == AudioOf(t)
      ensures FlatMap(Cleared, Callbacks(t.ev, t.turn)) == Stale(t)
    {
      if t.ev.ToolCalls? {
        SkipsTools(AudioSent, t);
        SkipsTools(Cleared, t);
      } else {
        CarriesOne(AudioSent, t);
        CarriesOne(Cleared, t);
      }
    }
  }

  /** Announcements carry the ids and responses carry the ids, each in call order. */
  lemma {:induction false} IdsOf(ids: seq<string>)
    ensures FlatMap(CallId, ToolEvents(ids, false)) == ids && FlatMap(ResponseId, ToolEvents(ids, false)) == []
    ensures FlatMap(CallId, ToolEvents(ids, true)) == [] && FlatMap(ResponseId, ToolEvents(ids, true)) == ids
  {
    if ids != [] {
      IdsOf(ids[1..]);
      FirstTool(CallId, ids, false);
      FirstTool(CallId, ids, true);
      FirstTool(ResponseId, ids, false);
      FirstTool(ResponseId, ids, true);
      assert [ids[0]] + ids[1..] == ids;
    }
  }

  lemma {:induction false} FirstTool<T>(f: Event -> seq<T>, ids: seq<string>, responses: bool)
    requires ids != []
    ensures FlatMap(f, ToolEvents(ids, responses)) ==
            f(if responses then OnToolResponse(ids[0]) else OnToolCall(ids[0])) +
            FlatMap(f, ToolEvents(ids[1..], responses))
  {
    var e := if responses then OnToolResponse(ids[0]) else OnToolCall(ids[0]);
    assert ToolEvents(ids, responses) == [e] + ToolEvents(ids[1..], responses);
    FlatMapConcat(f, [e], ToolEvents(ids[1..], responses));
    FlatMapOne(f, e);
  }

  lemma {:induction false} ToolsOf(t: Told)
    ensures FlatMap(CallId, Callbacks(t.ev, t.turn)) == ToolIds(t)
    ensures FlatMap(ResponseId, Callbacks(t.ev, t.turn)) == ToolIds(t)
  {
    if t.ev.ToolCalls? {
      BatchIds(t, t.ev.ids);
    } else {
      CarriesOne(CallId, t);
      CarriesOne(ResponseId, t);
    }
  }

  lemma {:induction false} BatchIds(t: Told, ids: seq<string>)
    requires t.ev.ToolCalls? && t.ev.ids == ids
    ensures FlatMap(CallId, Callbacks(t.ev, t.turn)) == ids && FlatMap(ResponseId, Callbacks(t.ev, t.turn)) == ids
  {
    assert FlatMap(CallId, Callbacks(t.ev, t.turn)) == ids + [] + [] by {
      IdsOf(ids);
      CarriesBatch(CallId, t, ids, []);
    }
    assert FlatMap(ResponseId, Callbacks(t.ev, t.turn)) == [] + [] + ids by {
      IdsOf(ids);
      CarriesBatch(ResponseId, t, [], ids);
    }
    Unit(ids);
  }

  lemma {:induction false} CarriesTools()
    ensures Carries(CallId, ToolIds) && Carries(ResponseId, ToolIds)
  {
    forall t: Told
      ensures FlatMap(CallId, Callbacks(t.ev, t.turn)) == ToolIds(t) == FlatMap(ResponseId, Callbacks(t.ev, t.turn))
    {
      ToolsOf(t);
    }
  }

  /**
    The observer is told every assistant text with its finality, every caller transcript, every
    completed turn with its number and every interruption, in the order the model sent them, and is
    told of every tool call and every tool response.
   */
  lemma {:induction false} ObserverIsTold(acts: seq<Action>)
    requires Run(acts).Some?
    ensures var heard, told := Heard(Run(acts).value), Dispatched(acts);
      && FlatMap(Reported, heard) == FlatMap(Reportable, told)
      && FlatMap(TurnNumber, heard) == FlatMap(TurnOf, told)
      && FlatMap(CallId, heard) == FlatMap(ToolIds, told) == FlatMap(ResponseId, heard)
  {
    CarriesReports();
    CarriesTurns();
    CarriesTools();
    AllIsCarried(Reported, Reportable, acts);
    AllIsCarried(TurnNumber, TurnOf, acts);
    AllIsCarried(CallId, ToolIds, acts);
    AllIsCarried(ResponseId, ToolIds, acts);
  }

  /** The transport is sent every frame in order, marked with every turn's number, cleared when audio is stale. */
  lemma {:induction false} TransportIsAsked(acts: seq<Action>)
    requires Run(acts).Some?
    ensures var heard, told := Heard(Run(acts).value), Dispatched(acts);
      && FlatMap(AudioSent, heard) == FlatMap(AudioOf, told)
      && FlatMap(Marked, heard) == FlatMap(TurnOf, told)
      && FlatMap(Cleared, heard) == FlatMap(Stale, told)
  {
    CarriesTurns();
    CarriesTransport();
    AllIsCarried(AudioSent, AudioOf, acts);
    AllIsCarried(Marked, TurnOf, acts);
    AllIsCarried(Cleared, Stale, acts);
  }

  /** Once Run has returned, all of that is in the log. */
  lemma {:induction false} NothingIsPending(acts: seq<Action>)
    requires Run(acts).Some? && Run(acts).value.main.Returned?
    ensures Heard(Run(acts).value) == Run(acts).value.log
  {
    RunInv(acts);
  }

  // ----- every failure is reported, once

  function Errors(e: Event): seq<Err> {
    if e.OnError? then [e.err] else []
  }

  function SendErrors(t: Told): seq<Err> {
    if t.ev.ToolCalls? && t.ev.sendErr.Some? then [t.ev.sendErr.value] else []
  }

  /** The failures of setup, of the adapters and of the bridges. */
  function Failures(acts: seq<Action>): seq<Err> {
    if acts == [] then []
    else
      var a := acts[|acts| - 1];
      Failures(acts[..|acts| - 1]) + Raised(a)
  }

  /** Failures recorded but not yet reported. */
  function Unreported(s: State): multiset<Err> {
    Three(OfMain(s.main), OfReader(s.caller), OfReader(s.model))
  }

  function Three(a: multiset<Err>, b: multiset<Err>, c: multiset<Err>): multiset<Err> {
    a + b + c
  }

  function OfMain(m: Main): multiset<Err> {
    if m.Failing? then multiset{m.cause} else multiset{}
  }

  function OfReader(r: Reader): multiset<Err> {
    if r.Recorded? then multiset{r.err} else multiset{}
  }

  lemma {:induction false} ErrorsOfCallbacks(t: Told)
    ensures FlatMap(Errors, Callbacks(t.ev, t.turn)) == SendErrors(t)
  {
    if t.ev.ToolCalls? {
      var tools := ToolEvents(t.ev.ids, false) + [ClearTransport] + ToolEvents(t.ev.ids, true);
      var z: seq<Event> := if t.ev.sendErr.Some? then [OnError(t.ev.sendErr.value)] else [];
      FlatMapNothing(Errors, tools);
      FlatMapConcat(Errors, tools, z);
      if z != [] { FlatMapOne(Errors, z[0]); }
    } else {
      CarriesOne(Errors, t);
    }
  }

  function ErrorsHeard(s: State): multiset<Err> {
    multiset(FlatMap(Errors, Heard(s)))
  }

  function Raised(a: Action): seq<Err> {
    if a.Fail? then [a.err] else if a.Setup? && a.failure.Some? then [a.failure.value] else []
  }

  lemma {:induction false} ErrorsAfterDispatch(s: State, ev: LLMEvent)
    requires Enabled(s, Dispatch(ev))
    ensures var t := Next(s, Dispatch(ev));
      ErrorsHeard(t) == ErrorsHeard(s) + multiset(SendErrors(Told(ev, t.turn))) && Unreported(t) == Unreported(s)
  {
    var t := Next(s, Dispatch(ev));
    assert s.log + [] == s.log;
    FlatMapConcat(Errors, s.log, Callbacks(ev, t.turn));
    ErrorsOfCallbacks(Told(ev, t.turn));
  }

  /** One event more is heard. */
  lemma {:induction false} ErrorsAfterLogging(s: State, a: Action)
    requires PhaseInv(s) && Enabled(s, a) && (a.Announce? || a.Notify? || a.Finish?)
    ensures ErrorsHeard(Next(s, a)) == ErrorsHeard(s) + multiset(Errors(Added(s, a)[0]))
  {
    var e := Added(s, a)[0];
    AddedStep(s, a);
    assert Added(s, a) == [e];
    InsertFlat(Errors, s.log, e, Pending(s));
    FlatMapConcat(Errors, s.log, Pending(s));
  }

  lemma {:induction false} ThreeMoves(a: multiset<Err>, b: multiset<Err>, c: multiset<Err>, x: multiset<Err>)
    ensures Three(a + x, b, c) == Three(a, b + x, c) == Three(a, b, c + x) == Three(a, b, c) + x
  {
  }

  lemma {:induction false} Add(a: multiset<Err>, x: multiset<Err>)
    ensures multiset{} + x == x && a + multiset{} == a && a + x == x + a
  {
  }

  /** What a step reports stops being unreported. */
  lemma {:induction false} ReportStep(s: State, a: Action)
    requires PhaseInv(s) && Enabled(s, a) && (a.Announce? || a.Notify? || a.Finish?)
    ensures Unreported(Next(s, a)) + multiset(Errors(Added(s, a)[0])) == Unreported(s)
  {
    var t, x := Next(s, a), multiset(Errors(Added(s, a)[0]));
    ThreeMoves(OfMain(t.main), OfReader(t.caller), OfReader(t.model), x);
    Add(Unreported(t), x);
    if a.Notify? {
      assert OfReader(Of(s, a.side)) == x == multiset{} + x;
      assert a.side.Caller? ==> OfMain(t.main) == OfMain(s.main) && OfReader(t.model) == OfReader(s.model);
      assert a.side.Model? ==> OfMain(t.main) == OfMain(s.main) && OfReader(t.caller) == OfReader(s.caller);
    } else {
      assert OfReader(t.caller) == OfReader(s.caller) && OfReader(t.model) == OfReader(s.model);
      assert OfMain(s.main) == x == OfMain(t.main) + x;
    }
  }

  /** What a reader records starts being unreported. */
  lemma {:induction false} FailStep(s: State, side: Side, e: Err)
    requires Enabled(s, Fail(side, e))
    ensures Unreported(Next(s, Fail(side, e))) == Unreported(s) + multiset{e}
  {
    var t := Next(s, Fail(side, e));
    ThreeMoves(OfMain(s.main), OfReader(s.caller), OfReader(s.model), multiset{e});
    Add(multiset{}, multiset{e});
    assert OfMain(t.main) == OfMain(s.main);
    if side.Caller? {
      assert OfReader(t.model) == OfReader(s.model) && OfReader(s.caller) == multiset{};
    } else {
      assert OfReader(t.caller) == OfReader(s.caller) && OfReader(s.model) == multiset{};
    }
  }

  lemma {:induction false} SetupFailure(s: State, f: Option<Err>)
    requires Enabled(s, Setup(f))
    ensures Unreported(Next(s, Setup(f))) == Unreported(s) + multiset(Raised(Setup(f)))
  {
    var t, x := Next(s, Setup(f)), multiset(Raised(Setup(f)));
    ThreeMoves(OfMain(s.main), OfReader(s.caller), OfReader(s.model), x);
    Add(multiset{}, x);
    assert OfMain(s.main) == multiset{} && OfMain(t.main) == x && t.caller == s.caller && t.model == s.model;
  }

  /** Every other step leaves what is unreported as it is. */
  lemma {:induction false} OtherStep(s: State, a: Action)
    requires Enabled(s, a) && !a.Announce? && !a.Notify? && !a.Finish? && !a.Fail? && !a.Setup?
    ensures Unreported(Next(s, a)) == Unreported(s)
  {
    var t := Next(s, a);
    assert OfMain(t.main) == OfMain(s.main);
    assert OfReader(t.caller) == OfReader(s.caller);
    assert OfReader(t.model) == OfReader(s.model);
  }

  lemma {:induction false} RecordedStep(s: State, a: Action)
    requires Enabled(s, a) && !a.Announce? && !a.Notify? && !a.Finish?
    ensures Unreported(Next(s, a)) == Unreported(s) + multiset(Raised(a))
  {
    if a.Fail? {
      FailStep(s, a.side, a.err);
    } else if a.Setup? {
      SetupFailure(s, a.failure);
    } else {
      OtherStep(s, a);
      Add(Unreported(s), multiset{});
      assert Raised(a) == [];
    }
  }

  lemma {:induction false} Regroup(h: multiset<Err>, u: multiset<Err>, x: multiset<Err>)
    ensures h + (u + x) == (h + u) + x == (h + x) + u
  {
  }

  lemma {:induction false} AccountedStep(s: State, a: Action)
    requires PhaseInv(s) && Enabled(s, a) && !a.Dispatch?
    ensures ErrorsHeard(Next(s, a)) + Unreported(Next(s, a)) == ErrorsHeard(s) + Unreported(s) + multiset(Raised(a))
  {
    if a.Announce? || a.Notify? || a.Finish? {
      ErrorsAfterLogging(s, a);
      ReportStep(s, a);
      Regroup(ErrorsHeard(s), Unreported(Next(s, a)), multiset(Errors(Added(s, a)[0])));
      Add(ErrorsHeard(s) + Unreported(s), multiset{});
      assert Raised(a) == [];
    } else {
      if a.Emit? { EmitStep(s); } else { NothingLogged(s, a); }
      RecordedStep(s, a);
      Regroup(ErrorsHeard(s), Unreported(s), multiset(Raised(a)));
    }
  }

  /** Errors heard or still to be reported: the batches not sent and the failures. */
  ghost predicate Balanced(s: State, told: seq<Told>, failures: seq<Err>) {
    ErrorsHeard(s) + Unreported(s) == multiset(FlatMap(SendErrors, told)) + multiset(failures)
  }

  lemma {:induction false} BalancedDispatch(s: State, ev: LLMEvent, told: seq<Told>, failures: seq<Err>)
    requires Enabled(s, Dispatch(ev)) && Balanced(s, told, failures)
    ensures var t := Next(s, Dispatch(ev)); Balanced(t, told + [Told(ev, t.turn)], failures)
  {
    var t := Next(s, Dispatch(ev));
    var latest := Told(ev, t.turn);
    var x := multiset(SendErrors(latest));
    ErrorsAfterDispatch(s, ev);
    FlatMapConcat(SendErrors, told, [latest]);
    FlatMapOne(SendErrors, latest);
    assert multiset(FlatMap(SendErrors, told + [latest])) == multiset(FlatMap(SendErrors, told)) + x;
    Regroup(ErrorsHeard(s), Unreported(s), x);
    Regroup(multiset(FlatMap(SendErrors, told)), multiset(failures), x);
  }

  lemma {:induction false} BalancedStep(s: State, a: Action, told: seq<Told>, failures: seq<Err>)
    requires PhaseInv(s) && Enabled(s, a) && !a.Dispatch? && Balanced(s, told, failures)
    ensures Balanced(Next(s, a), told, failures + Raised(a))
  {
    AccountedStep(s, a);
    assert multiset(failures + Raised(a)) == multiset(failures) + multiset(Raised(a));
    Regroup(multiset(FlatMap(SendErrors, told)), multiset(failures), multiset(Raised(a)));
  }

  lemma {:induction false} ErrorsAccounted(acts: seq<Action>)
    requires Run(acts).Some?
    ensures Balanced(Run(acts).value, Dispatched(acts), Failures(acts))
  {
    if acts != [] {
      var before, a := acts[..|acts| - 1], acts[|acts| - 1];
      var s, told := Run(before).value, Dispatched(before);
      ErrorsAccounted(before);
      DispatchedNext(acts);
      assert PhaseInv(s) by { RunInv(before); }
      if a.Dispatch? {
        BalancedDispatch(s, a.ev, told, Failures(before));
        assert Failures(acts) == Failures(before) + [] == Failures(before);
      } else {
        BalancedStep(s, a, told, Failures(before));
        assert told + [] == told;
      }
    }
  }

  /** When Run has returned, OnError was called once for every failure and every batch that could not be sent. */
  lemma {:induction false} EveryFailureIsReported(acts: seq<Action>)
    requires Run(acts).Some? && Run(acts).value.main.Returned?
    ensures multiset(FlatMap(Errors, Run(acts).value.log)) ==
            multiset(FlatMap(SendErrors, Dispatched(acts))) + multiset(Failures(acts))
  {
    ErrorsAccounted(acts);
    NothingIsPending(acts);
    RunInv(acts);
  }

  // ----- setup

  function Setups(acts: seq<Action>): nat {
    if acts == [] then 0
    else Setups(acts[..|acts| - 1]) + if acts[|acts| - 1].Setup? && acts[|acts| - 1].failure.None? then 1 else 0
  }

  /** How far setup has got, and what the observer knows by then. */
  ghost predicate SetupInv(s: State, setups: nat) {
    match s.main
    case Resolving(n) => n > 0 && setups == 2 - n && s.log == []
    case Opening => setups == 2 && s.log == []
    case Injecting => setups == 3 && s.log == []
    case Starting => setups == 3 && s.log == [OnHistoryInjected]
    case Failing(_) => setups < 3 && s.log == []
    case Failed(e) => setups < 3 && s.log == [OnError(e)]
    case Returned(reason, err) =>
      if s.caller.NotStarted? then
        setups < 3 && err.Some? && reason == FatalError && s.log == [OnError(err.value), OnSessionEnd(FatalError)]
      else Opened(s.log, setups)
    case _ => Opened(s.log, setups)
  }

  ghost predicate Opened(log: seq<Event>, setups: nat) {
    setups == 3 && |log| >= 2 && log[0] == OnHistoryInjected && log[1] == OnSessionStart
  }

  lemma {:induction false} SetupStep(s: State, a: Action, setups: nat)
    requires PhaseInv(s) && SetupInv(s, setups) && Enabled(s, a)
    ensures SetupInv(Next(s, a), setups + if a.Setup? && a.failure.None? then 1 else 0)
  {
  }

  /**
    The readers start after the third successful setup step, with OnHistoryInjected and OnSessionStart
    first in the log; a failed one ends the session with OnError and OnSessionEnd and nothing else.
   */
  lemma {:induction false} SetupInOrder(acts: seq<Action>)
    requires Run(acts).Some?
    ensures SetupInv(Run(acts).value, Setups(acts))
  {
    if acts != [] {
      var before := acts[..|acts| - 1];
      SetupInOrder(before);
      assert PhaseInv(Run(before).value) by { RunInv(before); }
      SetupStep(Run(before).value, acts[|acts| - 1], Setups(before));
    }
  }

  // ----- cancellation of the inner context

  /** The inner context's error, read off the actions: a closing alone never cancels it. */
  function RunCtx(acts: seq<Action>): Option<Err> {
    if acts == [] then None
    else
      var r, a := RunCtx(acts[..|acts| - 1]), acts[|acts| - 1];
      if r.Some? then r
      else if a.CancelOuter? then Some(a.err)
      else if a.Cancel? || a.Drain? then Some("context canceled")
      else None
  }

  ghost predicate HasFailed(acts: seq<Action>, side: Side) {
    exists i :: 0 <= i < |acts| && acts[i].Fail? && acts[i].side == side
  }

  /** A failed reader has recorded its error, and cancels before it exits. */
  ghost predicate Stopping(s: State, side: Side) {
    var r := Of(s, side);
    r.Recorded? || r.Notified? || (r.Exited? && s.runCtxErr.Some?)
  }

  lemma {:induction false} StoppingStep(s: State, a: Action, side: Side)
    requires PhaseInv(s) && Enabled(s, a) && (Stopping(s, side) || (a.Fail? && a.side == side))
    ensures Stopping(Next(s, a), side)
  {
  }

  /** The inner context's error is what the actions make it; a reader that failed has cancelled it when it exits. */
  lemma {:induction false} RunContext(acts: seq<Action>)
    requires Run(acts).Some?
    ensures Run(acts).value.runCtxErr == RunCtx(acts)
    ensures forall side :: HasFailed(acts, side) ==> Stopping(Run(acts).value, side)
  {
    if acts != [] {
      var before, a := acts[..|acts| - 1], acts[|acts| - 1];
      RunContext(before);
      var s := Run(before).value;
      assert PhaseInv(s) by { RunInv(before); }
      forall side | HasFailed(acts, side) ensures Stopping(Run(acts).value, side) {
        if !(a.Fail? && a.side == side) {
          var i :| 0 <= i < |acts| && acts[i].Fail? && acts[i].side == side;
          assert before[i] == acts[i];
        }
        StoppingStep(s, a, side);
      }
    }
  }

  /** A reader on its way out after an error did fail. */
  lemma {:induction false} FailedBefore(acts: seq<Action>, side: Side)
    requires Run(acts).Some? && (Of(Run(acts).value, side).Recorded? || Of(Run(acts).value, side).Notified?)
    ensures HasFailed(acts, side)
  {
    assert acts != [] by { assert Run([]) == Some(INITIAL); }
    var n := |acts| - 1;
    var s := Run(acts[..n]).value;
    if acts[n].Fail? && acts[n].side == side {
      assert HasFailed(acts, side);
    } else {
      FailedBefore(acts[..n], side);
      var i :| 0 <= i < n && acts[..n][i].Fail? && acts[..n][i].side == side;
      assert acts[i] == acts[..n][i];
    }
  }

  /** The inner context ends only with the outer one or by a failure: closing a side ends neither reader's context. */
  lemma {:induction false} ContextEndsForAReason(acts: seq<Action>)
    requires Run(acts).Some? && RunCtx(acts).Some?
    ensures CtxErr(acts).Some? || HasFailed(acts, Caller) || HasFailed(acts, Model)
  {
    var n := |acts| - 1;
    var before, a := acts[..n], acts[n];
    EndIsVerdict(before);
    if RunCtx(before).Some? {
      ContextEndsForAReason(before);
      FailuresStand(before, a, Caller);
      FailuresStand(before, a, Model);
      assert acts == before + [a];
    } else if a.Cancel? {
      FailedBefore(before, a.side);
      FailuresStand(before, a, a.side);
      assert acts == before + [a];
    }
  }

  lemma {:induction false} FailuresStand(before: seq<Action>, a: Action, side: Side)
    ensures HasFailed(before, side) ==> HasFailed(before + [a], side)
  {
    if HasFailed(before, side) {
      var i :| 0 <= i < |before| && before[i].Fail? && before[i].side == side;
      assert (before + [a])[i] == before[i];
    }
  }

  // ----- progress

  /** Steps the pipeline takes by itself; the others wait for an adapter or for the outer context. */
  predicate IsOwn(a: Action) {
    a.Announce? || a.Emit? || a.EndDispatch? || a.Notify? || a.Cancel? || a.Drain? || a.Collect? || a.Finish?
  }

  function ReaderMove(r: Reader, side: Side): Action {
    match r
    case Dispatching(pending) => if pending == [] then EndDispatch else Emit
    case Recorded(_) => Notify(side)
    case _ => Cancel(side)
  }

  /** The step that is due. */
  function Due(s: State): Action {
    if s.main.Injecting? || s.main.Starting? || s.main.Failing? then Announce
    else if s.main.Ending? || s.main.Failed? then Finish
    else if !s.caller.Exited? && !s.caller.Reading? then ReaderMove(s.caller, Caller)
    else if !s.model.Exited? && !s.model.Reading? then ReaderMove(s.model, Model)
    else Collect
  }

  lemma {:induction false} DueIsEnabled(s: State)
    requires PhaseInv(s) && !s.main.Returned? && !s.main.Resolving? && !s.main.Opening?
    requires (s.main.Waiting? || s.main.Draining?) ==> !s.caller.Reading? && !s.model.Reading?
    ensures IsOwn(Due(s)) && Enabled(s, Due(s))
  {
  }

  lemma {:induction false} CanTake(acts: seq<Action>, a: Action)
    requires Run(acts).Some? && Enabled(Run(acts).value, a)
    ensures Run(acts + [a]) == Some(Next(Run(acts).value, a))
  {
    assert (acts + [a])[..|acts|] == acts;
  }

  /** Until Run returns it can move by itself, unless it waits for setup or for an adapter. */
  lemma {:induction false} NeverStuck(acts: seq<Action>)
    requires Run(acts).Some? && !Run(acts).value.main.Returned?
    ensures var s := Run(acts).value;
      || (exists a :: IsOwn(a) && Run(acts + [a]).Some?)
      || s.main.Resolving? || s.main.Opening?
      || s.caller.Reading? || s.model.Reading?
  {
    var s := Run(acts).value;
    assert PhaseInv(s) by { RunInv(acts); }
    if !s.main.Resolving? && !s.main.Opening? && !s.caller.Reading? && !s.model.Reading? {
      DueIsEnabled(s);
      CanTake(acts, Due(s));
    }
  }

  /** And while it waits it takes whatever comes. */
  lemma {:induction false} TakesWhatComes(acts: seq<Action>, f: Option<Err>, side: Side, e: Err, ev: LLMEvent)
    requires Run(acts).Some?
    ensures var s := Run(acts).value;
      && (s.ctxErr.None? ==> Run(acts + [CancelOuter(e)]).Some?)
      && (s.main.Resolving? || s.main.Opening? ==> Run(acts + [Setup(f)]).Some?)
      && (Of(s, side).Reading? ==> Run(acts + [Close(side)]).Some? && Run(acts + [Fail(side, e)]).Some?)
      && (s.model.Reading? ==> Run(acts + [Dispatch(ev)]).Some?)
      && (s.main.Waiting? && s.ctxErr.Some? ==> Run(acts + [Drain]).Some?)
  {
    var s := Run(acts).value;
    if s.ctxErr.None? { CanTake(acts, CancelOuter(e)); }
    if s.main.Resolving? || s.main.Opening? { CanTake(acts, Setup(f)); }
    if Of(s, side).Reading? {
      CanTake(acts, Close(side));
      CanTake(acts, Fail(side, e));
    }
    if s.model.Reading? { CanTake(acts, Dispatch(ev)); }
    if s.main.Waiting? && s.ctxErr.Some? { CanTake(acts, Drain); }
  }

  function ReaderLeft(r: Reader): nat {
    match r
    case NotStarted => 4
    case Reading => 4
    case Dispatching(pending) => 5 + |pending|
    case Recorded(_) => 3
    case Notified => 2
    case Exited => 1
  }

  function MainLeft(m: Main): nat {
    match m
    case Resolving(n) => 6 + n
    case Opening => 6
    case Injecting => 5
    case Starting => 4
    case Waiting => 3
    case Draining => 2
    case Ending(_, _) => 1
    case Failing(_) => 2
    case Failed(_) => 1
    case Returned(_, _) => 0
  }

  /** A bound on the steps still to come, dispatches aside. */
  function Left(s: State): nat {
    MainLeft(s.main) + ReaderLeft(s.caller) + ReaderLeft(s.model) + if s.ctxErr.None? then 1 else 0
  }

  /** What the dispatches of a run account for: two steps and one per callback. */
  function Cost(told: seq<Told>): nat {
    if told == [] then 0 else Cost(told[..|told| - 1]) + 2 + |Callbacks(told[|told| - 1].ev, told[|told| - 1].turn)|
  }

  lemma {:induction false} LeftStep(s: State, a: Action)
    requires PhaseInv(s) && Enabled(s, a) && (s.main.Resolving? ==> s.main.bridges > 0)
    ensures var t := Next(s, a);
      if a.Dispatch? then Left(t) == Left(s) + 1 + |Callbacks(a.ev, t.turn)| else Left(t) < Left(s)
  {
  }

  /** A session takes a bounded number of steps for the events it is given: it never goes on by itself. */
  lemma {:induction false} StepsAreBounded(acts: seq<Action>)
    requires Run(acts).Some?
    ensures |acts| + Left(Run(acts).value) <= 17 + Cost(Dispatched(acts))
  {
    if acts != [] {
      var before, a := acts[..|acts| - 1], acts[|acts| - 1];
      StepsAreBounded(before);
      assert PhaseInv(Run(before).value) by { RunInv(before); }
      SetupInOrder(before);
      LeftStep(Run(before).value, a);
      DispatchedNext(acts);
      if a.Dispatch? {
        var told := Dispatched(before);
        var t := Told(a.ev, Run(acts).value.turn);
        assert (told + [t])[..|told|] == told;
      } else {
        assert Dispatched(before) + [] == Dispatched(before);
      }
    }
  }

  /** With both readers gone Run returns, in two steps, with the verdict of the run. */
  lemma {:induction false} ReturnsTheVerdict(acts: seq<Action>)
    requires Run(acts).Some? && (Run(acts).value.main.Waiting? || Run(acts).value.main.Draining?)
    requires Run(acts).value.caller.Exited? && Run(acts).value.model.Exited?
    ensures var r := Run(acts + [Collect] + [Finish]);
      && r.Some? && r.value.main.Returned?
      && Verdict(acts) == Some((r.value.main.reason, r.value.main.err))
  {
    var s := Run(acts).value;
    RunInv(acts);
    EndIsVerdict(acts);
    SettleIsFirstRecord(s);
    CanTake(acts, Collect);
    CanTake(acts + [Collect], Finish);
  }
}
