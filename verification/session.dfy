/**
  Run of voice/pipeline: the main goroutine, the caller-audio reader and the LLM-events reader,
  as a step relation.  Channel closings, adapter errors and outer cancellation may happen at any
  moment, so the runs cover every interleaving.  The fan-out of tool calls is in tool_fanout.dfy;
  here it contributes only its observer callbacks.
 */
module Session {
  import opened Wrappers

  type Err = string

  type Frame = seq<int>

  const CANCELED: Err := "context canceled"

  datatype EndReason = ContextDone | TransportClosed | LLMClosed | FatalError

  /** What the observer is told and what the transport is asked to do, in order. */
  datatype Event =
    | SendAudio(frame: Frame)
    | Mark(turn: nat)
    | ClearTransport
    | OnError(err: Err)
    | OnHistoryInjected
    | OnSessionStart
    | OnAssistantText(text: string, final: bool)
    | OnCallerTranscript(text: string)
    | OnTurnComplete(turn: nat)
    | OnInterrupted
    | OnToolCall(id: string)
    | OnToolResponse(id: string)
    | OnSessionEnd(reason: EndReason)

  datatype LLMEvent =
    | AudioOut(frame: Frame)
    | AssistantText(text: string, final: bool)
    | CallerTranscript(text: string)
    | TurnComplete
    | Interrupted
    | ToolCalls(ids: seq<string>, sendErr: Option<Err>)

  datatype Side = Caller | Model

  /** Recorded: recordEnd is done, OnError and cancel are still to come. */
  datatype Reader = NotStarted | Reading | Dispatching(pending: seq<Event>) | Recorded(err: Err) | Notified | Exited

  datatype Main =
    | Resolving(bridges: nat)
    | Opening
    | Injecting
    | Starting
    | Waiting
    | Draining
    | Ending(reason: EndReason, err: Option<Err>)
    | Failing(cause: Err)
    | Failed(cause: Err)
    | Returned(reason: EndReason, err: Option<Err>)

  /** One call of recordEnd, with the outer context's error at that moment. */
  datatype Record = Record(reason: EndReason, err: Option<Err>, ctxErr: Option<Err>)

  datatype State = State(
    main: Main,
    caller: Reader,
    model: Reader,
    ctxErr: Option<Err>,      // outer context
    runCtxErr: Option<Err>,   // its cancellable child
    end: Option<(EndReason, Option<Err>)>,
    turn: nat,
    records: seq<Record>,
    log: seq<Event>)

  datatype Action =
    | CancelOuter(err: Err)
    | Setup(failure: Option<Err>)
    | Announce
    | Close(side: Side)
    | Fail(side: Side, err: Err)
    | Dispatch(ev: LLMEvent)
    | Emit
    | EndDispatch
    | Notify(side: Side)
    | Cancel(side: Side)
    | Drain
    | Collect
    | Finish

  const INITIAL := State(Resolving(2), NotStarted, NotStarted, None, None, None, 0, [], [])

  function Of(s: State, side: Side): Reader {
    if side.Caller? then s.caller else s.model
  }

  function Put(s: State, side: Side, r: Reader): State {
    if side.Caller? then s.(caller := r) else s.(model := r)
  }

  function OrElse<T>(a: Option<T>, b: T): Option<T> {
    if a.Some? then a else Some(b)
  }

  /** What a call of recordEnd stores if it is the first. */
  function Resolve(r: Record): (EndReason, Option<Err>) {
    if r.ctxErr.Some? then (ContextDone, r.ctxErr) else (r.reason, r.err)
  }

  function RecordEnd(s: State, reason: EndReason, err: Option<Err>): State {
    var r := Record(reason, err, s.ctxErr);
    s.(end := OrElse(s.end, Resolve(r)), records := s.records + [r])
  }

  function ToolEvents(ids: seq<string>, responses: bool): (r: seq<Event>)
    ensures forall i :: 0 <= i < |r| ==> r[i].OnToolCall? || r[i].OnToolResponse?
  {
    if ids == [] then []
    else [if responses then OnToolResponse(ids[0]) else OnToolCall(ids[0])] + ToolEvents(ids[1..], responses)
  }

  /**
    What one LLM event leads to; `turn` already counts a completed turn, and the frame of AudioOut is
    the bridged one.  An AudioOut that cannot be bridged or sent is a Fail.
   */
  function Callbacks(ev: LLMEvent, turn: nat): seq<Event> {
    match ev
    case AudioOut(frame) => [SendAudio(frame)]
    case AssistantText(text, final) => [OnAssistantText(text, final)]
    case CallerTranscript(text) => [OnCallerTranscript(text)]
    case TurnComplete => [Mark(turn), OnTurnComplete(turn)]
    case Interrupted => [ClearTransport, OnInterrupted]
    case ToolCalls(ids, sendErr) =>
      ToolEvents(ids, false) + [ClearTransport] + ToolEvents(ids, true) +
      if sendErr.Some? then [OnError(sendErr.value)] else []
  }

  predicate Enabled(s: State, a: Action) {
    match a
    case CancelOuter(_) => s.ctxErr.None?
    case Setup(_) => s.main.Resolving? || s.main.Opening?
    case Announce => s.main.Injecting? || s.main.Starting? || s.main.Failing?
    case Close(side) => Of(s, side).Reading?
    case Fail(side, _) => Of(s, side).Reading?
    case Dispatch(_) => s.model.Reading?
    case Emit => s.model.Dispatching? && s.model.pending != []
    case EndDispatch => s.model == Dispatching([])
    case Notify(side) => Of(s, side).Recorded?
    case Cancel(side) => Of(s, side).Notified?
    case Drain => s.main.Waiting? && s.ctxErr.Some?
    case Collect => (s.main.Waiting? || s.main.Draining?) && s.caller.Exited? && s.model.Exited?
    case Finish => s.main.Ending? || s.main.Failed?
  }

  /** The reason and error Run settles on after both readers have exited. */
  function Settle(s: State): (EndReason, Option<Err>) {
    var (reason, err) := if s.end.Some? then s.end.value else (ContextDone, None);
    (reason, if s.runCtxErr == Some(CANCELED) && err.None? && reason.ContextDone? then s.runCtxErr else err)
  }

  function Next(s: State, a: Action): State
    requires Enabled(s, a)
  {
    match a
    case CancelOuter(e) => s.(ctxErr := Some(e), runCtxErr := OrElse(s.runCtxErr, e))
    case Setup(failure) =>
      if failure.Some? then s.(main := Failing(failure.value))
      else if s.main.Opening? then s.(main := Injecting)
      else s.(main := if s.main.bridges > 1 then Resolving(s.main.bridges - 1) else Opening)
    case Announce =>
      (match s.main
       case Failing(e) => s.(main := Failed(e), log := s.log + [OnError(e)])
       case Injecting => s.(main := Starting, log := s.log + [OnHistoryInjected])
       case _ => s.(main := Waiting, caller := Reading, model := Reading, log := s.log + [OnSessionStart]))
    case Close(side) =>
      Put(RecordEnd(s, if side.Caller? then TransportClosed else LLMClosed, None), side, Exited)
    case Fail(side, e) => Put(RecordEnd(s, FatalError, Some(e)), side, Recorded(e))
    case Dispatch(ev) =>
      var turn := if ev.TurnComplete? then s.turn + 1 else s.turn;
      s.(turn := turn, model := Dispatching(Callbacks(ev, turn)))
    case Emit => s.(model := Dispatching(s.model.pending[1..]), log := s.log + [s.model.pending[0]])
    case EndDispatch => s.(model := Reading)
    case Notify(side) => Put(s, side, Notified).(log := s.log + [OnError(Of(s, side).err)])
    case Cancel(side) => Put(s, side, Exited).(runCtxErr := OrElse(s.runCtxErr, CANCELED))
    case Drain => s.(main := Draining, runCtxErr := OrElse(s.runCtxErr, CANCELED))
    case Collect => s.(main := Ending(Settle(s).0, Settle(s).1))
    case Finish =>
      var (reason, err) := if s.main.Failed? then (FatalError, Some(s.main.cause)) else (s.main.reason, s.main.err);
      s.(main := Returned(reason, err), log := s.log + [OnSessionEnd(reason)])
  }

  /** The state a run of actions reaches; None when some action was not enabled. */
  function Run(acts: seq<Action>): Option<State> {
    if acts == [] then Some(INITIAL)
    else
      var r := Run(acts[..|acts| - 1]);
      var a := acts[|acts| - 1];
      if r.Some? && Enabled(r.value, a) then Some(Next(r.value, a)) else None
  }

  // ----- the invariant

  ghost predicate NoEnd(log: seq<Event>) {
    forall i :: 0 <= i < |log| ==> !log[i].OnSessionEnd?
  }

  /** Which readers can exist in each phase of main, and when OnSessionEnd is in the log. */
  ghost predicate PhaseInv(s: State) {
    && (s.model.Dispatching? ==> NoEnd(s.model.pending))
    && !s.caller.Dispatching?
    && match s.main
       case Waiting => !s.caller.NotStarted? && !s.model.NotStarted? && NoEnd(s.log)
       case Draining => !s.caller.NotStarted? && !s.model.NotStarted? && NoEnd(s.log)
       case Ending(_, _) => s.caller.Exited? && s.model.Exited? && NoEnd(s.log)
       case Returned(reason, _) =>
         && ((s.caller.Exited? && s.model.Exited?) || (s.caller.NotStarted? && s.model.NotStarted?))
         && s.log != [] && s.log[|s.log| - 1] == OnSessionEnd(reason) && NoEnd(s.log[..|s.log| - 1])
       case _ => s.caller.NotStarted? && s.model.NotStarted? && NoEnd(s.log)
  }

  /** A fatal record's error has reached OnError, or the reader that recorded it is about to report it. */
  ghost predicate Reported(s: State, e: Err) {
    OnError(e) in s.log || s.caller == Recorded(e) || s.model == Recorded(e)
  }

  ghost predicate Matches(s: State, r: Record) {
    && !r.reason.ContextDone?
    && (r.reason.FatalError? <==> r.err.Some?)
    && (r.err.Some? ==> Reported(s, r.err.value))
    && (r.ctxErr.Some? ==> r.ctxErr == s.ctxErr)
  }

  predicate Past(r: Reader) {
    r.Recorded? || r.Notified? || r.Exited?
  }

  /** `end` is what the first recordEnd resolved to, and a reader past Reading has called it. */
  ghost predicate RecordInv(s: State) {
    && s.end == (if s.records == [] then None else Some(Resolve(s.records[0])))
    && (forall i :: 0 <= i < |s.records| ==> Matches(s, s.records[i]))
    && (Past(s.caller) || Past(s.model) ==> s.records != [])
    && (s.main.Ending? || (s.main.Returned? && s.caller.Exited?) ==>
         s.records != [] && (s.main.reason, s.main.err) == Resolve(s.records[0]))
    && (s.main.Failed? ==> OnError(s.main.cause) in s.log)
    && (s.main.Returned? && s.caller.NotStarted? ==>
         s.main.reason.FatalError? && s.main.err.Some? && OnError(s.main.err.value) in s.log)
  }

  /** The last-moment override of a nil error never applies: a reader has always recorded an end. */
  lemma {:induction false} SettleIsFirstRecord(s: State)
    requires RecordInv(s) && s.records != []
    ensures Settle(s) == Resolve(s.records[0])
  {
    assert Matches(s, s.records[0]);
  }

  lemma {:induction false} PhaseStep(s: State, a: Action)
    requires PhaseInv(s) && Enabled(s, a)
    ensures PhaseInv(Next(s, a))
  {
  }

  predicate IsRecording(a: Action) {
    a.Close? || a.Fail?
  }

  predicate IsOfMain(a: Action) {
    a.Setup? || a.Announce? || a.Drain? || a.Collect? || a.Finish?
  }

  lemma {:induction false} RecordingStep(s: State, a: Action)
    requires PhaseInv(s) && RecordInv(s) && Enabled(s, a) && IsRecording(a)
    ensures RecordInv(Next(s, a))
  {
  }

  lemma {:induction false} MainStep(s: State, a: Action)
    requires PhaseInv(s) && RecordInv(s) && Enabled(s, a) && IsOfMain(a)
    ensures RecordInv(Next(s, a))
  {
    if a.Collect? { SettleIsFirstRecord(s); }
  }

  lemma {:induction false} ReaderStep(s: State, a: Action)
    requires PhaseInv(s) && RecordInv(s) && Enabled(s, a) && !IsRecording(a) && !IsOfMain(a)
    ensures RecordInv(Next(s, a))
  {
  }

  lemma {:induction false} RecordStep(s: State, a: Action)
    requires PhaseInv(s) && RecordInv(s) && Enabled(s, a)
    ensures RecordInv(Next(s, a))
  {
    if IsRecording(a) { RecordingStep(s, a); } else if IsOfMain(a) { MainStep(s, a); } else { ReaderStep(s, a); }
  }

  // ----- turn numbers

  function Turns(log: seq<Event>): seq<nat> {
    if log == [] then []
    else (if log[0].OnTurnComplete? then [log[0].turn] else []) + Turns(log[1..])
  }

  function Pending(s: State): seq<Event> {
    if s.model.Dispatching? then s.model.pending else []
  }

  function FirstTurns(n: nat): seq<nat> {
    seq(n, i requires i >= 0 => i + 1)
  }

  ghost predicate TurnInv(s: State) {
    Turns(s.log + Pending(s)) == FirstTurns(s.turn)
  }

  lemma {:induction false} TurnsConcat(a: seq<Event>, b: seq<Event>)
    ensures Turns(a + b) == Turns(a) + Turns(b)
  {
    if a == [] {
      assert a + b == b;
    } else {
      TurnsConcat(a[1..], b);
      assert (a + b)[1..] == a[1..] + b;
    }
  }

  lemma {:induction false} NoTurns(log: seq<Event>)
    requires forall i :: 0 <= i < |log| ==> !log[i].OnTurnComplete?
    ensures Turns(log) == []
  {
    if log != [] { NoTurns(log[1..]); }
  }

  lemma {:induction false} CallbackTurns(ev: LLMEvent, turn: nat)
    ensures Turns(Callbacks(ev, turn)) == if ev.TurnComplete? then [turn] else []
  {
    if ev.TurnComplete? {
      var last := [OnTurnComplete(turn)];
      assert Callbacks(ev, turn)[1..] == last && last[1..] == [];
      assert Turns(last) == [turn] + Turns([]);
    } else {
      NoTurns(Callbacks(ev, turn));
    }
  }

  /** An event that is not a completed turn may be logged at any moment. */
  lemma {:induction false} LogQuietly(log: seq<Event>, e: Event, pending: seq<Event>)
    requires !e.OnTurnComplete?
    ensures Turns(log + [e] + pending) == Turns(log + pending)
  {
    TurnsConcat(log + [e], pending);
    TurnsConcat(log, [e]);
    TurnsConcat(log, pending);
  }

  /** Steps that log one event other than a completed turn. */
  lemma {:induction false} TurnLogged(s: State, t: State, e: Event)
    requires TurnInv(s) && !e.OnTurnComplete?
    requires t.log == s.log + [e] && Pending(t) == Pending(s) && t.turn == s.turn
    ensures TurnInv(t)
  {
    LogQuietly(s.log, e, Pending(s));
  }

  lemma {:induction false} TurnDispatched(s: State, ev: LLMEvent)
    requires TurnInv(s) && Enabled(s, Dispatch(ev))
    ensures TurnInv(Next(s, Dispatch(ev)))
  {
    var turn := Next(s, Dispatch(ev)).turn;
    TurnsConcat(s.log, Callbacks(ev, turn));
    CallbackTurns(ev, turn);
    assert s.log + [] == s.log;
    if ev.TurnComplete? { assert FirstTurns(turn) == FirstTurns(s.turn) + [turn]; }
  }

  lemma {:induction false} TurnEmitted(s: State)
    requires TurnInv(s) && Enabled(s, Emit)
    ensures TurnInv(Next(s, Emit))
  {
    var t := Next(s, Emit);
    assert t.log + Pending(t) == s.log + Pending(s);
  }

  /** What Announce, Notify and Finish log. */
  lemma {:induction false} Logged(s: State, a: Action) returns (e: Event)
    requires PhaseInv(s) && Enabled(s, a) && (a.Announce? || a.Notify? || a.Finish?)
    ensures var t := Next(s, a);
      !e.OnTurnComplete? && t.log == s.log + [e] && Pending(t) == Pending(s) && t.turn == s.turn
  {
    e := Next(s, a).log[|s.log|];
  }

  lemma {:induction false} TurnStep(s: State, a: Action)
    requires PhaseInv(s) && TurnInv(s) && Enabled(s, a)
    ensures TurnInv(Next(s, a))
  {
    if a.Dispatch? {
      TurnDispatched(s, a.ev);
    } else if a.Emit? {
      TurnEmitted(s);
    } else if a.Announce? || a.Notify? || a.Finish? {
      var e := Logged(s, a);
      TurnLogged(s, Next(s, a), e);
    } else {
      NothingLogged(s, a);
    }
  }

  lemma {:induction false} NothingLogged(s: State, a: Action)
    requires Enabled(s, a) && !a.Dispatch? && !a.Emit? && !a.Announce? && !a.Notify? && !a.Finish?
    ensures var t := Next(s, a); t.log == s.log && Pending(t) == Pending(s) && t.turn == s.turn
  {
  }

  // ----- what every run guarantees

  lemma {:induction false} RunInv(acts: seq<Action>)
    requires Run(acts).Some?
    ensures PhaseInv(Run(acts).value) && RecordInv(Run(acts).value) && TurnInv(Run(acts).value)
  {
    if acts != [] {
      var before := acts[..|acts| - 1];
      RunInv(before);
      PhaseStep(Run(before).value, acts[|acts| - 1]);
      RecordStep(Run(before).value, acts[|acts| - 1]);
      TurnStep(Run(before).value, acts[|acts| - 1]);
    }
  }

  /**
    OnSessionEnd is in the log exactly when Run has returned; it is there once, it is last, and by
    then both readers have stopped or, after a setup failure, never started.
   */
  lemma {:induction false} SessionEndsOnce(acts: seq<Action>)
    requires Run(acts).Some?
    ensures var s := Run(acts).value;
      && (s.main.Returned? <==> exists i :: 0 <= i < |s.log| && s.log[i].OnSessionEnd?)
      && (s.main.Returned? ==>
           && s.log[|s.log| - 1] == OnSessionEnd(s.main.reason)
           && NoEnd(s.log[..|s.log| - 1])
           && ((s.caller.Exited? && s.model.Exited?) || (s.caller.NotStarted? && s.model.NotStarted?)))
  {
    RunInv(acts);
    EndedOnce(Run(acts).value);
  }

  lemma {:induction false} EndedOnce(s: State)
    requires PhaseInv(s)
    ensures s.main.Returned? <==> exists i :: 0 <= i < |s.log| && s.log[i].OnSessionEnd?
  {
    if s.main.Returned? { assert s.log[|s.log| - 1].OnSessionEnd?; }
  }

  /** The reported reason is that of the first recordEnd, and the returned error fits it. */
  lemma {:induction false} ReasonMatchesError(acts: seq<Action>)
    requires Run(acts).Some? && Run(acts).value.main.Returned?
    ensures var s := Run(acts).value;
      && (s.caller.Exited? ==> s.records != [] && (s.main.reason, s.main.err) == Resolve(s.records[0]))
      && match s.main.reason
         case FatalError => s.main.err.Some? && OnError(s.main.err.value) in s.log
         case ContextDone => s.main.err.Some? && s.main.err == s.ctxErr
         case TransportClosed => s.main.err.None?
         case LLMClosed => s.main.err.None?
  {
    RunInv(acts);
    var s := Run(acts).value;
    if s.caller.Exited? { assert Matches(s, s.records[0]); }
  }

  /** The outer context's error after a run: that of its first cancellation. */
  function CtxErr(acts: seq<Action>): Option<Err> {
    if acts == [] then None
    else
      var r, a := CtxErr(acts[..|acts| - 1]), acts[|acts| - 1];
      if r.None? && a.CancelOuter? then Some(a.err) else r
  }

  /** The verdict of a run, read off its actions: the first closing or failure decides, unless the context was done. */
  function Verdict(acts: seq<Action>): Option<(EndReason, Option<Err>)> {
    if acts == [] then None
    else
      var before, a := acts[..|acts| - 1], acts[|acts| - 1];
      if Verdict(before).Some? then Verdict(before)
      else if !a.Close? && !a.Fail? then None
      else if CtxErr(before).Some? then Some((ContextDone, CtxErr(before)))
      else if a.Fail? then Some((FatalError, Some(a.err)))
      else Some((if a.side == Caller then TransportClosed else LLMClosed, None))
  }

  lemma {:induction false} EndIsVerdict(acts: seq<Action>)
    requires Run(acts).Some?
    ensures Run(acts).value.ctxErr == CtxErr(acts) && Run(acts).value.end == Verdict(acts)
  {
    if acts != [] { EndIsVerdict(acts[..|acts| - 1]); }
  }

  /** A session that got as far as its readers reports the verdict of its run. */
  lemma {:induction false} ReportsTheVerdict(acts: seq<Action>)
    requires Run(acts).Some? && Run(acts).value.main.Returned? && Run(acts).value.caller.Exited?
    ensures Verdict(acts) == Some((Run(acts).value.main.reason, Run(acts).value.main.err))
  {
    EndIsVerdict(acts);
    RunInv(acts);
  }

  /** Once Run has returned nothing more reaches the observer and the answer stands. */
  lemma {:induction false} NothingAfterReturn(acts: seq<Action>, more: seq<Action>)
    requires Run(acts).Some? && Run(acts).value.main.Returned? && Run(acts + more).Some?
    ensures Run(acts + more).value.log == Run(acts).value.log
    ensures Run(acts + more).value.main == Run(acts).value.main
  {
    if more == [] {
      assert acts + more == acts;
    } else {
      var whole := acts + more;
      assert whole[..|whole| - 1] == acts + more[..|more| - 1];
      NothingAfterReturn(acts, more[..|more| - 1]);
      RunInv(acts + more[..|more| - 1]);
    }
  }

  /** The completed turns reported so far are numbered 1, 2, 3, ... without gap or repeat. */
  lemma {:induction false} TurnsNumberedInOrder(acts: seq<Action>)
    requires Run(acts).Some?
    ensures Turns(Run(acts).value.log) <= FirstTurns(Run(acts).value.turn)
  {
    RunInv(acts);
    var s := Run(acts).value;
    TurnsConcat(s.log, Pending(s));
  }
}
