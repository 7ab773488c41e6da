/**
  dispatchToolCalls of voice/pipeline: the dispatching goroutine and one worker goroutine per
  tool call, as a step relation.  A run is any sequence of enabled actions, so it covers every
  interleaving and every mix of returns, errors and panics of Execute.
 */
module ToolFanout {
  import opened Wrappers

  datatype Call = Call(id: string, name: string, args: string)

  /** How Execute ends. */
  datatype Exec = Returned(data: string, err: Option<string>) | Panicked(reason: string)

  datatype ToolResult = ToolResult(callId: string, data: string, err: Option<string>)

  const ZERO := ToolResult("", "", None)

  function ResultOf(call: Call, exec: Exec): ToolResult {
    match exec
    case Returned(data, err) => ToolResult(call.id, data, err)
    case Panicked(reason) => ToolResult(call.id, "", Some("pipeline: tool executor panicked: " + reason))
  }

  /** Where one worker is.  It holds a semaphore slot from Spawned up to and including Wrote. */
  datatype Worker =
    | Idle
    | Spawned
    | Running
    | Executed(exec: Exec)
    | Wrote(exec: Exec)
    | Released(exec: Exec)
    | Finished(exec: Exec)

  datatype Phase =
    | Announcing(next: nat)
    | Spawning(next: nat)
    | Clearing
    | Responding(next: nat)
    | Over

  datatype Event =
    | OnToolCall(i: nat)
    | Start(i: nat)
    | End(i: nat, exec: Exec)
    | Write(i: nat)
    | ClearTransport
    | OnToolResponse(i: nat, result: ToolResult)
    | SendToolResults(results: seq<ToolResult>)
    | OnError

  datatype State = State(phase: Phase, workers: seq<Worker>, results: seq<ToolResult>, sem: nat, log: seq<Event>)

  /**
    The dispatcher's steps, and Advance: worker i takes its next step, where `exec` is how
    Execute ends when that step is its return.
   */
  datatype Action =
    | Announce
    | Begin
    | Spawn
    | Advance(i: nat, exec: Exec)
    | Join
    | Clear
    | Respond
    | Send(ok: bool)

  function Initial(n: nat): State {
    State(Announcing(0), seq(n, _ => Idle), seq(n, _ => ZERO), 0, [])
  }

  predicate AllFinished(workers: seq<Worker>) {
    forall i :: 0 <= i < |workers| ==> workers[i].Finished?
  }

  function Advanced(w: Worker, exec: Exec): Worker
    requires !w.Idle? && !w.Finished?
  {
    match w
    case Spawned => Running
    case Running => Executed(exec)
    case Executed(e) => Wrote(e)
    case Wrote(e) => Released(e)
    case Released(e) => Finished(e)
  }

  /** The event a worker logs on becoming w: entering Execute, leaving it, writing its slot. */
  function Emitted(i: nat, w: Worker): seq<Event> {
    match w
    case Running => [Start(i)]
    case Executed(exec) => [End(i, exec)]
    case Wrote(_) => [Write(i)]
    case _ => []
  }

  /** Whether an action can be taken; `limit` is ToolConcurrency. */
  predicate Enabled(limit: nat, s: State, a: Action) {
    var n := |s.workers|;
    match a
    case Announce => s.phase.Announcing? && s.phase.next < n
    case Begin => s.phase == Announcing(n)
    case Spawn => s.phase.Spawning? && s.phase.next < n && s.sem < limit
    case Advance(i, _) => i < n && !s.workers[i].Idle? && !s.workers[i].Finished? && (s.workers[i].Wrote? ==> s.sem > 0)
    case Join => s.phase == Spawning(n) && AllFinished(s.workers)
    case Clear => s.phase.Clearing?
    case Respond => s.phase.Responding? && s.phase.next < n && s.phase.next < |s.results|
    case Send(_) => s.phase == Responding(n)
  }

  function Next(calls: seq<Call>, limit: nat, s: State, a: Action): State
    requires |calls| == |s.workers| == |s.results| && Enabled(limit, s, a)
  {
    match a
    case Announce => s.(phase := Announcing(s.phase.next + 1), log := s.log + [OnToolCall(s.phase.next)])
    case Begin => s.(phase := Spawning(0))
    case Spawn =>
      s.(phase := Spawning(s.phase.next + 1), sem := s.sem + 1, workers := s.workers[s.phase.next := Spawned])
    case Advance(i, exec) =>
      var w := Advanced(s.workers[i], exec);
      s.(workers := s.workers[i := w],
         results := if w.Wrote? then s.results[i := ResultOf(calls[i], w.exec)] else s.results,
         sem := if w.Released? then s.sem - 1 else s.sem,
         log := s.log + Emitted(i, w))
    case Join => s.(phase := Clearing)
    case Clear => s.(phase := Responding(0), log := s.log + [ClearTransport])
    case Respond =>
      var i := s.phase.next;
      s.(phase := Responding(i + 1), log := s.log + [OnToolResponse(i, s.results[i])])
    case Send(ok) =>
      s.(phase := Over, log := s.log + [SendToolResults(s.results)] + if ok then [] else [OnError])
  }

  /** The state a run of actions reaches; None when some action was not enabled. */
  function Run(calls: seq<Call>, limit: nat, acts: seq<Action>): (r: Option<State>)
    ensures r.Some? ==> |r.value.workers| == |r.value.results| == |calls|
  {
    if acts == [] then Some(Initial(|calls|))
    else
      var r := Run(calls, limit, acts[..|acts| - 1]);
      var a := acts[|acts| - 1];
      if r.Some? && Enabled(limit, r.value, a) then Some(Next(calls, limit, r.value, a)) else None
  }

  // ----- counting workers

  function Weight(w: Worker): nat {
    match w
    case Idle => 6
    case Spawned => 5
    case Running => 4
    case Executed(_) => 3
    case Wrote(_) => 2
    case Released(_) => 1
    case Finished(_) => 0
  }

  predicate Holds(w: Worker) {
    w.Spawned? || w.Running? || w.Executed? || w.Wrote?
  }

  function Held(ws: seq<Worker>): nat {
    if ws == [] then 0 else (if Holds(ws[0]) then 1 else 0) + Held(ws[1..])
  }

  function InFlight(ws: seq<Worker>): (r: nat)
    ensures r <= Held(ws)
  {
    if ws == [] then 0 else (if ws[0].Running? then 1 else 0) + InFlight(ws[1..])
  }

  function Work(ws: seq<Worker>): nat {
    if ws == [] then 0 else Weight(ws[0]) + Work(ws[1..])
  }

  lemma {:induction false} CountsAfterUpdate(ws: seq<Worker>, i: nat, w: Worker)
    requires i < |ws|
    ensures Work(ws[i := w]) == Work(ws) - Weight(ws[i]) + Weight(w)
    ensures Held(ws[i := w]) == Held(ws) - (if Holds(ws[i]) then 1 else 0) + (if Holds(w) then 1 else 0)
  {
    if i > 0 {
      CountsAfterUpdate(ws[1..], i - 1, w);
      assert ws[i := w][1..] == ws[1..][i - 1 := w];
    }
  }

  lemma {:induction false} CountsOfUniform(ws: seq<Worker>)
    ensures (forall i :: 0 <= i < |ws| ==> ws[i].Idle?) ==> Held(ws) == 0 && Work(ws) == 6 * |ws|
    ensures AllFinished(ws) ==> Held(ws) == 0 && Work(ws) == 0
  {
    if ws != [] { CountsOfUniform(ws[1..]); }
  }

  lemma {:induction false} SomeHolder(ws: seq<Worker>) returns (i: nat)
    requires Held(ws) > 0
    ensures i < |ws| && Holds(ws[i])
  {
    if Holds(ws[0]) {
      i := 0;
    } else {
      i := SomeHolder(ws[1..]);
      i := i + 1;
    }
  }

  /** Exactly how many more steps a run has to take. */
  function Remaining(s: State): int {
    var n := |s.workers|;
    Work(s.workers) +
    match s.phase
    case Announcing(k) => n - k + 1 + n + 3
    case Spawning(_) => n + 3
    case Clearing => n + 2
    case Responding(k) => n - k + 1
    case Over => 0
  }

  // ----- the log

  predicate IsWork(e: Event) {
    e.Start? || e.End? || e.Write?
  }

  /** The events of worker i, in log order. */
  function WorkerLog(log: seq<Event>, i: nat): seq<Event> {
    if log == [] then []
    else
      var e := log[|log| - 1];
      WorkerLog(log[..|log| - 1], i) + if IsWork(e) && e.i == i then [e] else []
  }

  /** What worker i has logged when it is in state w. */
  function Trail(i: nat, w: Worker): seq<Event> {
    match w
    case Idle => []
    case Spawned => []
    case Running => [Start(i)]
    case Executed(exec) => [Start(i), End(i, exec)]
    case Wrote(exec) => [Start(i), End(i, exec), Write(i)]
    case Released(exec) => [Start(i), End(i, exec), Write(i)]
    case Finished(exec) => [Start(i), End(i, exec), Write(i)]
  }

  function Announced(k: nat): seq<Event> {
    seq(k, i requires 0 <= i < k => OnToolCall(i))
  }

  function Responses(results: seq<ToolResult>, k: nat): seq<Event>
    requires k <= |results|
  {
    seq(k, i requires 0 <= i < k => OnToolResponse(i, results[i]))
  }

  /** The log is: every announcement, then only worker events, then `tail`. */
  ghost predicate LogShape(n: nat, log: seq<Event>, tail: seq<Event>) {
    && |log| >= n + |tail|
    && log[..n] == Announced(n)
    && (forall j :: n <= j < |log| - |tail| ==> IsWork(log[j]))
    && log[|log| - |tail|..] == tail
  }

  ghost predicate LogInv(s: State)
    requires |s.results| == |s.workers|
  {
    var n := |s.workers|;
    match s.phase
    case Announcing(k) => k <= n && s.log == Announced(k)
    case Spawning(k) => k <= n && LogShape(n, s.log, [])
    case Clearing => LogShape(n, s.log, [])
    case Responding(k) => k <= n && LogShape(n, s.log, [ClearTransport] + Responses(s.results, k))
    case Over => FinalLog(n, s.log, s.results)
  }

  /** Calls announced, workers run, filler flushed, responses reported in call order, results sent. */
  ghost predicate FinalLog(n: nat, log: seq<Event>, results: seq<ToolResult>)
    requires |results| == n
  {
    var tail := [ClearTransport] + Responses(results, n) + [SendToolResults(results)];
    LogShape(n, log, tail) || LogShape(n, log, tail + [OnError])
  }

  /** Which workers the phase allows to be started and finished. */
  ghost predicate PhaseInv(s: State) {
    match s.phase
    case Announcing(_) => forall i :: 0 <= i < |s.workers| ==> s.workers[i].Idle?
    case Spawning(k) => forall i :: 0 <= i < |s.workers| ==> (s.workers[i].Idle? <==> i >= k)
    case _ => AllFinished(s.workers)
  }

  ghost predicate TrailInv(log: seq<Event>, workers: seq<Worker>) {
    forall i :: 0 <= i < |workers| ==> WorkerLog(log, i) == Trail(i, workers[i])
  }

  ghost predicate ResultInv(calls: seq<Call>, s: State)
    requires |s.results| == |s.workers| == |calls|
  {
    forall i :: 0 <= i < |calls| ==>
      s.results[i] == if s.workers[i].Wrote? || s.workers[i].Released? || s.workers[i].Finished?
                      then ResultOf(calls[i], s.workers[i].exec) else ZERO
  }

  ghost predicate Inv(calls: seq<Call>, limit: nat, s: State) {
    && |s.workers| == |s.results| == |calls|
    && s.sem == Held(s.workers) <= limit
    && PhaseInv(s)
    && LogInv(s)
    && TrailInv(s.log, s.workers)
    && ResultInv(calls, s)
  }

  lemma {:induction false} ShapeAppend(n: nat, log: seq<Event>, tail: seq<Event>, e: Event)
    requires LogShape(n, log, tail)
    ensures LogShape(n, log + [e], tail + [e])
    ensures tail == [] && IsWork(e) ==> LogShape(n, log + [e], [])
  {
    assert (log + [e])[..n] == log[..n];
    assert (log + [e])[|log| - |tail|..] == log[|log| - |tail|..] + [e];
  }

  lemma {:induction false} ShapeRespond(n: nat, log: seq<Event>, results: seq<ToolResult>, k: nat)
    requires k < |results| && LogShape(n, log, [ClearTransport] + Responses(results, k))
    ensures LogShape(n, log + [OnToolResponse(k, results[k])], [ClearTransport] + Responses(results, k + 1))
  {
    var tail, e := [ClearTransport] + Responses(results, k), OnToolResponse(k, results[k]);
    ShapeAppend(n, log, tail, e);
    assert tail + [e] == [ClearTransport] + Responses(results, k + 1);
  }

  lemma {:induction false} ShapeSend(n: nat, log: seq<Event>, results: seq<ToolResult>, ok: bool)
    requires |results| == n && LogShape(n, log, [ClearTransport] + Responses(results, n))
    ensures FinalLog(n, log + [SendToolResults(results)] + if ok then [] else [OnError], results)
  {
    var tail, e := [ClearTransport] + Responses(results, n), SendToolResults(results);
    ShapeAppend(n, log, tail, e);
    ShapeAppend(n, log + [e], tail + [e], OnError);
    assert log + [e] + [] == log + [e];
  }

  lemma {:induction false} LogStep(calls: seq<Call>, limit: nat, s: State, a: Action)
    requires |s.workers| == |s.results| == |calls| && Enabled(limit, s, a)
    requires LogInv(s) && PhaseInv(s)
    ensures LogInv(Next(calls, limit, s, a))
  {
    var n := |calls|;
    match a
    case Advance(i, exec) =>
      assert s.phase.Spawning?;
      var es := Emitted(i, Advanced(s.workers[i], exec));
      if es != [] { ShapeAppend(n, s.log, [], es[0]); } else { assert s.log + es == s.log; }
    case Clear =>
      ShapeAppend(n, s.log, [], ClearTransport);
      assert [] + [ClearTransport] == [ClearTransport] + Responses(s.results, 0);
    case Respond =>
      ShapeRespond(n, s.log, s.results, s.phase.next);
    case Send(ok) =>
      ShapeSend(n, s.log, s.results, ok);
    case _ =>
  }

  lemma {:induction false} WorkerLogAppend(log: seq<Event>, e: Event, i: nat)
    ensures WorkerLog(log + [e], i) == WorkerLog(log, i) + if IsWork(e) && e.i == i then [e] else []
  {
    assert (log + [e])[..|log|] == log;
  }

  /** The dispatcher's events belong to no worker. */
  lemma {:induction false} TrailQuiet(log: seq<Event>, workers: seq<Worker>, e: Event)
    requires TrailInv(log, workers) && !IsWork(e)
    ensures TrailInv(log + [e], workers)
  {
    forall j | 0 <= j < |workers| ensures WorkerLog(log + [e], j) == Trail(j, workers[j]) {
      WorkerLogAppend(log, e, j);
    }
  }

  lemma {:induction false} TrailAdvance(log: seq<Event>, workers: seq<Worker>, i: nat, exec: Exec)
    requires TrailInv(log, workers) && i < |workers| && !workers[i].Idle? && !workers[i].Finished?
    ensures var w := Advanced(workers[i], exec); TrailInv(log + Emitted(i, w), workers[i := w])
  {
    var w := Advanced(workers[i], exec);
    var es := Emitted(i, w);
    forall j | 0 <= j < |workers| ensures WorkerLog(log + es, j) == Trail(j, workers[i := w][j]) {
      if es != [] { WorkerLogAppend(log, es[0], j); } else { assert log + es == log; }
    }
  }

  lemma {:induction false} TrailStep(calls: seq<Call>, limit: nat, s: State, a: Action)
    requires |s.workers| == |s.results| == |calls| && Enabled(limit, s, a)
    requires TrailInv(s.log, s.workers) && PhaseInv(s)
    ensures var t := Next(calls, limit, s, a); TrailInv(t.log, t.workers)
  {
    match a
    case Advance(i, exec) => TrailAdvance(s.log, s.workers, i, exec);
    case Announce => TrailQuiet(s.log, s.workers, OnToolCall(s.phase.next));
    case Clear => TrailQuiet(s.log, s.workers, ClearTransport);
    case Respond => TrailQuiet(s.log, s.workers, OnToolResponse(s.phase.next, s.results[s.phase.next]));
    case Send(ok) =>
      TrailQuiet(s.log, s.workers, SendToolResults(s.results));
      TrailQuiet(s.log + [SendToolResults(s.results)], s.workers, OnError);
      assert s.log + [SendToolResults(s.results)] + [] == s.log + [SendToolResults(s.results)];
    case _ =>
  }

  lemma {:induction false} ResultStep(calls: seq<Call>, limit: nat, s: State, a: Action)
    requires |s.workers| == |s.results| == |calls| && Enabled(limit, s, a)
    requires ResultInv(calls, s) && PhaseInv(s)
    ensures ResultInv(calls, Next(calls, limit, s, a)) && PhaseInv(Next(calls, limit, s, a))
  {
  }

  /** Every step spends exactly one unit of what remains, and the semaphore counts its holders. */
  lemma {:induction false} CountsStep(calls: seq<Call>, limit: nat, s: State, a: Action)
    requires |s.workers| == |s.results| == |calls| && Enabled(limit, s, a)
    requires s.sem == Held(s.workers) <= limit && PhaseInv(s)
    ensures var t := Next(calls, limit, s, a);
      && t.sem == Held(t.workers) <= limit
      && Remaining(t) + 1 == Remaining(s)
  {
    match a
    case Spawn => CountsAfterUpdate(s.workers, s.phase.next, Spawned);
    case Advance(i, exec) => CountsAfterUpdate(s.workers, i, Advanced(s.workers[i], exec));
    case _ =>
  }

  lemma {:induction false} StepInv(calls: seq<Call>, limit: nat, s: State, a: Action)
    requires Inv(calls, limit, s) && Enabled(limit, s, a)
    ensures Inv(calls, limit, Next(calls, limit, s, a))
  {
    LogStep(calls, limit, s, a);
    TrailStep(calls, limit, s, a);
    ResultStep(calls, limit, s, a);
    CountsStep(calls, limit, s, a);
  }

  lemma {:induction false} RunInv(calls: seq<Call>, limit: nat, acts: seq<Action>)
    requires Run(calls, limit, acts).Some?
    ensures Inv(calls, limit, Run(calls, limit, acts).value)
  {
    if acts == [] {
      CountsOfUniform(Initial(|calls|).workers);
    } else {
      var before := acts[..|acts| - 1];
      RunInv(calls, limit, before);
      StepInv(calls, limit, Run(calls, limit, before).value, acts[|acts| - 1]);
    }
  }

  // ----- what every run guarantees

  /** At no moment are more than ToolConcurrency Execute calls in flight. */
  lemma {:induction false} InFlightWithinLimit(calls: seq<Call>, limit: nat, acts: seq<Action>)
    requires Run(calls, limit, acts).Some?
    ensures InFlight(Run(calls, limit, acts).value.workers) <= limit
  {
    RunInv(calls, limit, acts);
  }

  /** The order in which kinds of event may appear. */
  function Rank(e: Event): nat {
    match e
    case OnToolCall(_) => 0
    case Start(_) => 1
    case End(_, _) => 1
    case Write(_) => 1
    case ClearTransport => 2
    case OnToolResponse(_, _) => 3
    case SendToolResults(_) => 4
    case OnError => 5
  }

  lemma {:induction false} FinalLogInOrder(n: nat, log: seq<Event>, results: seq<ToolResult>)
    requires |results| == n && FinalLog(n, log, results)
    ensures forall p, q :: 0 <= p < |log| && 0 <= q < |log| && Rank(log[p]) < Rank(log[q]) ==> p < q
  {
    var tail := [ClearTransport] + Responses(results, n) + [SendToolResults(results)];
    if !LogShape(n, log, tail) { tail := tail + [OnError]; }
    var m := |log| - |tail|;
    assert forall p :: 0 <= p < n ==> log[p] == log[..n][p];
    assert forall p :: m <= p < |log| ==> log[p] == tail[p - m];
  }

  // ----- which Execute a result comes from

  /** How Execute was made to end in each of worker i's steps, in order. */
  function Advances(acts: seq<Action>, i: nat): seq<Exec> {
    if acts == [] then []
    else
      var a := acts[|acts| - 1];
      Advances(acts[..|acts| - 1], i) + Step(a, i)
  }

  /** A worker enters Execute with its first step and leaves it with its second. */
  ghost predicate Stepped(w: Worker, steps: seq<Exec>) {
    match w
    case Idle => steps == []
    case Spawned => steps == []
    case Running => |steps| == 1
    case Executed(exec) => |steps| == 2 && steps[1] == exec
    case Wrote(exec) => |steps| == 3 && steps[1] == exec
    case Released(exec) => |steps| == 4 && steps[1] == exec
    case Finished(exec) => |steps| == 5 && steps[1] == exec
  }

  /** What an action adds to worker i's steps. */
  function Step(a: Action, i: nat): seq<Exec> {
    if a.Advance? && a.i == i then [a.exec] else []
  }

  lemma {:induction false} SteppedStep(calls: seq<Call>, limit: nat, s: State, a: Action, i: nat, steps: seq<Exec>)
    requires |s.workers| == |s.results| == |calls| && i < |calls| && Enabled(limit, s, a) && PhaseInv(s)
    requires Stepped(s.workers[i], steps)
    ensures Stepped(Next(calls, limit, s, a).workers[i], steps + Step(a, i))
  {
    assert steps + [] == steps;
  }

  lemma {:induction false} WorkerStepped(calls: seq<Call>, limit: nat, acts: seq<Action>, i: nat)
    requires Run(calls, limit, acts).Some? && i < |calls|
    ensures Stepped(Run(calls, limit, acts).value.workers[i], Advances(acts, i))
  {
    if acts != [] {
      var before, a := acts[..|acts| - 1], acts[|acts| - 1];
      WorkerStepped(calls, limit, before, i);
      assert PhaseInv(Run(calls, limit, before).value) by { RunInv(calls, limit, before); }
      SteppedStep(calls, limit, Run(calls, limit, before).value, a, i, Advances(before, i));
    }
  }

  /** What Execute did is what the result says. */
  ghost predicate Tells(call: Call, exec: Exec, r: ToolResult) {
    && r.callId == call.id
    && (exec.Returned? ==> r.data == exec.data && r.err == exec.err)
    && (exec.Panicked? ==>
          r.data == "" && r.err.Some? && r.err.value == "pipeline: tool executor panicked: " + exec.reason)
  }

  /** Worker i took its five steps, logged each part of its work once and left how its Execute ended in its slot. */
  ghost predicate Completed(calls: seq<Call>, s: State, acts: seq<Action>, i: nat)
    requires |s.workers| == |s.results| == |calls| && i < |calls|
  {
    var steps := Advances(acts, i);
    && s.workers[i].Finished? && |steps| == 5
    && WorkerLog(s.log, i) == [Start(i), End(i, steps[1]), Write(i)]
    && Tells(calls[i], steps[1], s.results[i])
  }

  /**
    When dispatchToolCalls returns: each slot was written exactly once, by its own worker, after
    that worker's Execute ended, and SendToolResults saw, slot by slot, how the Execute of its own call
    ended; every OnToolCall came before every Execute, and the responses after all of them in call
    order; OnError was called exactly when sending failed.
   */
  lemma {:induction false} CompleteRun(calls: seq<Call>, limit: nat, acts: seq<Action>)
    requires Run(calls, limit, acts).Some? && Run(calls, limit, acts).value.phase.Over?
    ensures var s := Run(calls, limit, acts).value;
      && FinalLog(|calls|, s.log, s.results)
      && (forall p, q :: 0 <= p < |s.log| && 0 <= q < |s.log| && Rank(s.log[p]) < Rank(s.log[q]) ==> p < q)
      && forall i :: 0 <= i < |calls| ==> Completed(calls, s, acts, i)
  {
    RunInv(calls, limit, acts);
    var s := Run(calls, limit, acts).value;
    FinalLogInOrder(|calls|, s.log, s.results);
    forall i | 0 <= i < |calls| ensures Completed(calls, s, acts, i) {
      WorkerStepped(calls, limit, acts, i);
      WorkerCompleted(calls, limit, s, acts, i);
    }
  }

  lemma {:induction false} WorkerCompleted(calls: seq<Call>, limit: nat, s: State, acts: seq<Action>, i: nat)
    requires Inv(calls, limit, s) && s.phase.Over? && i < |calls| && Stepped(s.workers[i], Advances(acts, i))
    ensures Completed(calls, s, acts, i)
  {
    assert s.workers[i].Finished?;
  }

  /** The last step sends, and the last event is OnError exactly when that failed. */
  lemma {:induction false} LastStepSends(calls: seq<Call>, limit: nat, acts: seq<Action>)
    requires Run(calls, limit, acts).Some? && Run(calls, limit, acts).value.phase.Over?
    ensures acts != [] && acts[|acts| - 1].Send?
    ensures var log := Run(calls, limit, acts).value.log;
      log != [] && (log[|log| - 1] == OnError <==> !acts[|acts| - 1].ok)
  {
    var before := acts[..|acts| - 1];
    assert PhaseInv(Run(calls, limit, before).value) by { RunInv(calls, limit, before); }
  }

  /** A run is over exactly when it has taken 8n + 4 steps, whatever the interleaving. */
  lemma {:induction false} RunLength(calls: seq<Call>, limit: nat, acts: seq<Action>)
    requires Run(calls, limit, acts).Some?
    ensures var s := Run(calls, limit, acts).value;
      && |acts| + Remaining(s) == 8 * |calls| + 4
      && |acts| <= 8 * |calls| + 4
      && (s.phase.Over? <==> |acts| == 8 * |calls| + 4)
  {
    RunInv(calls, limit, acts);
    var s := Run(calls, limit, acts).value;
    CountsOfUniform(s.workers);
    if acts != [] {
      var before := acts[..|acts| - 1];
      RunInv(calls, limit, before);
      RunLength(calls, limit, before);
      CountsStep(calls, limit, Run(calls, limit, before).value, acts[|acts| - 1]);
    }
  }

  lemma {:induction false} NotStuck(calls: seq<Call>, limit: nat, s: State) returns (a: Action)
    requires limit > 0 && Inv(calls, limit, s) && !s.phase.Over?
    ensures Enabled(limit, s, a)
  {
    var n := |calls|;
    match s.phase
    case Announcing(k) => a := if k < n then Announce else Begin;
    case Clearing => a := Clear;
    case Responding(k) => a := if k < n then Respond else Send(true);
    case Spawning(k) =>
      if s.sem > 0 {
        var i := SomeHolder(s.workers);
        a := Advance(i, Panicked(""));
      } else if k < n {
        a := Spawn;
      } else if AllFinished(s.workers) {
        a := Join;
      } else {
        var i :| 0 <= i < n && !s.workers[i].Finished?;
        NoHolder(s.workers, i);
        a := Advance(i, Panicked(""));
      }
  }

  lemma {:induction false} NoHolder(ws: seq<Worker>, i: nat)
    requires Held(ws) == 0 && i < |ws|
    ensures !Holds(ws[i])
  {
    if i > 0 { NoHolder(ws[1..], i - 1); }
  }

  /** No deadlock: while every Execute ends, an unfinished run can always take another step. */
  lemma {:induction false} NeverStuck(calls: seq<Call>, limit: nat, acts: seq<Action>)
    requires limit > 0 && Run(calls, limit, acts).Some? && !Run(calls, limit, acts).value.phase.Over?
    ensures exists a :: Run(calls, limit, acts + [a]).Some?
  {
    RunInv(calls, limit, acts);
    var a := NotStuck(calls, limit, Run(calls, limit, acts).value);
    assert (acts + [a])[..|acts|] == acts;
    assert Run(calls, limit, acts + [a]).Some?;
  }

  // ----- the limit is used

  lemma {:induction false} Then(calls: seq<Call>, limit: nat, acts: seq<Action>, a: Action)
    requires Run(calls, limit, acts).Some? && Enabled(limit, Run(calls, limit, acts).value, a)
    ensures Run(calls, limit, acts + [a]) == Some(Next(calls, limit, Run(calls, limit, acts).value, a))
  {
    assert (acts + [a])[..|acts|] == acts;
  }

  lemma {:induction false} AnnounceAll(calls: seq<Call>, limit: nat, k: nat) returns (acts: seq<Action>)
    requires k <= |calls|
    ensures Run(calls, limit, acts).Some?
    ensures var s := Run(calls, limit, acts).value;
      s.phase == Announcing(k) && s.sem == 0 && forall i :: 0 <= i < |calls| ==> s.workers[i].Idle?
  {
    acts := [];
    if k > 0 {
      acts := AnnounceAll(calls, limit, k - 1);
      Then(calls, limit, acts, Announce);
      acts := acts + [Announce];
    }
  }

  /** k workers are inside Execute and the others have not been started. */
  ghost predicate FirstRunning(ws: seq<Worker>, k: nat) {
    forall i :: 0 <= i < |ws| ==> if i < k then ws[i].Running? else ws[i].Idle?
  }

  lemma {:induction false} CountRunning(ws: seq<Worker>, k: nat)
    requires FirstRunning(ws, k) && k <= |ws|
    ensures InFlight(ws) == k
  {
    if ws != [] {
      CountRunning(ws[1..], if k == 0 then 0 else k - 1);
    }
  }

  lemma {:induction false} StartSome(calls: seq<Call>, limit: nat, k: nat) returns (acts: seq<Action>)
    requires k <= |calls| && k <= limit
    ensures Run(calls, limit, acts).Some?
    ensures var s := Run(calls, limit, acts).value; s.phase == Spawning(k) && s.sem == k && FirstRunning(s.workers, k)
  {
    if k == 0 {
      acts := AnnounceAll(calls, limit, |calls|);
      Then(calls, limit, acts, Begin);
      acts := acts + [Begin];
    } else {
      acts := StartSome(calls, limit, k - 1);
      Then(calls, limit, acts, Spawn);
      acts := acts + [Spawn];
      var a := Advance(k - 1, Returned("", None));
      Then(calls, limit, acts, a);
      acts := acts + [a];
    }
  }

  /** As many Execute calls as the limit allows can be in flight at once. */
  lemma {:induction false} LimitIsReached(calls: seq<Call>, limit: nat) returns (acts: seq<Action>)
    ensures Run(calls, limit, acts).Some?
    ensures InFlight(Run(calls, limit, acts).value.workers) == if limit < |calls| then limit else |calls|
  {
    var k := if limit < |calls| then limit else |calls|;
    acts := StartSome(calls, limit, k);
    CountRunning(Run(calls, limit, acts).value.workers, k);
  }
}
