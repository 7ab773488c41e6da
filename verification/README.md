# gopkg in Dafny

A Dafny model of the stateful and numeric core of `gopkg`, a collection of Go
packages for voice agents, LLM tool use and service plumbing. Each module models
one component and proves what that component is for, over all inputs, all call
sequences or all interleavings.

| component | modules | files |
|---|---|---|
| LRU + TTL cache | `LruSpec`, `LruCache` | `lru_spec.dfy`, `lru_cache.dfy` |
| voice pipeline: tool-call fan-out | `ToolFanout` | `tool_fanout.dfy` |
| voice pipeline: session lifecycle | `Session`, `SessionLaws` | `session.dfy`, `session_laws.dfy` |
| WhatsApp paced transport | `Pcm`, `PacedTransport`, `TransportLaws` | `pcm.dfy`, `paced_transport.dfy`, `transport_laws.dfy` |
| circuit breaker | `CircuitBreaker`, `BreakerHistory` | `circuit_breaker.dfy`, `breaker_history.dfy` |
| token-bucket limiter | `TokenBucket` | `token_bucket.dfy` |
| mu-law codec and resampling | `Bits`, `Mulaw`, `Resampling` | `bits.dfy`, `mulaw.dfy`, `resampling.dfy` |
| Gemini chat history and the tool loop | `History`, `ToolLoop` | `history.dfy`, `tool_loop.dfy` |
| Gemini live event translation | `LiveEvents`, `LiveLaws` | `live_events.dfy`, `live_laws.dfy` |
| SMS routing | `SmsRouter` | `sms_router.dfy` |
| identifier case conversion | `StringCase`, `SplitLaws` | `string_case.dfy`, `split_laws.dfy` |
| money arithmetic and rendering | `Money`, `MoneyText` | `money.dfy`, `money_text.dfy` |

`Wrappers` holds `Option` and `Result`, `Sequences` projections of sequences and `Division`
two facts about integer division. The modules whose names end in `Laws` or `History` say what a
component does by what goes in and comes out, without its internal state. `dafny verify dfyconfig.toml` checks everything.
Every lemma carries `{:induction false}`, so each proof is the one written in its body.

## How the code is represented

- Objects that change their fields in place (`Cache` over a ring of linked
  elements, `Transport`, `CircuitBreaker`, `Limiter`, `Router`) are classes. Each
  method is proved equal to a step of a specification over values, and the
  theorems about whole histories are about that specification. For the cache a
  driver (`Execute`) carries any history of calls out on the heap and ends, answers
  included, where the specification does.
- Goroutines are state machines. A run is a sequence of atomic actions (start a
  worker, take a semaphore slot, publish a result, pass a frame on, cancel a
  context), and a theorem about every run is a theorem about every interleaving.
- Loops stay loops: the bubble sort works in place on an array, the exponent
  searches of both mu-law encoders shift a mask, the history renderer walks two
  indices, the tool loop counts hops. Go's bitwise operators are defined bit by
  bit on naturals in `Bits`.
- Clock readings are parameters. Where the Go code reads the clock twice in one
  call (the circuit breaker tests with one reading and stamps with another), the
  model takes two unrelated readings.
- The LLM, the tool dispatcher, the Opus encoder and the SMS provider registry
  are function parameters, so results hold for whatever they answer. Dispatcher
  answers may depend on how many calls came before; the encoder's output may
  depend on every block it was handed before.

## Where the code falls short of its documentation

In each case the model follows the code, a lemma shows a failing input and the
exact condition is proved.

- `circuitbreaker`: the package comment says one successful probe closes the
  breaker (`circuitbreaker/circuitbreaker.go:7-9`), but `DefaultConfig` admits one
  probe per half-open episode and asks for two successes. On the outcomes of its
  own probes alone an open breaker can close if and only if `SuccessThreshold` is
  at most `max(1, HalfOpenMaxRequests)` (`RecoversIff`). The code counts any
  outcome that arrives while half-open, late ones of earlier calls included;
  counting those too, an open breaker can close without `Reset` if and only if it
  admits two probes per episode or `SuccessThreshold` is at most one more than the
  calls still out (`RecoversWithLateOutcomesIff`). So with the defaults an open
  breaker can recover exactly when some earlier call has not reported yet; when
  none is out, the first successful probe leaves it half-open for good, rejecting
  every call until `Reset` (`DefaultConfigWedges`, `WedgedForever`). A new breaker
  gets there with five timeouts and one successful probe (`FreshDefaultWedges`).
- `circuitbreaker`: a probe whose error does not count is not recorded, yet its
  admission stays spent. So under every configuration a new breaker has a run
  without `Reset` after which it rejects every call (`EveryConfigCanWedge`).
- `circuitbreaker`: a failed probe is said to expand the open timeout. Short of
  closing, some run shortens it if and only if `BackoffMultiplier` is positive and
  `OpenTimeout` is positive with a multiplier below one or a positive
  `MaxOpenTimeout` below it, or `OpenTimeout` is negative and the growth is at
  least a nanosecond (`TimeoutCanShrinkIff`, `ReopenCanShrink`).
- `circuitbreaker`: `Reset` forgets counted failures exactly when the breaker is
  not closed or has none (`ResetForgetsFailuresIff`); failures reported before the
  `Reset` of a closed breaker still trip it afterwards (`ResetKeepsTheStreak`).
- `money`: `MulInt` reports overflow by dividing back, and the division itself
  wraps at (most negative amount, -1): no error and a wrong sign
  (`MulExactIff`, `MinTimesMinusOne`), which is exactly what can go wrong in a
  chain of operations (`ChainIsExactIff`). `DivInt` fails for the same pair
  (`DivExactIff`, `MinOverMinusOne`). `String` prints two minus signs for the most
  negative amount, the only one that cannot be read back
  (`ParseInvertsRenderIff`, `NumberOfMin`).
- `voice/holdfiller/twilio`: its private mu-law encoder clips at 8191 and agrees
  with `audio/codec` exactly on samples of magnitude at most 8571
  (`HoldFillerAgreesIff`, `HoldFillerClips`).
- `audio/codec`: mu-law has two zeros; 0x7F is re-encoded as 0xFF and is the only
  byte that does not survive (`EncodeOfDecode`). Upsampling frame by frame equals
  upsampling the joined stream if and only if the two bytes at the joint stand for
  the same level (`UpFramesAgreeIff`, `UpFramesCanDiffer`).
- `stringcase`: splitting the Pascal or camel form does not always give the words
  back; `PascalRoundTripIff` and `CamelRoundTripIff` say exactly when, and
  `PascalMerges` and `CamelMerges` show words that run together.
- `ratelimit`: `New` accepts a capacity below one, and a limiter can grant
  something if and only if its capacity is at least one (`GrantsIff`).
- `voice/llm/gemini`: a part whose inline audio is not valid base64 also loses its
  text, so everything the server said is streamed if and only if no such part
  carries text (`AllTextStreamedIff`, `BadAudioLosesText`).
- `ai/orchestrator`: when there is a dispatcher and every allowed answer asks for
  tool calls, those of the last answer are carried out and no request ever reports
  them; in every other case each execution made is in the last request
  (`ShownIff`, `UnseenExecution`).

One more difference is harmless: the circuit breaker's list of retryable buckets
never decides anything, since a bucket on neither list counts too
(`IsRetryableError`).

## Model

| member | source | states |
|---|---|---|
| LruSpec.RunShape | cache/lru/lru.go:50-130 | after every sequence of Set, Get, Delete and Clear the keys are distinct and there are at most capacity entries |
| LruSpec.EntriesComeFromLatestSets | cache/lru/lru.go:50-130 | every cached entry is the value and expiry of the latest Set of its key with no later Delete or Clear |
| LruSpec.HitIsLatestSet | cache/lru/lru.go:77-94 | a hit in any history returns the value of that latest Set, no later than its TTL allows |
| LruSpec.RunByRecency | cache/lru/lru.go:50-94 | the list order is strictly decreasing last use, where a use is a Set or a hitting Get |
| LruSpec.EvictionTakesLeastRecentlyUsed | cache/lru/lru.go:65-74 | a Set of a new key on a full cache drops exactly one entry, and every survivor was used more recently than it |
| LruSpec.StepKeepsCovered | cache/lru/lru.go:50-130 | one operation keeps the smaller cache a subsequence of the larger, with the size gap within the capacity gap, and every hit of the smaller is the same hit in the larger |
| LruSpec.RunsStayCovered | cache/lru/lru.go:50-130 | that inclusion holds after every history, TTL expiry included |
| LruSpec.LargerCacheKeepsEveryHit | cache/lru/lru.go:35-130 | raising the capacity never turns a hit into a miss or changes its value, for every history and both capacities as passed to New |
| LruSpec.RoomyCacheIsExact | cache/lru/lru.go:50-94 | while no more keys are set than fit and the clock does not go back, a Get hits if and only if its key has an unexpired live Set, with that value |
| LruCache.List.InsertFront | cache/lru/lru.go:69-69 | splices an element behind the sentinel of the ring: contents grow at the front, nothing else moves |
| LruCache.List.Remove | cache/lru/lru.go:129-129 | unlinks one element of the ring and keeps the order of the rest |
| LruCache.List.MoveToFront | cache/lru/lru.go:61-92 | moves one element to the front and keeps the order of the rest |
| LruCache.List.Back | cache/lru/lru.go:121-121 | gives the last element, or null on an empty list |
| LruCache.Cache.constructor | cache/lru/lru.go:35-46 | starts empty, with capacity 1 for anything below 1 |
| LruCache.Cache.Set | cache/lru/lru.go:50-75 | the map and the ring together implement the specification's Set: replace and promote, or push and evict the last when over capacity; every ring element is an old or a new one |
| LruCache.Cache.Get | cache/lru/lru.go:79-94 | implements the specification's Get: a miss, an expired entry removed, or a promoted hit; ring elements stay the old ones |
| LruCache.Cache.Delete | cache/lru/lru.go:97-103 | removes the key's entry and nothing else |
| LruCache.Cache.Clear | cache/lru/lru.go:113-118 | empties map and ring |
| LruCache.Cache.RemoveOldest | cache/lru/lru.go:120-124 | drops the last entry from map and ring, or does nothing when empty |
| LruCache.Cache.Remove | cache/lru/lru.go:126-130 | drops one entry from map and ring and keeps the order of the rest |
| LruCache.Cache.Perform | cache/lru/lru.go:50-118 | any one call reaches the state and gives the answer of the specification, and every ring element afterwards is an old or a new one |
| LruCache.Execute | cache/lru/lru.go:35-118 | any sequence of calls on a new cache, carried out on the map and the ring, ends with the contents of the specification run and gives its answer at every Get |
| ToolFanout.RunInv | voice/pipeline/pipeline.go:305-368 | in every interleaving: semaphore count, phases, log shape, each worker's trail and each published slot agree |
| ToolFanout.InFlightWithinLimit | voice/pipeline/pipeline.go:333-353 | in every interleaving at most ToolConcurrency tools execute at once |
| ToolFanout.CompleteRun | voice/pipeline/pipeline.go:305-368 | every finished dispatch announced all calls first; worker i took five steps and started, ended and wrote once; slot i carries call i's id and how that worker's own Execute ended: the data and error it returned, or no data and a text naming the panic; then the transport was cleared once, responses were reported in call order and one batch was sent |
| ToolFanout.LastStepSends | voice/pipeline/pipeline.go:360-367 | the last step of a finished dispatch sends the batch, and OnError is the last event exactly when sending failed |
| ToolFanout.LimitIsReached | voice/pipeline/pipeline.go:333-353 | some run has min(ToolConcurrency, number of calls) tools executing at once, so the limit is no tighter than promised |
| ToolFanout.FinalLogInOrder | voice/pipeline/pipeline.go:313-367 | a final log keeps the stages in order: announcements, work, clear, responses, send |
| ToolFanout.RunLength | voice/pipeline/pipeline.go:305-368 | a dispatch of n calls is over after exactly 8n + 4 actions and never takes more |
| ToolFanout.NeverStuck | voice/pipeline/pipeline.go:333-353 | with a positive limit, a dispatch that is not over always has an enabled action |
| Session.RunInv | voice/pipeline/pipeline.go:63-300 | the phase, record and turn invariants hold in every interleaving of main, both readers and outer cancellation |
| Session.SettleIsFirstRecord | voice/pipeline/pipeline.go:120-141 | what Run settles on is the first recordEnd, resolved against the context |
| Session.SessionEndsOnce | voice/pipeline/pipeline.go:214-241 | OnSessionEnd is seen exactly when Run has returned, once, last, and after both readers exited |
| Session.ReasonMatchesError | voice/pipeline/pipeline.go:120-241 | the returned error fits the reported reason: fatal carries an error the observer saw, context-done the context's error, the two closings none |
| Session.ReportsTheVerdict | voice/pipeline/pipeline.go:120-241 | the outcome can be read off the actions alone: the first closing or failure decides, overridden by a context already done |
| Session.EndIsVerdict | voice/pipeline/pipeline.go:120-141 | in every run the recorded end is that verdict and later records never change it |
| Session.NothingAfterReturn | voice/pipeline/pipeline.go:214-241 | after Run has returned no further action reaches the observer or changes the answer |
| Session.TurnsNumberedInOrder | voice/pipeline/pipeline.go:282-288 | OnTurnComplete numbers are 1, 2, 3 and so on, without gap or repetition, in every interleaving |
| SessionLaws.ObserverIsTold | voice/pipeline/pipeline.go:256-368 | in every interleaving, what was logged and is about to be logged holds every assistant text with its finality, every caller transcript, turn completion and interruption in the order the model sent them, every turn's number, and every tool call's id once as a call and once as a response |
| SessionLaws.TransportIsAsked | voice/pipeline/pipeline.go:267-357 | in every interleaving the transport is sent every outbound frame in order, marked with every completed turn's number and cleared once per interruption and once per tool batch |
| SessionLaws.NothingIsPending | voice/pipeline/pipeline.go:214-241 | when Run has returned all of that is in the log |
| SessionLaws.EveryFailureIsReported | voice/pipeline/pipeline.go:63-241 | when Run has returned, the OnError calls are exactly the failures of setup and of both readers and the tool batches that could not be sent, counted with multiplicity |
| SessionLaws.SetupInOrder | voice/pipeline/pipeline.go:63-118 | the readers start after two bridges and the LLM session are set up, with OnHistoryInjected and OnSessionStart first in the log; a failed step leaves OnError, then OnSessionEnd, and nothing else |
| SessionLaws.RunContext | voice/pipeline/pipeline.go:120-212 | the inner context's error is that of its first cancellation, and a reader that failed has cancelled it by the time it exits |
| SessionLaws.ContextEndsForAReason | voice/pipeline/pipeline.go:143-227 | the inner context ends only if the outer one ended or a reader failed; an orderly closing of either side ends it for nobody |
| SessionLaws.NeverStuck | voice/pipeline/pipeline.go:63-241 | until Run returns some step of its own is enabled, unless setup or an open adapter channel is awaited |
| SessionLaws.TakesWhatComes | voice/pipeline/pipeline.go:63-300 | while it waits, every closing, failure, LLM event, setup result and cancellation is accepted |
| SessionLaws.StepsAreBounded | voice/pipeline/pipeline.go:63-300 | a run takes at most 17 steps plus, for each LLM event, two and one per callback |
| SessionLaws.ReturnsTheVerdict | voice/pipeline/pipeline.go:214-241 | with both readers gone, drained or not, two more steps return the verdict of the run |
| Pcm.BytesRoundTrip | voice/transport/whatsapp/transport.go:310-326 | a sample survives little-endian encoding and decoding |
| Pcm.SamplesOfBytes | voice/transport/whatsapp/transport.go:310-326 | decoding the encoding of any sample sequence gives it back |
| Pcm.SamplesConcat | voice/transport/whatsapp/transport.go:310-317 | after an even number of bytes, decoding can be split anywhere |
| Pcm.BytesToInt16LE | voice/transport/whatsapp/transport.go:310-317 | the loop computes the sample sequence, an odd last byte ignored |
| Pcm.Int16LEToBytes | voice/transport/whatsapp/transport.go:320-326 | the loop computes the byte sequence |
| PacedTransport.RunInv | voice/transport/whatsapp/transport.go:117-296 | the chunking, fate, order and bound invariants hold in every interleaving of Send, the pacer, Clear and Close |
| PacedTransport.BlocksInEveryInterleaving | voice/transport/whatsapp/transport.go:233-266 | the k-th block handed to the encoder is samples 480k to 480k + 480 of the input, and between sends the carry-over is shorter than a block unless the last Send failed |
| PacedTransport.FatesInEveryInterleaving | voice/transport/whatsapp/transport.go:104-296 | conservation: each block is in exactly one of failed, dropped, cleared, queued or written (LostIff says when it is failed or dropped); the queue holds at most 1000; frames are written in encoding order and each is its block's encoding |
| PacedTransport.SplitDoesNotMatter | voice/transport/whatsapp/transport.go:233-266 | two runs fed the same bytes, cut into sends at any whole-sample points, interleaved differently and with any encoder errors on the way, have handed over the same blocks and keep the same carry-over once the last Send has gone through |
| TransportLaws.LostIff | voice/transport/whatsapp/transport.go:104-265 | in every interleaving each block was handed over by one encoding step; it counts as failed exactly when the encoder refused it there, as dropped exactly when the encoder accepted it while 1000 frames were queued, and otherwise was queued, last, as the encoder's answer |
| TransportLaws.TakesInUntilClosed | voice/transport/whatsapp/transport.go:233-296 | in every interleaving exactly the samples sent before the first Close are taken in |
| TransportLaws.NeverBlocked | voice/transport/whatsapp/transport.go:117-296 | in every interleaving the pacer can go on, and either a new Send and a Close can enter or the Send inside can go on |
| TransportLaws.SendOutcome | voice/transport/whatsapp/transport.go:233-266 | a whole Send takes in its samples and fails exactly when the encoder refused a block, the last one handed over; otherwise less than 480 samples stay, every whole block is handed over, and none is dropped when the queue has room for all within 1000 |
| TransportLaws.SendAfterClose | voice/transport/whatsapp/transport.go:236-238 | a Send on a closed transport changes nothing |
| TransportLaws.TicksDeliver | voice/transport/whatsapp/transport.go:139-145 | as many ticks as frames are queued write all of them in order |
| TransportLaws.ClearForgets | voice/transport/whatsapp/transport.go:271-279 | a whole Clear empties the queue, recording every frame as cleared, oldest first, and changes nothing else |
| PacedTransport.InputIsFed | voice/transport/whatsapp/transport.go:233-266 | the samples taken in are those of the concatenated payloads |
| PacedTransport.SentIsARun | voice/transport/whatsapp/transport.go:233-266 | a whole Send call is a run of the interleaved machine |
| PacedTransport.DropsIsARun | voice/transport/whatsapp/transport.go:271-279 | a whole Clear call is a run of the interleaved machine |
| PacedTransport.Transport.Send | voice/transport/whatsapp/transport.go:233-266 | the imperative Send reaches the specified state, which SendOutcome describes, and fails exactly when the transport is open and the encoder errs |
| PacedTransport.Transport.Clear | voice/transport/whatsapp/transport.go:271-279 | drains the queue to empty and leaves the carry-over alone |
| PacedTransport.Transport.Close | voice/transport/whatsapp/transport.go:286-296 | marks the transport closed and changes nothing else |
| PacedTransport.Transport.Take | voice/transport/whatsapp/transport.go:139-145 | the pacer writes the oldest queued frame, or silence on an empty queue |
| PacedTransport.DeadlinesAdvance | voice/transport/whatsapp/transport.go:117-147 | deadlines move at least one frame per pass, resynchronisations included |
| PacedTransport.BurstIsBounded | voice/transport/whatsapp/transport.go:117-147 | between any two passes the frames sent are at most the elapsed time plus one second's worth |
| PacedTransport.NoDrift | voice/transport/whatsapp/transport.go:117-147 | while never more than a second late, deadline n is exactly start + 20n ms |
| CircuitBreaker.IsRetryableError | circuitbreaker/config.go:79-98 | the three branches amount to: everything counts except the non-retryable list |
| CircuitBreaker.CircuitBreaker.constructor | circuitbreaker/circuitbreaker.go:106-118 | starts closed with the configured timeout |
| CircuitBreaker.CircuitBreaker.Allow | circuitbreaker/circuitbreaker.go:151-174 | verdict and new state are those of the specification's Allow |
| CircuitBreaker.CircuitBreaker.RecordSuccess | circuitbreaker/circuitbreaker.go:198-214 | new state is that of the specification's success step |
| CircuitBreaker.CircuitBreaker.RecordFailure | circuitbreaker/circuitbreaker.go:219-245 | new state is that of the specification's failure step |
| CircuitBreaker.CircuitBreaker.Reset | circuitbreaker/circuitbreaker.go:249-253 | a transition to closed, which is nothing for a closed breaker |
| CircuitBreaker.CircuitBreaker.Transition | circuitbreaker/circuitbreaker.go:284-314 | new state is that of the specification's transition: counters, timeout, consecutive opens (ChangesExactly and BackoffInEveryRun say what that amounts to) |
| CircuitBreaker.TripsOnTheStreak | circuitbreaker/circuitbreaker.go:198-245 | a fresh breaker counts the current streak of counted failures and opens exactly when it reaches the threshold |
| CircuitBreaker.OpenSpellRejects | circuitbreaker/circuitbreaker.go:151-245 | until its timeout has passed an open breaker rejects every Allow, and no outcome reported meanwhile changes its deadline |
| BreakerHistory.ChangesExactly | circuitbreaker/circuitbreaker.go:151-314 | from the events alone: closed opens exactly on the counted failure that completes a streak of FailureThreshold since the closing; open goes half-open exactly on an Allow after the timeout; half-open opens exactly on a counted failure and closes exactly on the success that completes SuccessThreshold in this episode; Reset closes; nothing else changes the state |
| BreakerHistory.AdmitsExactly | circuitbreaker/circuitbreaker.go:151-174 | from the events alone: Allow admits any call while closed, one late enough while open, and while half-open one whose number in the episode, the first probe included, is within HalfOpenMaxRequests |
| BreakerHistory.RemembersLastFailure | circuitbreaker/circuitbreaker.go:219-245 | the recorded last failure is the reading of the last failure that counted |
| BreakerHistory.ClosingRestoresTheBase | circuitbreaker/circuitbreaker.go:284-314 | a breaker that closed and opened again without a probe in between admits its next probe exactly after the base timeout, however long the backoff had grown |
| BreakerHistory.DefaultBackoff | circuitbreaker/config.go:53-77 | with the defaults the timeout is half a minute doubled by every failed probe in a row for six of them, and an hour from the seventh on |
| BreakerHistory.CallersDriveTheBreaker | circuitbreaker/circuitbreaker.go:120-253 | a breaker among any callers, whose outcomes arrive in any order, is the breaker after the events they cause, so the laws over events hold there |
| CircuitBreaker.BackoffInEveryRun | circuitbreaker/circuitbreaker.go:284-314 | for every configuration, in every run the failed probes since the breaker was last closed, counted over the events, alone decide the open timeout: the base grown and capped once per probe, or the base when the multiplier is not positive; a closed breaker has none of them and the base |
| CircuitBreaker.BackoffCappedOnce | circuitbreaker/circuitbreaker.go:284-314 | with a multiplier of at least one, or a base within the cap, that is the base grown freely and capped once |
| CircuitBreaker.CapOnce | circuitbreaker/circuitbreaker.go:284-314 | capping at every step equals capping once at the end |
| CircuitBreaker.TimeoutNeverShrinksInAStreak | circuitbreaker/circuitbreaker.go:284-314 | under every configuration outside the condition below, no step of any run short of closing shortens the timeout |
| CircuitBreaker.TimeoutStaysWithinCap | circuitbreaker/circuitbreaker.go:284-314 | a base within the cap keeps every timeout within it, whatever the multiplier |
| CircuitBreaker.TimeoutCanShrinkIff | circuitbreaker/circuitbreaker.go:106-314 | some run of a new breaker on a forward clock has a step short of closing that shortens the timeout if and only if the multiplier is positive and either the base is positive with a multiplier below one or a cap below the base, or the base is negative and grows by at least one |
| CircuitBreaker.FirstReopenShrinksIff | circuitbreaker/circuitbreaker.go:284-314 | for every configuration the first re-opening shortens the timeout under exactly that condition |
| CircuitBreaker.ReopenCanShrink | circuitbreaker/circuitbreaker.go:284-314 | a base of one minute under a cap of half a minute is halved by the first failed probe, and so is half a minute with a multiplier of a half |
| CircuitBreaker.ResetForgetsFailuresIff | circuitbreaker/circuitbreaker.go:249-253 | after Reset no failure counts if and only if the breaker was not closed or had none |
| CircuitBreaker.ResetKeepsTheStreak | circuitbreaker/circuitbreaker.go:219-253 | one failure short of the threshold, a Reset of the closed breaker does not keep the next failure from opening it |
| CircuitBreaker.EpisodeBudget | circuitbreaker/circuitbreaker.go:151-174 | in every run of callers a half-open episode admits between 1 and max(1, HalfOpenMaxRequests) probes |
| CircuitBreaker.NeverCloses | circuitbreaker/circuitbreaker.go:198-214 | with a success threshold above that budget no run of timely outcomes closes an open breaker |
| CircuitBreaker.RecoversIff | circuitbreaker/circuitbreaker.go:151-245 | on a clock that never goes back, an open breaker can close on the outcomes of its own probes if and only if the threshold is within the budget |
| CircuitBreaker.RecoversWithLateOutcomesIff | circuitbreaker/circuitbreaker.go:151-245 | counting every outcome, late ones included, an open breaker can close without Reset, on a clock that never goes back, if and only if it admits two probes per episode or the threshold is at most one more than the calls still out |
| CircuitBreaker.WedgedForever | circuitbreaker/circuitbreaker.go:151-174 | half-open with its budget spent and no call of any episode out, a breaker rejects every call and never changes again unless Reset is called |
| CircuitBreaker.DefaultConfigWedges | circuitbreaker/config.go:53-77 | with the defaults an open breaker can close without Reset if and only if some earlier call is still out; when none is, its first successful probe wedges it |
| CircuitBreaker.FreshDefaultWedges | circuitbreaker/config.go:53-77 | a new breaker with the defaults is opened by five calls that time out, no call being out, and wedged by the successful probe that follows, all on a clock that never goes back |
| CircuitBreaker.EveryConfigCanWedge | circuitbreaker/circuitbreaker.go:151-245 | under every configuration a new breaker has a run without Reset, on a clock that never goes back, that wedges it |
| TokenBucket.Limiter.constructor | ratelimit/ratelimit.go:36-47 | starts full at the given time |
| TokenBucket.Limiter.RefillNow | ratelimit/ratelimit.go:111-122 | adds elapsed time times rate, capped, and ignores a clock that did not advance |
| TokenBucket.Limiter.Allow | ratelimit/ratelimit.go:55-64 | refills and takes one token if there is one (LevelDecides says when) |
| TokenBucket.Limiter.CurrentTokens | ratelimit/ratelimit.go:104-109 | refills and reports the level |
| TokenBucket.Limiter.Turn | ratelimit/ratelimit.go:69-84 | one locked section of Wait: closed, granted, or the time to sleep |
| TokenBucket.Limiter.Wait | ratelimit/ratelimit.go:68-94 | whatever other callers do between its turns, a Wait is the interleaved run of their operations and its turns; all turns but the last found no token, and the last decides the result |
| TokenBucket.Limiter.CloseLimiter | ratelimit/ratelimit.go:97-101 | only marks the limiter closed |
| TokenBucket.LimitIsSteady | ratelimit/ratelimit.go:36-47 | elapsed time times rate is additive and increasing for every accepted capacity and rate |
| TokenBucket.TokensInRange | ratelimit/ratelimit.go:55-122 | in every mix of Allow, Wait, Tokens and Close, on any clock, the level stays between 0 and capacity |
| TokenBucket.WindowBound | ratelimit/ratelimit.go:55-122 | in every run any window of operations is granted at most capacity plus rate times the bucket time between its first and last one |
| TokenBucket.LevelDecides | ratelimit/ratelimit.go:55-109 | on any bucket an Allow is granted, and lowers the level by one, exactly when Tokens at that instant would show at least one; the same for a turn of Wait unless closed, which then errs and changes nothing |
| TokenBucket.BurstIsExact | ratelimit/ratelimit.go:55-64 | of Allow calls made at one instant on any bucket, call i is granted exactly when i is at most the level then shown |
| TokenBucket.NewLimiterBurst | ratelimit/ratelimit.go:36-64 | n Allow calls at once on a new limiter are all granted if and only if n is at most the capacity |
| TokenBucket.PacedCallsAreGranted | ratelimit/ratelimit.go:55-122 | a caller of a new limiter of capacity at least one who leaves a token's worth of time between calls is never denied |
| TokenBucket.RefillTwice | ratelimit/ratelimit.go:111-122 | refilling in two steps equals refilling once |
| TokenBucket.IdleOperationsDoNotMatter | ratelimit/ratelimit.go:55-122 | two buckets one of which merely lags behind answer the kept operations alike |
| TokenBucket.DroppingIdleCalls | ratelimit/ratelimit.go:55-122 | deleting any Tokens calls and any Allow calls and Wait turns that found no token changes no remaining outcome |
| TokenBucket.SleepIsTight | ratelimit/ratelimit.go:81-83 | the computed sleep is never longer than needed and at most one nanosecond short |
| TokenBucket.GrantsIff | ratelimit/ratelimit.go:36-94 | some run of operations is granted something if and only if the capacity is at least one (NewLimiterBurst says how much at once) |
| Mulaw.TableIsDecode | audio/codec/codec.go:19-52 | all 256 table entries equal the ITU-T G.711 expansion formula |
| Mulaw.EncodeBits | audio/codec/codec.go:79-104 | expanding an encoded sample gives the midpoint of its quantisation interval, with the sample's sign |
| Mulaw.ErrorBound | audio/codec/codec.go:61-104 | for every 16-bit sample 32 times the quantisation error is at most the magnitude plus 132 |
| Mulaw.OrderPreserving | audio/codec/codec.go:61-104 | encoding and decoding never reverses the order of two samples |
| Mulaw.Idempotent | audio/codec/codec.go:61-104 | a second encode and decode changes nothing |
| Mulaw.EncodeOfDecode | audio/codec/codec.go:61-104 | every byte survives decode and encode except 0x7F, which becomes 0xFF |
| Mulaw.HoldFillerAgreesIff | voice/holdfiller/twilio/filler.go:102-123 | the hold filler's encoder and the codec agree on a sample if and only if its magnitude is at most 8571 |
| Mulaw.HoldFillerClips | voice/holdfiller/twilio/filler.go:102-123 | a full-scale sample comes back as 8316 from the hold filler and as 32124 from the codec |
| Mulaw.FindExponent | audio/codec/codec.go:93-101 | the mask loop finds the segment |
| Mulaw.Pack | audio/codec/codec.go:102-103 | shifting, masking, or-ing and inverting gives the complement of sign, segment and step as numbers |
| Mulaw.EncodeMulaw | audio/codec/codec.go:79-104 | the encoder, written with the bitwise operators, computes the arithmetic code |
| Mulaw.FindExponentGuarded | voice/holdfiller/twilio/filler.go:117-120 | the hold filler's guarded mask loop finds the same segment |
| Mulaw.LinearToMulaw | voice/holdfiller/twilio/filler.go:102-123 | the hold filler's encoder, written with the bitwise operators, computes the arithmetic code with its own clip level |
| Mulaw.PCM16ToMulaw | audio/codec/codec.go:71-77 | encodes every sample in order |
| Mulaw.MulawToPCM16 | audio/codec/codec.go:61-67 | expands every byte in order through the table |
| Mulaw.HoldFillerPCM16ToMulaw | voice/holdfiller/twilio/filler.go:92-98 | encodes every sample in order, and equals the codec's stream if and only if every magnitude is at most 8571 |
| Mulaw.StreamLaws | audio/codec/codec.go:61-77 | for whole streams: length kept, error bound at every sample, second round trip exact |
| Mulaw.StreamOrder | audio/codec/codec.go:61-77 | for whole streams: order of any two samples kept |
| Resampling.InterpolationStaysBetween | audio/codec/codec.go:109-123 | inputs sit at the even positions and each inserted sample is the mean of its neighbours rounded toward zero, and lies between them, whatever their signs |
| Resampling.Upsample8to16 | audio/codec/codec.go:109-123 | computes the interpolated sequence, last sample repeated |
| Resampling.Downsample24to8 | audio/codec/codec.go:129-136 | computes every third sample |
| Resampling.Mulaw8kToPCM16LE16k | audio/codec/codec.go:144-152 | is the composition of expansion, interpolation and byte encoding |
| Resampling.PCM16LE24kToMulaw8k | audio/codec/codec.go:160-168 | is the composition of byte decoding, decimation and compression |
| Resampling.DownFramesIndependently | audio/codec/codec.go:160-168 | cut at a multiple of six bytes, frames can be converted one by one |
| Resampling.UpsampledConcat | audio/codec/codec.go:109-123 | upsampling two pieces separately replaces the one sample interpolated across the joint |
| Resampling.UpFramesDifferInOneSample | audio/codec/codec.go:144-152 | converted apart and joined, frames agree everywhere but in the two bytes before the joint, and there if and only if the bytes at the joint stand for the same level |
| Resampling.UpFramesAgreeIff | audio/codec/codec.go:144-152 | frames can be converted one by one if and only if one is empty or the bytes at the joint stand for the same level |
| Resampling.UpFramesCanDiffer | audio/codec/codec.go:144-152 | a full-scale positive byte before a full-scale negative one: the results differ |
| History.RenderRun | ai/llm/geminitext/client.go:185-199 | the loop over a run of tool turns builds its call parts and response parts in order |
| History.EndOfRun | ai/llm/geminitext/client.go:181-184 | finds where the maximal run of tool turns ends |
| History.ChatContents | ai/llm/geminitext/client.go:170-217 | the two-index loop renders maximal runs of tool turns as groups, then appends the user's text if there is any |
| History.RenderedIsRegrouped | ai/llm/geminitext/client.go:170-242 | the single pass equals rendering turn by turn and then merging adjacent call and response pairs |
| History.RenderedIsGrouped | ai/llm/geminitext/client.go:170-217 | in every request each call content is followed by a response content of the same length and names, and no two groups are adjacent |
| History.GroupAnswers | ai/llm/geminitext/client.go:170-217 | in a group the i-th call part and the i-th response part are those of the i-th tool turn |
| History.DecodeThen | ai/llm/geminitext/client.go:170-242 | reading back a rendered history followed by anything gives what the history said, then the rest |
| History.DecodeRecovers | ai/llm/geminitext/client.go:170-242 | nothing the history said is lost, added or reordered by rendering |
| ToolLoop.MessagesToTurns | ai/orchestrator/orchestrator.go:85-95 | one text turn per stored message, in order |
| ToolLoop.FirstTurns | ai/orchestrator/orchestrator.go:46-47 | the first request is the stored messages and then the user's text |
| ToolLoop.Dispatch | ai/orchestrator/orchestrator.go:70-77 | carries out an answer's calls in order and appends one tool turn each, signature included |
| ToolLoop.Hop | ai/orchestrator/orchestrator.go:50-80 | one pass either concludes as specified or leaves the next request and the extended execution list |
| ToolLoop.Process | ai/orchestrator/orchestrator.go:41-83 | between 1 and the hop limit requests are sent, each with the history specified for its hop; all but the last are answered with tool calls; the executions made are those of the calls answered, including the last answer's when the hops run out; the result or error is the one the last answer calls for |
| ToolLoop.LastRequestShowsAllIff | ai/orchestrator/orchestrator.go:50-80 | a request holds every execution made up to the next hop if and only if its answer asks for no call |
| ToolLoop.ShownIff | ai/orchestrator/orchestrator.go:41-83 | of every Process call: each execution it made was in its last request if and only if there is no dispatcher or some allowed answer asks for no call, and it ends with the hop-limit error in exactly the other case |
| ToolLoop.UnseenExecution | ai/orchestrator/orchestrator.go:41-82 | a whole Process call with a model that always calls one tool, limited to one hop: the tool is run and the only request does not report it |
| ToolLoop.NextRequest | ai/orchestrator/orchestrator.go:70-77 | each request is the previous one plus the tool turns of the calls its answer asked for |
| ToolLoop.RequestsExtend | ai/orchestrator/orchestrator.go:50-80 | every earlier request is a prefix of every later one |
| ToolLoop.ExecutedInOrder | ai/orchestrator/orchestrator.go:70-77 | execution i is that of call i of all answers so far, in order, with the dispatcher's own answer and error for that call at that position |
| ToolLoop.RequestEndsInOneGroup | ai/orchestrator/orchestrator.go:41-83 | after the first hop a rendered request is texts, then one call group and one response group, replaying every call with its args and thought signature |
| ToolLoop.RequestSays | ai/orchestrator/orchestrator.go:41-95 | every request, rendered and read back, says exactly the stored messages with their roles, the user's text, and every call so far with its args, signature and the dispatcher's answer, in order |
| ToolLoop.ReadParts | ai/llm/geminitext/client.go:294-306 | the loop concatenates the text parts and collects the function parts in order |
| ToolLoop.ChatResponse | ai/llm/geminitext/client.go:281-308 | text, calls, finish reason and token usage of the first candidate; without candidates an empty reply, usage dropped |
| ToolLoop.ReplayIsFaithful | ai/llm/geminitext/client.go:281-308 | parsing an answer's function calls and replaying them gives back exactly the parts the model sent |
| LiveEvents.Emit | voice/llm/gemini/llm.go:196-203 | delivers until the consumer's context ends, and reports whether all went out |
| LiveEvents.TranslateParts | voice/llm/gemini/llm.go:235-253 | emits audio and text of each part in order and accumulates the text |
| LiveEvents.TranslateContent | voice/llm/gemini/llm.go:223-271 | emits a content's events and carries or clears the turn text |
| LiveEvents.Translate | voice/llm/gemini/llm.go:205-282 | emits a message's events, tool calls last |
| LiveEvents.Events | voice/llm/gemini/llm.go:187-286 | the events delivered are the prefix of the full translation that the consumer stayed for |
| LiveEvents.TraceTold | voice/llm/gemini/llm.go:205-282 | over any stream, each final text equals the streamed text since the previous turn completion and is followed by it, and none is pending wrongly |
| LiveEvents.TextIsConserved | voice/llm/gemini/llm.go:205-282 | over any stream all streamed text is all final text followed by what is still pending, and both are the server's text less the texts of parts with undecodable audio |
| LiveEvents.StreamedIsKept | voice/llm/gemini/llm.go:223-271 | from any pending text, the streamed texts are exactly the server's output transcriptions and part texts that are not dropped, in order |
| LiveEvents.AllTextStreamedIff | voice/llm/gemini/llm.go:223-271 | all text the server sent is streamed, in order, if and only if no part with undecodable audio carries text |
| LiveEvents.BadAudioLosesText | voice/llm/gemini/llm.go:236-253 | a text beside an undecodable audio blob is never emitted |
| LiveEvents.ToldConserves | voice/llm/gemini/llm.go:223-271 | any event sequence that tells its finals truthfully conserves text |
| LiveEvents.EarlyStopIsTold | voice/llm/gemini/llm.go:196-203 | the same truthfulness holds wherever the consumer stops, with final text a prefix of streamed text |
| LiveEvents.FinalThenTurnComplete | voice/llm/gemini/llm.go:259-270 | in the full translation every final text is immediately followed by the turn's completion |
| LiveEvents.MessageInOrder | voice/llm/gemini/llm.go:223-281 | within a message: caller transcript, assistant text and audio, interruption, final text, turn completion, tool calls |
| LiveLaws.AllIsPassedOn | voice/llm/gemini/llm.go:187-286 | over any stream the audio of every part whose audio decodes, every caller transcript, every interruption and turn completion and every tool call is passed on in order, and no other is |
| SmsRouter.SortFacts | communication/router/sms_router.go:147-155 | the sort is ordered by priority and stable: the rules of each priority keep their order |
| SmsRouter.SortedUnique | communication/router/sms_router.go:147-155 | ordered and stable determine the result |
| SmsRouter.BubblePass | communication/router/sms_router.go:147-155 | one in-place pass moves the largest priority to the end and never passes an equal one |
| SmsRouter.SortRules | communication/router/sms_router.go:147-155 | the in-place bubble sort computes the stable sort |
| SmsRouter.SortSortedAppend | communication/router/sms_router.go:69-74 | sorting after every addition equals sorting once |
| SmsRouter.ActiveOfSort | communication/router/sms_router.go:52-66 | filtering inactive rules commutes with sorting |
| SmsRouter.AddedIs | communication/router/sms_router.go:69-74 | after any additions each country holds the stable sort of its rules |
| SmsRouter.IncrementalEqualsBatch | communication/router/sms_router.go:52-74 | adding rules one by one and loading them at once leave the same active rules in the same order for every country |
| SmsRouter.FirstUsableIsBest | communication/router/sms_router.go:84-105 | scanning the sorted rules finds the best rule of the unsorted ones |
| SmsRouter.BestIsChosen | communication/router/sms_router.go:84-105 | that rule is active and its provider is registered and enabled, of least priority, and the earliest added among equals; there is none exactly when no rule is such |
| SmsRouter.SameChoice | communication/router/sms_router.go:52-105 | both ways of filling the router choose the same rule for every country and registry |
| SmsRouter.FormattingIgnored | communication/router/sms_router.go:158-184 | taking any one character that is neither a digit nor a plus out of a number, anywhere, never changes the country found |
| SmsRouter.DialledIsKept | communication/router/sms_router.go:158-165 | a number of digits and pluses is read as it stands |
| SmsRouter.OneCodeAtMost | communication/router/sms_router.go:166-181 | no built-in code starts another, so a number has at most one and the order of the search does not matter |
| SmsRouter.ExtractCountryCode | communication/router/sms_router.go:158-184 | the plus and the longest known code of one to three digits it starts with; +964 exactly when there is no leading plus or no such code |
| SmsRouter.Router.constructor | communication/router/sms_router.go:38-49 | starts without routes and with the built-in default |
| SmsRouter.Router.LoadRoutes | communication/router/sms_router.go:52-66 | replaces all routes by the active rules, grouped by country and sorted |
| SmsRouter.Router.AddRoute | communication/router/sms_router.go:69-74 | appends a rule to its country and sorts that country |
| SmsRouter.Router.SetDefaultRoute | communication/router/sms_router.go:77-81 | replaces the default rule only |
| SmsRouter.Router.SortAll | communication/router/sms_router.go:63-65 | sorts every country and touches nothing else |
| SmsRouter.Router.GetProviderForNumber | communication/router/sms_router.go:84-105 | the first usable rule of the number's country, else an available default, else an error; a provider returned is always enabled, and an error means that no active rule of the country and not the default names an enabled one |
| StringCase.SplitWords | stringcase/stringcase.go:18-57 | the scanning loop computes the word list |
| StringCase.SplitKeepsText | stringcase/stringcase.go:18-57 | splitting drops exactly the separators: words are non-empty and join to the letters and digits in order |
| SplitLaws.SplitsAtSeparators | stringcase/stringcase.go:18-57 | a separator always ends a word: the texts on its two sides are split on their own |
| SplitLaws.SplitsAtBoundaries | stringcase/stringcase.go:18-57 | inside a run of letters and digits the words end exactly before each capital that follows a small letter or digit or precedes a small letter, and at the end |
| SplitLaws.CapitalsAfterSeparator | stringcase/stringcase.go:18-57 | capitals on both sides of an underscore are two words, never one acronym |
| SplitLaws.SeparatorsOfForms | stringcase/stringcase.go:60-84 | Snake holds only small letters, digits and underscores, Kebab dashes instead, and two or more words always show the separator |
| StringCase.LowerAndJoin | stringcase/stringcase.go:60-84 | lowers the words and joins them with the separator |
| StringCase.SplitOfJoined | stringcase/stringcase.go:60-84 | splitting a snake or kebab form gives back the lowered words, for every text |
| StringCase.SnakeKebabIdempotent | stringcase/stringcase.go:60-84 | Snake and Kebab are idempotent and keep the words, for every text |
| StringCase.ToPascal | stringcase/stringcase.go:101-119 | concatenates the titled words |
| StringCase.ToCamel | stringcase/stringcase.go:87-119 | concatenates the lowered first word and the titled rest |
| StringCase.FoldTitle | stringcase/stringcase.go:18-57 | what scanning a titled word does after any scan state: start a word, extend the current one, or split an acronym |
| StringCase.PascalRoundTripIff | stringcase/stringcase.go:101-108 | splitting the Pascal form gives the words back if and only if every adjacent pair separates |
| StringCase.CamelRoundTripIff | stringcase/stringcase.go:87-98 | the same for camel case, where the second word must start with a letter |
| StringCase.PascalMerges | stringcase/stringcase.go:101-108 | "a_b" becomes "AB", which splits as one word |
| StringCase.CamelMerges | stringcase/stringcase.go:87-98 | "a_1" becomes "a1", which splits as one word |
| StringCase.LongWordsRoundTrip | stringcase/stringcase.go:87-108 | words of at least two characters that start with a letter always come back |
| Money.AddSubExact | money/money.go:126-145 | Add and Sub are exact and report overflow exactly when the true result leaves int64 |
| Money.SameCodeIff | money/money.go:35-36 | two currencies have the same code if and only if they differ in letter case at most, and a code has no small letters |
| Money.MulExactIff | money/money.go:148-158 | MulInt is exact, overflow report included, if and only if not (most negative amount, -1) |
| Money.MinTimesMinusOne | money/money.go:148-158 | that pair returns the most negative amount and no error |
| Money.DivExactIff | money/money.go:161-166 | DivInt is the truncated quotient if and only if not the same pair |
| Money.MinOverMinusOne | money/money.go:161-166 | the excluded division returns the most negative amount and no error |
| Money.ChainIsExactIff | money/money.go:126-158 | a chain of operations equals the unbounded computation after every step, with the same first error at the same step, if and only if no step that is reached multiplies the most negative amount by -1 |
| MoneyText.ParseInvertsRenderIff | money/money.go:195-223 | for scales up to 8, reading String back gives amount and code if and only if the amount is not the most negative |
| MoneyText.NumberIsPlain | money/money.go:195-223 | String prints a sign and the padded decimal of the magnitude |
| MoneyText.NumberOfMin | money/money.go:195-223 | the most negative amount prints two signs |
| MoneyText.ParsePlain | money/money.go:195-223 | the padded decimal reads back, fraction zeros included |

## Left out

- Provider adapters, JSON, HTTP, websockets, base64, WebRTC and Opus: input and output formats of other parties; they enter as parameters.
- The hold-filler watchdog inside the tool fan-out: it plays audio beside the workers and touches neither result slots nor the semaphore.
- Liveness of a whole session: the readers exit only when the adapters close their channels, which this code does not control; NeverStuck and StepsAreBounded cover everything else.
- The calls of transport.Close and llm.Close when a session ends, and the audio bridges: a frame in the session model is the bridged one, and a frame that cannot be bridged or sent is a failure of the reader.
- Floating point: limiter tokens and backoff growth are exact reals, the grown timeout is truncated to an integer, and 64-bit duration overflow of an uncapped backoff is not modelled.
- Wrap-around of the circuit breaker's 32-bit counters and of time values.
- Non-ASCII letters in case conversion, ScreamingSnake (Snake in upper case), and Unicode case folding.
- The ownership check of the standard list package: every element handed to the ring belongs to it.
- Locks: each locked section is one atomic step.
- The logger, state-change callbacks and error classification of the circuit breaker.
- The registry and fallback order of `ai/llm`: Process sees one chat function.
- ListAllRoutes, money.New, money.Register, Len and other accessors: they would only add easy members.
- ToolLoop.Process: cancellation of the context reaches it only as an error of the chat function.
- TokenBucket.Limiter.Wait: when its turns get the lock is a parameter, so how long a sleep lasts is the scheduler's choice; cancellation is the end of the turns.
- CircuitBreaker.RecoversIff: counts only outcomes of the episode that admitted their call; RecoversWithLateOutcomesIff counts them all.
- CircuitBreaker.NeverCloses: the same restriction.
- MoneyText.ParseInvertsRenderIff: scales above 8 are not covered, since Register refuses them.
