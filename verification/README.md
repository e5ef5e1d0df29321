# Verification of the partly-proxy record/replay core

partly-proxy is an HTTP proxy that records what its upstreams answer and replays it. A request passes a pause gate, a
chain of middleware, a scan of stubs, a lookup in a live index, and, if nothing answered it, a forward to the upstream;
then it is recorded: promoted into the live index, appended to the upstream's own storage, pushed into a bounded ring.
Commands assert on that ring, pause and resume upstreams, and the whole cluster can be drained and shut down while
requests are under way. A TypeScript client drives it over a line protocol.

This project models that core and proves what it promises. `dafny verify dfyconfig.toml` checks all of it.

## How it is built

Concurrent parts are state machines over atomic steps. A *run* is any sequence of steps at all: a step that does not
apply changes nothing, so every theorem over runs covers every interleaving. Data structures that the source updates in
place are classes whose methods are proved against functions; the machines use those functions. Hash, middleware,
matchers, filters and the JSON codec are function values, so that the theorems hold for all of them; nothing is assumed
of the hash.

| file | what it models |
|---|---|
| `Wrappers.dfy`, `Collections.dfy` | options and results; counting, sizes of finite sets |
| `Text.dfy`, `Uris.dfy`, `Http.dfy`, `Recorded.dfy` | newline framing; request targets; header maps; recorded exchanges and keys |
| `Middleware.dfy` | the onion recursion of the chain, snapshot redaction |
| `Replay.dfy`, `Stubs.dfy`, `Recorders.dfy`, `Jsonl.dfy` | live index, stub store, ring with its media, NDJSON medium |
| `Listener.dfy` | the requests of one upstream as interleaved steps over the state they share |
| `Dedup.dfy`, `Tightness.dfy`, `ForwardOnce.dfy`, `Restart.dfy`, `RoundTrip.dfy` | the guarantees of the deduplicating cache over runs of that machine |
| `Composition.dfy` | recorder and stub store within the runs of requests and commands |
| `Assertions.dfy` | the wait-for engine against record calls, clears and the clock |
| `PauseGate.dfy`, `Shutdown.dfy`, `Cluster.dfy`, `Builder.dfy` | pause, drain, abort, fence; the shutdown sequence; bring-up |
| `ControlLine.dfy` | the pipelined client, the server's loop, and the two together |

## Main results

* **Deduplication** (`Dedup.DedupBound`): once a key is answered it is never forwarded again, and the responses recorded
  for it, on the medium too, number at most the requests that were between a missed lookup and completion at that moment.
  The bound is attained for every number of requests (`Tightness.DedupBoundIsTight`). If rewriting keeps keys and recording
  is enabled, the most requests for a key that are ever in flight together also bound its successful forwards over the
  whole run, apart from those whose response was lost to a dropped connection or turned into a failure by a layer
  (`ForwardOnce.SuccessesAreBounded`).
* **Restart** (`Restart.RestartAgreesIff`): in every run, with overlapping, failing, dropped and unfinished record calls,
  the live index and an index rebuilt from storage agree on a key if and only if it was loaded at start, or the first
  response promoted for it and the first to reach storage are of the same request, or there is neither.
  `Restart.OrderlyRestartAgreesIff` says it of the record alone where record calls for the key are orderly.
* **Round trip** (`RoundTrip.RecordedResponseIsServed`, `RoundTrip.RecordThenReplay`): what was recorded is what is
  served, in the same run and through the file into another cluster.
* **Refinement** (`Listener.StepsRefineHandler`): the machine's small steps are the source's request handler.
* **No lost wakeup** (`Assertions.NoLostWakeup`), and a sound, witnessed, terminating verdict.
* **Storage fence** (`Shutdown.FenceHolds`, `Shutdown.FenceHoldsIffNoStraggler`), and progress after the abort.
* **Reply alignment** (`ControlLine.RepliesStayAligned`, `ControlLine.EachGetsItsOwnAnswer`): however replies are cut
  into chunks and whichever commands time out locally, each caller gets its own command's answer or none.

## Where code and documentation part

The model follows the code.

* Section 8.3 of SPECIFICATION.md says that Replay mode does not record. The record path checks only whether recording is
  enabled, so a replay miss is stored and answers after a restart: `Restart.ReplayMissIsStored`.
* The comment at `command.rs:267-269` says that further traffic cannot bring an overshoot back down. It can, by eviction:
  `Assertions.OvershootSurvivesPushesIff` says exactly when the next `m` exchanges cannot, whatever they are, and
  `Assertions.EvictionBringsOvershootBack` gives an instance. A clear always does: `Assertions.ClearEndsOvershoot`.
* `stub.rs:178` says that an entry with `Some(n)` fires at most n times. One with `Some(0)` fires once
  (`Stubs.ZeroCountFires`); the count is a limit if and only if it is not zero (`Stubs.CountIsALimitIff`).
* The live index is updated before the durable append, so a failed append leaves it ahead of storage:
  `Restart.FailedAppendLeavesLiveAhead`, `Restart.FailedAppendBreaksRestart`. Overlapping requests for one key may reach
  storage in the other order: `Restart.OverlapBreaksRestart`.
* The comment at `listener.rs:149-152` says that with pause cleared at the drain only the forward can hold a request. A
  pause command that comes after the reset holds it again: `PauseGate.LatePauseHoldsAgain`; `PauseGate.GetsThroughIff` is
  the exact condition.
* Lookups use the request that middleware rewrote, records the original one. A repeated request is replayed only if both
  have the same key: `Dedup.RepeatIsReplayedIffKeyKept`, and `Dedup.MarkingLayerMissesAgain` for a layer that breaks it.
  The marker for a forward is set before the forward completes, so the first of the two also covers a failed forward whose
  error a layer turned into a response: that response is promoted too.
* `recorder.rs:123-127` says that disk order and ring order agree. A record call that is dropped while it awaits the
  append can leave on disk what the ring never shows: `Recorders.AbandonedAppendBreaksSuffix` is an instance, and
  `Recorders.RingShowsEndOfMediumIff` the exact condition; the order still agrees.
* The comment at `cluster.rs:136-138` says that what the hard abort cuts is not recorded. The same dropped append may
  have reached the medium.
* The timeout branch answers that the assertion failed even when its final count would satisfy it:
  `Assertions.LateMatchStillFails` is a run that does so, `Assertions.FailsThoughPassingIff` says when it happens, and
  `Assertions.QuietTimeoutReportsPending` that it takes a push that the last evaluation could not have seen.
* At shutdown the join of a listener may time out, and its loop is then told to abort; until that takes effect it may accept once more.
  `Shutdown.FenceHoldsIffNoStraggler` says what the fence is worth then.

## Model

| member | source | states |
|---|---|---|
| Uris.PrintedUriKeepsTarget | crates/partly-proxy-lib/src/replay.rs:193-206 | every target form survives being printed into a record and parsed again, so live key and recorded key see the same path and query |
| Uris.AbsoluteAndOriginAgree | crates/partly-proxy-lib/src/replay.rs:200-206 | a target recorded in absolute form has the key of its origin form |
| Uris.TolerantBranchAgrees | crates/partly-proxy-lib/src/replay.rs:207-216 | on a printed absolute form the fallback cuts where the parser does |
| Uris.TolerantBranchKeepsOriginForm | crates/partly-proxy-lib/src/replay.rs:207-216 | the fallback keeps an origin-form text whole if and only if it holds no scheme separator |
| Uris.TolerantBranchWithoutPath | crates/partly-proxy-lib/src/replay.rs:209-214 | a text with a scheme and nothing like a path after it has the path / |
| Uris.SamePathAndQueryIff | crates/partly-proxy-lib/src/replay.rs:195-198 | the path and query of a key agree if and only if path and query do, each for itself, or both targets name no resource, or both the server |
| Http.BuildHeaderMap | crates/partly-proxy-lib/src/replay.rs:218-229 | the loop rebuilds the header map that the recorded pairs stand for, pair by pair, skipping what does not parse |
| Http.ReplayedValues | crates/partly-proxy-lib/src/replay.rs:218-229 | under each name a replay answers the last recorded value alone, a binary one as its placeholder |
| Http.BadPairIsSkipped | crates/partly-proxy-lib/src/replay.rs:220-227 | a recorded pair whose name or value does not parse is left out and changes nothing about the others |
| Http.HeadersSurviveReplay | crates/partly-proxy-types/src/recorded.rs:127-137 | a header map survives recording and replay if and only if no name repeats and every value is text |
| Recorded.RecordingKeepsKey | crates/partly-proxy-types/src/recorded.rs:27-37 | a recorded request is found under the key of the live request it was made from |
| Recorded.RecordKeepsRequest | crates/partly-proxy-types/src/recorded.rs:27-37 | a recorded request keeps method, target, body and hash, and each header as its text or the placeholder |
| Recorded.SameKeyIff | crates/partly-proxy-lib/src/replay.rs:154-158 | requests share a key if and only if they have the same method, the same path and query, and the same body hash |
| Recorded.ReplayedStatusIs | crates/partly-proxy-types/src/recorded.rs:62-64 | a recorded status that is none is replayed as 502, every other as itself |
| Recorded.ReplayGivesBack | crates/partly-proxy-types/src/recorded.rs:53-64 | replaying a recorded response gives back status and body, and the headers exactly under the survival condition |
| Middleware.FlatteningKeepsMeaning | crates/partly-proxy-lib/src/middleware.rs:94-101 | the onion recursion equals one layer around the terminal, for every chain of rewriting, answering, failing and recovering layers |
| Middleware.ChainsCompose | crates/partly-proxy-lib/src/middleware.rs:121-129 | a chain made of two runs the first over the second over the terminal |
| Middleware.OneLayerWraps | crates/partly-proxy-lib/src/middleware.rs:94-101 | a single layer sees the request first and the outcome last, and what it answers by itself never reaches the terminal |
| Middleware.TerminalRunsAtMostOnce | crates/partly-proxy-lib/src/middleware.rs:83-101 | the terminal runs at most once, and the source marker is absent at exit if and only if it never ran |
| Middleware.RedactRequest | crates/partly-proxy-lib/src/middleware.rs:105-109 | the in-place loop folds the redactions in registration order |
| Middleware.RedactResponse | crates/partly-proxy-lib/src/middleware.rs:112-116 | likewise for responses |
| Middleware.LastRedactsLast | crates/partly-proxy-lib/src/middleware.rs:104-116 | the layer registered last redacts what all the others have left, in requests and in responses |
| Replay.BuildIndex | crates/partly-proxy-lib/src/replay.rs:176-191 | the built map holds for every key the place that a linear scan finds, and no other keys |
| Replay.IndexIsFirstWins | crates/partly-proxy-lib/src/replay.rs:57-60 | agreeing with the scan means exactly: entries in bounds, each the first response with its own key, none missing |
| Replay.ReplaySource.constructor | crates/partly-proxy-lib/src/replay.rs:75-82 | a new source holds the given exchanges under an index that agrees with their scan |
| Replay.ReplaySource.Insert | crates/partly-proxy-lib/src/replay.rs:121-138 | an insert promotes a response whose key is new and nothing else, and the index still agrees with the scan |
| Replay.ReplaySource.Lookup | crates/partly-proxy-lib/src/replay.rs:147-173 | the indexed lookup answers what a scan for the redacted key answers |
| Replay.HitIsSameRequest | crates/partly-proxy-lib/src/replay.rs:147-163 | what answers a lookup was recorded of a request with the same method, path, query and body hash as the redacted live one |
| Replay.IncrementalAgreesWithBatch | crates/partly-proxy-lib/src/replay.rs:121-138 | inserting one by one answers every key as building over all at once, which is the first response in order |
| Replay.AnswerIsPermanent | crates/partly-proxy-lib/src/replay.rs:131-134 | once a key is answered, no later insert changes its answer |
| Stubs.StubStore.Add | crates/partly-proxy-lib/src/stub.rs:192-194 | an added entry comes last |
| Stubs.StubStore.Clear | crates/partly-proxy-lib/src/stub.rs:197-199 | a clear leaves no entry |
| Stubs.StubStore.TakeMatch | crates/partly-proxy-lib/src/stub.rs:218-236 | result and remaining entries are those of firing the first match once, with the saturating count |
| Stubs.TakeAnswersFirstMatch | crates/partly-proxy-lib/src/stub.rs:223-235 | the answer is the response of the first entry that matches, and there is none if and only if none matches |
| Stubs.RunRefinesStore | crates/partly-proxy-lib/src/stub.rs:189-237 | over any run, the store holds what the history of fires says, entry for entry |
| Stubs.FiresAreConserved | crates/partly-proxy-lib/src/stub.rs:226-231 | in every run, while an entry is present its fires so far and the count it has left make the count added; it never fires more often than that, or than once for Some(0) |
| Stubs.ZeroCountFires | crates/partly-proxy-lib/src/stub.rs:226-234 | an entry added with Some(0) fires at the first request that it matches, and is then gone |
| Stubs.CountIsALimitIff | crates/partly-proxy-lib/src/stub.rs:178-180 | that an entry with Some(n) fires at most n times holds in every run if and only if n is not zero |
| Stubs.ScanFiresTheEarliest | crates/partly-proxy-lib/src/stub.rs:222-235 | in any run a scan answers with the response that the earliest live match was added with, fires it, keeps the others and their order, and removes it exactly at its last fire |
| Stubs.UnlimitedLeavesOnlyByClear | crates/partly-proxy-lib/src/stub.rs:226-234 | an entry without a count stays until the store is cleared |
| Recorders.Recorder.Insert | crates/partly-proxy-lib/src/recorder.rs:119-156 | the eviction loop and the append produce the specified ring, medium and notification; a failed append changes nothing |
| Recorders.Recorder.Clear | crates/partly-proxy-lib/src/recorder.rs:194-196 | a clear empties the ring and leaves the media alone |
| Recorders.RingIsWindow | crates/partly-proxy-lib/src/recorder.rs:147-150 | under any run the ring is the last min(cap, n) of the n exchanges accepted since the last clear |
| Recorders.NotifiedForEachAccepted | crates/partly-proxy-lib/src/recorder.rs:138-154 | over any run waiters are notified once for every accepted exchange, also with a cap of zero, and for nothing else |
| Recorders.MediumKeepsAccepted | crates/partly-proxy-lib/src/recorder.rs:130-136 | unless a record call of that very upstream was dropped after its append, a medium gains exactly the accepted exchanges of its upstream, in order |
| Recorders.RingShowsEndOfMedium | crates/partly-proxy-lib/src/recorder.rs:123-136 | then the ring, projected to an upstream with a medium, is a suffix of that medium |
| Recorders.RingShowsEndOfMediumIff | crates/partly-proxy-lib/src/recorder.rs:123-150 | over distinct exchanges, in any run, it is a suffix if and only if no record call of that upstream was dropped after its append and after an exchange that the ring still shows |
| Recorders.RingFollowsMediumOrder | crates/partly-proxy-lib/src/recorder.rs:128-150 | with record calls dropped while they await the append, it is still an order-preserving subsequence |
| Recorders.AbandonedAppendBreaksSuffix | crates/partly-proxy-lib/src/recorder.rs:128-150 | one such dropped call is enough for the suffix property to fail |
| Listener.StepsRefineHandler | crates/partly-proxy-lib/src/listener.rs:290-340 | the small steps of one request whose body was read, run alone, leave the state that the chain around the terminal and then the success or error record path leave |
| Listener.BodyFailureRefinesHandler | crates/partly-proxy-lib/src/listener.rs:271-288 | a request whose body could not be read is recorded as a failure under an empty body |
| Listener.RecordedKey | crates/partly-proxy-lib/src/listener.rs:494-517 | a request is recorded under the key its unrewritten, redacted self is looked up under |
| Listener.ChainReachesLiveTerminal | crates/partly-proxy-lib/src/listener.rs:364-398 | a request reaches the live terminal at most once through any chain, has no marker if and only if it did not, and is forwarded only under the Upstream marker |
| Listener.TerminalPriority | crates/partly-proxy-lib/src/listener.rs:366-396 | first the first matching stub, then the first live exchange under the key, then the miss handler or the upstream by mode, each with its marker and with nothing else touched |
| Listener.WhatIsRecorded | crates/partly-proxy-lib/src/listener.rs:419-454 | alone, an outcome is recorded unless it is a response of the snapshot, and promoted if and only if it is a response of the upstream: stubs, misses and short circuits never |
| Listener.OnlyTheirStepTouches | crates/partly-proxy-lib/src/listener.rs:442-453 | live index, record and media each change in their own step only |
| Composition.RecorderOfARun | crates/partly-proxy-lib/src/recorder.rs:119-156 | in every run of requests and commands the ring is the window of what was accepted since the last clear, each accepted exchange notified once, and each upstream is shown in its medium's order |
| Composition.StubsOfARun | crates/partly-proxy-lib/src/stub.rs:189-237 | in every such run the store holds what the history of its fires says, so that the conservation laws apply |
| Dedup.DedupBound | crates/partly-proxy-lib/src/listener.rs:442-453 | in every interleaving with key-preserving middleware: no forward of a key after its first insert, recorded responses bounded by the requests then in flight, every snapshot served equal to that first insert |
| Dedup.OverlapBoundsReplies | crates/partly-proxy-lib/src/listener.rs:442-453 | if never more than n requests for a key are in flight together, at most n upstream responses are recorded for it, also counting those that a dropped record call left on the medium |
| Dedup.LoadedKeyIsNeverForwarded | crates/partly-proxy-lib/src/listener.rs:375-382 | a key that storage answered at start is never forwarded in any run |
| Dedup.ReplayModeNeverForwards | crates/partly-proxy-lib/src/listener.rs:383-389 | in Replay mode no chain, stub set, command history or interleaving reaches the forwarder |
| Dedup.FirstAnswerIsAConclusion | crates/partly-proxy-lib/src/listener.rs:446-450 | a key becomes answered only by the end of a forward of that very key, with that very exchange |
| Dedup.LayersKeepKey | crates/partly-proxy-lib/src/middleware.rs:94-101 | a chain keeps redacted keys if each layer does |
| Dedup.RepeatIsReplayedIffKeyKept | crates/partly-proxy-lib/src/listener.rs:377-382 | after a recorded forward the same request hits if and only if its rewritten key is its recorded key |
| Dedup.MarkingLayerMissesAgain | crates/partly-proxy-lib/src/listener.rs:499-500 | a layer that rewrites the method live and not in redaction: what was forwarded and recorded misses again |
| Tightness.DedupBoundIsTight | crates/partly-proxy-lib/src/listener.rs:442-453 | for every n a run with n requests in flight at the first insert of a key and n responses recorded for it, over any chain that forwards and keeps the key |
| ForwardOnce.SuccessesAreBounded | crates/partly-proxy-lib/src/listener.rs:383-395 | with recording enabled and key-preserving rewriting, if never more than n requests for a key are in flight together, its successful forwards in the whole run exceed n at most by those whose response a layer turned into a failure or a dropped connection lost |
| Restart.RestartAgreesIff | crates/partly-proxy-lib/src/listener.rs:442-453 | in every run at all, live and reloaded answers for a key agree if and only if it was loaded, or the first response promoted and the first to reach storage are of the same request, or there is neither |
| Restart.RestartEquivalence | crates/partly-proxy-lib/src/listener.rs:419-454 | if the recorded responses for a key came from the upstream and its record calls were orderly, the live index answers it as one rebuilt from storage |
| Restart.RecordModeRestart | crates/partly-proxy-lib/src/listener.rs:419-454 | the same from the configuration alone: Record mode, no stubs, no short circuit, whatever the traffic for other keys |
| Restart.StoredRepliesAreBounded | crates/partly-proxy-lib/src/listener.rs:429-450 | in Record mode without stubs and short circuits, if never more than n requests for a key are in flight together, its storage gains at most n responses for it, those of dropped record calls included |
| Restart.OrderlyRestartAgreesIff | crates/partly-proxy-lib/src/listener.rs:442-453 | where record calls for a key are orderly and done, the condition is on the record alone: it was loaded, or the first response recorded for it, if any, came from the upstream |
| Restart.LiveKeysAreReloaded | crates/partly-proxy-lib/src/listener.rs:446-453 | in any interleaving, a live key whose responses storage took is answered after a restart |
| Restart.OverlapBreaksRestart | crates/partly-proxy-lib/src/listener.rs:446-453 | two overlapping requests for one key, stored in the other order, make live and reloaded answers differ |
| Restart.FailedAppendLeavesLiveAhead | crates/partly-proxy-lib/src/listener.rs:446-453 | after a recorded forward the live index answers, and a restart does if and only if the append succeeded |
| Restart.FailedAppendBreaksRestart | crates/partly-proxy-lib/src/listener.rs:446-453 | after any run, a new key that is forwarded and recorded alone has equal live and reloaded answers if and only if its append succeeded |
| Restart.ReplayMissIsStored | crates/partly-proxy-lib/src/listener.rs:426-453 | in Replay mode, over any chain, what becomes of a miss is stored and answers after a restart if and only if recording is enabled and it is a response; the live index is left alone |
| RoundTrip.RecordedResponseIsServed | crates/partly-proxy-lib/src/listener.rs:435-450 | in any run, for any redaction chain, a request with the recorded key gets the recorded status and redacted body |
| RoundTrip.RecordThenReplay | crates/partly-proxy-lib/src/replay.rs:90-98 | any run over an empty file, and another cluster over that file: the second serves what the first's index answered for a key, if the first response promoted for it and the first in the file are of the same request; in Replay mode it forwards nothing |
| Jsonl.JsonlStorage.Append | crates/partly-proxy-storage-jsonl/src/lib.rs:75-89 | an append adds the encoded line and its newline to what is there |
| Jsonl.JsonlStorage.Load | crates/partly-proxy-storage-jsonl/src/lib.rs:102-122 | the counting loop yields the specified exchanges and, if it fails, the 1-based line |
| Jsonl.LoadReturnsAppended | crates/partly-proxy-storage-jsonl/src/lib.rs:75-122 | load after any appends and reopenings gives what was there and then exactly what was appended |
| Jsonl.TornTextSwallowsAppend | crates/partly-proxy-storage-jsonl/src/lib.rs:75-89 | an append has a line of its own if and only if no unterminated text precedes it |
| Jsonl.BlankLineOnlyCounts | crates/partly-proxy-storage-jsonl/src/lib.rs:109-119 | a blank line changes nothing but the number of a later bad line |
| Jsonl.FirstBadLineStops | crates/partly-proxy-storage-jsonl/src/lib.rs:130-134 | a load fails exactly on the first line neither blank nor readable, after yielding all before it |
| Assertions.NoLostWakeup | crates/partly-proxy-lib/src/command.rs:289-344 | parked, unsignalled and no record call between push and notify: the present ring is Pending |
| Assertions.PendingIsDownwardClosed | crates/partly-proxy-lib/src/command.rs:253-277 | a smaller count cannot settle a pending shape, so evictions and clears need no wakeup |
| Assertions.VerdictIsWitnessed | crates/partly-proxy-lib/src/command.rs:297-341 | a pass or overshoot is witnessed by a ring between dispatch and reply; a timeout had a pending last evaluation |
| Assertions.ReplyMeans | crates/partly-proxy-lib/src/command.rs:262-331 | in any run a reply passes if and only if the evaluated count is at least one, or exactly the expected one; it is an overshoot if and only if the count is over; else the timeout was zero and one evaluation made, or the deadline is past |
| Assertions.MatchingCounts | crates/partly-proxy-lib/src/recorder.rs:207-219 | the count is the number of places in the ring whose exchange matches |
| Assertions.MatchWakesAndPasses | crates/partly-proxy-lib/src/command.rs:333-343 | a push that brings the count to what was asked for wakes the parked asserter, and it passes |
| Assertions.RingIsChanged | crates/partly-proxy-lib/src/command.rs:281-345 | the asserter only reads: in any run the ring changes by the pushes and clears of others alone |
| Assertions.LateMatchStillFails | crates/partly-proxy-lib/src/command.rs:334-341 | a run whose final count after the timer satisfies the shape, and whose reply is a failure |
| Assertions.FailsThoughPassingIff | crates/partly-proxy-lib/src/command.rs:297-341 | in every run, a failing reply reports a passing count if and only if it is the final count after the timer and the ring at that step settles the shape |
| Assertions.QuietTimeoutReportsPending | crates/partly-proxy-lib/src/command.rs:333-341 | in every run, if nothing is between push and notification when the timer fires and nothing is pushed from then on, a timed-out reply reports a pending count |
| Assertions.EvaluationsAreBounded | crates/partly-proxy-lib/src/command.rs:289-344 | at most one evaluation more than notifications since dispatch |
| Assertions.LateEvaluationIsLast | crates/partly-proxy-lib/src/command.rs:322-331 | an evaluation begun at or after the deadline is the last |
| Assertions.RepliesAfterDeadline | crates/partly-proxy-lib/src/command.rs:314-342 | past the deadline the asserter replies after at most five steps of its own, however others interleave |
| Assertions.CountIsConserved | crates/partly-proxy-lib/src/recorder.rs:207-219 | matches now plus matches evicted or cleared are matches before plus matches pushed |
| Assertions.OvershootSurvivesPushesIff | crates/partly-proxy-lib/src/command.rs:266-273 | an overshoot is certain to outlast the next m exchanges if and only if the newest exchanges now in the ring, as many as will still have room, overshoot by themselves |
| Assertions.ClearEndsOvershoot | crates/partly-proxy-lib/src/command.rs:266-273 | a clear ends every overshoot |
| Assertions.OvershootIsPermanentWithinCap | crates/partly-proxy-lib/src/command.rs:266-273 | while pushes stay within the cap the count is monotone and an overshoot permanent |
| Assertions.EvictionBringsOvershootBack | crates/partly-proxy-lib/src/command.rs:266-273 | one eviction turns an overshot assertion into a satisfied one |
| PauseGate.LeavesOnlyUnpaused | crates/partly-proxy-lib/src/listener.rs:347-356 | a request that left the gate saw the flag down at a version no older than its arrival |
| PauseGate.StuckOnlyWhilePaused | crates/partly-proxy-lib/src/listener.rs:347-356 | a parked request that cannot wake is parked under a raised flag |
| PauseGate.UnpausedRunsLetThrough | crates/partly-proxy-lib/src/command.rs:347-365 | once resumed and not paused again, every request at the gate is through after two steps of its own |
| PauseGate.DrainUnblocksEveryone | crates/partly-proxy-lib/src/listener.rs:149-153 | the reset at drain makes every parked request runnable, in any run |
| PauseGate.LatePauseHoldsAgain | crates/partly-proxy-lib/src/listener.rs:149-153 | a pause after the reset holds requests again |
| PauseGate.GetsThroughIff | crates/partly-proxy-lib/src/listener.rs:347-356 | after any run, a request that takes two steps of its own under an untouched flag ends up through the gate if and only if it was through or the flag is down |
| Shutdown.FenceHolds | crates/partly-proxy-lib/src/cluster.rs:139-200 | if shutdown returns without error, every loop exited, every tracked task ended, and no append came or comes after the flush |
| Shutdown.FenceHoldsIffNoStraggler | crates/partly-proxy-lib/src/cluster.rs:142-164 | in any state, also after joins that failed: no append can follow if and only if no connection task is left and no loop can still accept one |
| Shutdown.ExitedLoopHasNoTasks | crates/partly-proxy-lib/src/listener.rs:157-170 | no accept loop exits before every tracked task has ended |
| Shutdown.NothingAcceptedAfterDrain | crates/partly-proxy-lib/src/listener.rs:114-147 | once a loop stopped accepting it gains no connection |
| Shutdown.AbortedTaskEnds | crates/partly-proxy-lib/src/listener.rs:200-238 | after the abort a task ends after at most three steps of its own, whatever everyone else does |
| Shutdown.AbortingLoopCanExit | crates/partly-proxy-lib/src/listener.rs:160-170 | an aborting loop is never stuck: some continuation lets it exit |
| Shutdown.DrainCanEnd | crates/partly-proxy-lib/src/listener.rs:114-170 | from accepting, draining or aborting, some continuation has the loop exited, whatever its connections do |
| Shutdown.DrainCanEndGracefully | crates/partly-proxy-lib/src/listener.rs:157-162 | a drain whose connections end by themselves exits without an abort |
| Shutdown.CleanShutdownExists | crates/partly-proxy-lib/src/cluster.rs:139-200 | every cluster has a run in which shutdown returns without an error |
| Shutdown.PanicIsReported | crates/partly-proxy-lib/src/cluster.rs:154-156 | after a loop panicked before its exit no shutdown returns without an error |
| Shutdown.HandshakeComesFirst | crates/partly-proxy-lib/src/listener.rs:223-240 | a connection over TLS appends nothing before its handshake is done |
| Cluster.ClusterHandle.JoinListeners | crates/partly-proxy-lib/src/cluster.rs:147-164 | every listener is joined in order, one that times out is told to abort, and exactly the failures are collected |
| Cluster.ClusterHandle.ShutdownWithTimeout | crates/partly-proxy-lib/src/cluster.rs:139-200 | signal, listener joins, flush, command join, control join: in this order whatever fails, with exactly the failures collected |
| Cluster.NoErrorMeansFenced | crates/partly-proxy-lib/src/cluster.rs:139-200 | in every run of the cluster, the errors of that sequence over the outcomes its handle saw are none if and only if the run has no fault, and then all tasks ended and no append follows the flush |
| Cluster.OkIffAllWell | crates/partly-proxy-lib/src/cluster.rs:195-199 | shutdown is Ok if and only if every join and the flush went well |
| Cluster.FailuresNameListeners | crates/partly-proxy-lib/src/cluster.rs:152-163 | the failures name exactly the listeners whose join did not go well, with its outcome |
| Cluster.EventsNameListeners | crates/partly-proxy-lib/src/cluster.rs:147-164 | every listener is joined, and told to abort if and only if it timed out |
| Cluster.TasksAreJoinedInOrder | crates/partly-proxy-lib/src/cluster.rs:173-194 | command task before control plane, each joined if and only if it has not been taken |
| Builder.Bringup.CheckNames | crates/partly-proxy-lib/src/builder.rs:317-325 | the check passes if and only if names are distinct, else names the first repeated spec |
| Builder.Bringup.TearDown | crates/partly-proxy-lib/src/builder.rs:376-381 | every started listener task is signalled and joined |
| Builder.Bringup.Run | crates/partly-proxy-lib/src/builder.rs:316-417 | success if and only if names are distinct and everything loads and binds, with exactly the specs' names; otherwise the error names the first spec to blame and all that was started is signalled and joined |
| Text.CutFindsLines | ts-client/src/index.ts:207-218 | cutting a text at newlines finds exactly the lines it was written from |
| Text.CutIsLossless | ts-client/src/index.ts:207-218 | lines and unterminated tail put back together are the text |
| Text.TextLinesAre | crates/partly-proxy-storage-jsonl/src/lib.rs:106-113 | a reader sees the terminated lines without their line ends, and text after the last newline as it is |
| Text.TrimFindsText | crates/partly-proxy-lib/src/control_plane.rs:106 | trimming takes away the white space around a text and nothing of the text |
| Text.BlankIsTrimmedAway | crates/partly-proxy-lib/src/control_plane.rs:106-109 | a line is blank if and only if nothing is left of it once it is trimmed |
| ControlLine.ProxyClient.DoSend | ts-client/src/index.ts:173-182 | the reply slot is queued last and the line is written after what was written before |
| ControlLine.ProxyClient.Resolve | ts-client/src/index.ts:213-216 | a reply line goes to the oldest pending command, and to nobody if there is none |
| ControlLine.ProxyClient.OnData | ts-client/src/index.ts:207-218 | the loop hands the complete lines to the oldest pending commands in order and keeps the unterminated tail |
| ControlLine.ProxyClient.Fail | ts-client/src/index.ts:220-228 | the first failure is kept and every pending command rejected with the present one, oldest first |
| ControlLine.ChunksDoNotMatter | ts-client/src/index.ts:207-218 | for every way of cutting the received text, lines and buffer are those of the whole text |
| ControlLine.ChunkedClientIsWholeClient | ts-client/src/index.ts:207-218 | receiving chunk by chunk leaves the client, with its pending and resolved commands, as receiving the whole text at once |
| ControlLine.ServeConnection | crates/partly-proxy-lib/src/control_plane.rs:94-117 | the connection loop writes one reply line for each non-blank line, in order, up to the line before which it notices the shutdown or fails to read, and as much as the writer takes before it fails |
| ControlLine.StoppingWithholdsReplies | crates/partly-proxy-lib/src/control_plane.rs:95-104 | stopping early withholds replies and changes none that were written |
| ControlLine.OneReplyPerCommand | crates/partly-proxy-lib/src/control_plane.rs:105-117 | commands written by the client are answered one line each, the k-th line with the answer to the k-th text as it was encoded, if that has no white space around it |
| ControlLine.RepliesStayAligned | ts-client/src/index.ts:173-218 | in every run: pending are the written commands beyond the reply lines received, and the k-th line is the k-th command's own answer, handed to it |
| ControlLine.EachGetsItsOwnAnswer | ts-client/src/index.ts:197-201 | a caller that gets a reply gets the answer to its own text, as it was encoded, whatever timed out before |
| ControlLine.OnlyLastStillWaits | ts-client/src/index.ts:161-171 | only the last written command can have a waiting caller; an earlier pending one has timed out |
| ControlLine.FateIsFinal | ts-client/src/index.ts:187-204 | what a caller was told never changes: a late reply is absorbed and told to nobody |
| ControlLine.WireOrderIsCallOrder | ts-client/src/index.ts:161-171 | commands reach the wire one at a time and in call order |
| ControlLine.EveryCommandCanGetThrough | ts-client/src/index.ts:161-218 | whatever commands are called, there is a run in which each is written in order and told its own answer |
| ControlLine.LateReplyIsAbsorbed | ts-client/src/index.ts:187-217 | a command times out, another is called, then both are answered: the first stays timed out, the second gets its own answer, none is pending |

## Left out

* TLS, sockets, hyper and the outbound client: a forward is a step whose outcome is arbitrary, and a request is part of
  its connection's future; stream tasks that HTTP/2 spawns on the executor are not tracked by the source and not modelled.
* serde JSON, base64, SHA-256, regex and the internals of `http::Uri`: an encoder that reads back and writes one
  non-blank line, an arbitrary hash, arbitrary matchers, and the four target forms of section 3.2 of RFC 9112. Non-ASCII
  white space is not treated as white space.
* `TrafficFilter::matches` and `RequestMatcher::matches` are pure predicates that the theorems quantify over.
* `wire.rs`, `config.rs`, `proxy_io.rs`, `context.rs`, `hash.rs`, `error.rs`: lowering field by field.
* `resolve_upstream`, `dispatch` and the scoping of stub, clear and pause commands: lookups by name.
* Other storage media (SQLite, object store): only the order of appends and the outcome of each is used.
* Middleware that overwrites the source marker in the request context: layers read the marker but do not set it.
* Stub delays, the labels, time stamp and duration of an exchange, and the HTTP version of messages.
* Wall-clock accuracy: the clock of the assertion engine is monotone and otherwise free, and the bound of a second over
  the timeout that the documentation of shutdown gives is not stated.
* Teardown joins listeners by name in the source, in the order of start in the model; all are joined either way.
* Bring-up and shutdown sequences take the outcomes of loads, binds, joins and the flush as inputs.
* A failing append that leaves part of a line behind: an append either happens or does not. What a torn tail does to the
  next append is `Jsonl.TornTextSwallowsAppend`.
* Client commands still queued when the socket fails: the source gives no guarantee for them. The link between client and
  server is modelled until the connection fails; any written command may time out, also one sent without a timeout.
* The accept loop of the control plane.
- Uris.PrintedUriKeepsTarget: speaks of targets that have a path wherever their form has one, of ASCII characters and
  without a fragment. An absolute form with a query and no path may print with a path that its live key lacks; what the
  URI library does there is not part of this model.
- Listener.StepsRefineHandler: begins behind the pause gate, which `PauseGate.dfy` models by itself.
