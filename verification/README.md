# Verification model of the MiniCPM inference server

A Dafny model of the stateful core of the server: the scheduler worker, the streaming text
pipeline, the native session and batch machinery with its paged key/value cache, FP8 rounding,
the weight package and the session arena. `dafny verify dfyconfig.toml` checks everything.

## What is modelled

**Scheduler** (`Scheduler*`, `EngineModel`, `CallGrammar`, `Reference`, `Admission`). `Scheduler.Worker` is the
worker thread: idle pool, active set, job queue, batch group, and the loop that admits, sorts,
holds, steps, falls back, retires and shuts down. Every place where the program depends on
something outside — arrivals, cancel flags, room in a channel, a dropped receiver, an engine call
failing — is a free choice, so what is proved holds for every run; a cancel flag may be raised at any
moment and stays raised, and the engine counts what it refused, so that a contract can say that a stream
was cancelled or a batch broken up only for that reason. The engine is a contract:
a session is a position in the greedy token stream of its prompt; its preconditions are the
protocol checks of the native calls, so that the worker verifies means that none of those checks
can fire. `World` collects the worker's fields, the engine and a log per job; `Ok` says that no
session and no job is lost, that at most `max_sessions` sessions exist, that a stream holds a slot
exactly if it is that slot's member, that delivered and withheld tokens are the first
`generated` decisions, that only greedy streams hold a slot or have tried to, that only jobs whose
client raised the flag count as cancelled, and that the resets in all session traces are those the job
records count. Every method keeps it; `SchedulerTurns` follows the order of the line and of the batch through a
quantum; `SchedulerResults` draws the conclusions. `CallGrammar` states the calls one
session sees as a grammar of whole jobs, each with an opening and a closing reset of its own.
`Admission` is the waiting counter as a state machine over the atomic steps of all threads.

**Text** (`Strings`, `Utf8`, `Utf8Laws`, `StreamDecode`, `StopStrings`, `ToolCall*`, `Events`, `Generation`,
`Serving`). Text is a sequence of bytes, one `char` below 256 each. Detokenizer, stop machine, tool-call
parser and `run_generation` are classes proved against transition functions; the results are
statements about those functions for every way of cutting the input. The parser's output is
compared after `finish`, with text and parameter chunks joined. What the functions compute is said apart
from them: `Utf8Laws` defines well-formed text as the encoding of scalar values, `ToolCallMeaning` reads a
text byte by byte into text and call blocks, `ToolCallTags` a tag into words, quotes and escapes. `Serving`
puts the two halves together: what the scheduler sends for a job is what `run_generation` reads.

**Native runtime** (`NativeModel`, `NativeSession`, `NativeBatch`, `NativeRun`, `PagedKv`, `PagedSession`,
`Fusion`). The network is a causal function over the cached positions. Sessions and batch groups are classes
with host and device fields side by side; chunked prefill, eager, replayed and batched decode are shown
to be one transition. `NativeRun` plays any calls on any number of sessions and their group against a
reference in which every session is alone; a batch step can fail at every point, with its rows at one of
three stages. `PagedKv` shows that a paged pool behaves as a flat cache, and `PagedSession` that the
pages hold a session's own cache through prefills and decodes. `Fusion` runs the decode forward in place
over uninterpreted kernels, each fused kernel being its composition.

**Arithmetic and memory** (`Bits`, `E4m3`, `E4m3Rows`, `Wpk*`, `SessionArena`). E4M3 works on bit
patterns with values counted in units of 2^-149; quantized rows are over exact reals first and
then with scale and quotient rounded to 32 bits; a package is the byte sequence the writer streams out.

## Findings

Where the code does not do what one would expect, the code is modelled and the exact condition
proved.

- A CDATA opener right after plain bytes of the same value is literal text or an opener depending
  on how the stream was cut (rust/minicpm-generation/src/tool_call.rs:228-261).
  `ToolCallCuts.CutExact`: the verdict on a text is independent of how it was cut if and only if there
  is no such opener in it; `ToolCallCuts.Apart`: the two values never agree again.
- With stop strings inside one another the cut depends on the fragments
  (rust/minicpm-generation/src/stop.rs:69-81). `StopStrings.FragmentationExact` gives the exact
  condition on the set; infix-free sets meet it.
- In `run_generation` alone an eos token event closes the stop machine, so the final flush is ignored
  and a withheld U+FFFD can be lost (rust/minicpm-server/src/chat.rs:286-291,
  rust/minicpm-generation/src/stop.rs:69-72): `Generation.EosKeepsText` says exactly when,
  `Generation.EosLosesTail` runs a case. The scheduler never sends an eos token
  (`Serving.NoEosEvent`), so behind it nothing is lost: `Serving.Serve`.
- The fused head is switched on independently of the fused layers (native/runtime/forward.cpp:149-155)
  and then reads a buffer the step never wrote: `Fusion.FusionExact`.
- Taken by itself the page count, rounded up in 32 bits, wraps for more than 2^32 - 32 tokens
  (native/runtime/kv_cache.cpp:48): `PagedKv.NeededCovers`. No caller comes near: contexts above 131072
  are refused (native/runtime/model.cpp:97-102).
- A batch step that fails after its decisions were written leaves the rows' devices ahead of their
  hosts (native/runtime/batch_group.cpp:812-827), and the scheduler goes on with solo decodes on such
  sessions. `NativeBatch.Fallback` makes that very sequence of calls: the solo decode hands out the
  right token if and only if the new decision was not written or is the same again.
  `NativeBatch.StageOutcome` says for each stage exactly when the row is still where it was — which is
  what the scheduler's engine contract assumes of a failed step — and `NativeBatch.LateFailureSkips`
  is a network on which every such failure hands out a wrong token.
- A row's largest weight can have a float quotient above 448, because the scale may be rounded down
  (tools/minicpm_common.py:204-212): `E4m3Rows.RowQuantization` says exactly when and that it stays
  within one float, so that nothing is lost; `E4m3Rows.QuotientPasses448` is such a row.
- With `max_new_tokens` 0 the scheduler still emits one token (`Reference.Limit`), while the native
  decode refuses 0 (native/runtime/decode_executor.cpp:447).
- Jobs still queued when the worker stops with a full active set get no event at all
  (rust/minicpm-scheduler/src/lib.rs:575-580). `Scheduler.Worker.Drain`: with room for everybody on
  board and in the queue nobody is left; with a full active set the whole queue is; in between at
  most as many as lacked room. `Scheduler.StrandedBehind` leaves one job over, whatever the jobs, in a
  state that is constructed (`SchedulerWorld.OneBehindCalm`: in order by all invariants);
  `Scheduler.StrandedJob` starts from a new worker, where whether the first job outlives its first round
  is up to the engine and the client.
- The token record holds the new decision of each step, so it is one ahead of the output
  (`NativeModel.RecordIsAhead`); a table entry of the package takes 132 bytes, as the code says
  against its own remark of 128 (tools/minicpm_common.py:67-75).
- A slow consumer delays only itself while tokens are streamed; when its job ends in service, the
  withheld token and the terminal event wait for room (rust/minicpm-scheduler/src/lib.rs:1140-1152):
  in that mode `Scheduler.Worker.Send` never answers `Full`.

## Model

| member | source | states |
|---|---|---|
| `SchedulerResults.ScheduleIndependence` | rust/minicpm-scheduler/src/lib.rs:582-803 | two runs with any arrivals, batching, failures, stalls and holds give the same events to every job that was not cancelled, hung up on or failed |
| `SchedulerResults.UndisturbedIsReference` | rust/minicpm-scheduler/src/lib.rs:1013-1090 | a settled, undisturbed job has delivered exactly its sequential reference stream: tokens before the first eos within the limit and Done(Stop), or the first max tokens and Done(Length), with correct usage; it cost exactly two resets |
| `SchedulerResults.LivePrefix` | rust/minicpm-scheduler/src/lib.rs:1013-1090 | at every moment delivered tokens and the withheld one are together as many as `generated` and a prefix of the reference stream |
| `SchedulerResults.SettledPrefix` | rust/minicpm-scheduler/src/lib.rs:1106-1265 | whatever befalls a job, the tokens its client saw are a prefix of the reference and at most one other event came, last |
| `SchedulerResults.CallOrder` | rust/minicpm-scheduler/src/lib.rs:498-514 | each call follows one of the few calls it may follow: prefill only right after a successful reset, decode and join only after prefill, decode, a refused join or a leave, step and leave only inside a group |
| `CallGrammar.WholeTrace` | rust/minicpm-scheduler/src/lib.rs:502-509 | a session stands between jobs exactly if its trace is a sequence of whole jobs: opening reset, prefill, decodes and group stays in any order, closing reset, with the early exits after a failed reset, prefill or decode |
| `CallGrammar.TraceInOrder` | rust/minicpm-scheduler/src/lib.rs:502-509 | the traces in order are exactly the beginnings of such sequences |
| `CallGrammar.JobHasTwoResets` | rust/minicpm-scheduler/src/lib.rs:507-509 | every whole job has exactly two resets |
| `SchedulerResults.SessionTraces` | rust/minicpm-scheduler/src/lib.rs:502-514 | every session of a running worker has such a trace, an idle one a complete one |
| `SchedulerResults.ResetsAccounted` | rust/minicpm-scheduler/src/lib.rs:507-511 | at every moment the resets in all traces are exactly those the jobs' records count |
| `SchedulerResults.TwoResetsEach` | rust/minicpm-scheduler/src/lib.rs:507-511 | with nobody on board the sessions have seen two resets for each job that ever held one, and no others |
| `SchedulerResults.MembersOnlyStep` | rust/minicpm-scheduler/src/lib.rs:510-514 | between joining the group and leaving it a session sees nothing but batch steps |
| `SchedulerResults.RoomMeansProgress` | rust/minicpm-scheduler/src/lib.rs:582-797 | a stream whose channel has room is settled within as many quanta as its rank: two per token to come, one for a withheld token, one for the unused hold |
| `SchedulerResults.ReferenceReaches` | rust/minicpm-scheduler/src/lib.rs:1059-1090 | as long as no eos was decided, the reference emits at least the tokens counted so far |
| `Reference.SequentialMeaning` | rust/minicpm-scheduler/src/lib.rs:1010-1012 | the sequential reference: tokens before the first eos below the limit and Stop, otherwise exactly the limit (at least one token) and Length |
| `Reference.SequentialStops` | rust/minicpm-scheduler/src/lib.rs:1060-1063 | an eos below the limit ends the reference there |
| `Reference.SequentialRunsOut` | rust/minicpm-scheduler/src/lib.rs:1085-1089 | without one the limit ends it |
| `Scheduler.Worker.WorkerLoop` | rust/minicpm-scheduler/src/lib.rs:519-813 | any jobs arriving before any round, `closing` raised at any time, then the senders gone: nobody on board, no group, every session idle between two jobs, every job settled or still queued without any event |
| `Scheduler.Worker.Round` | rust/minicpm-scheduler/src/lib.rs:538-581 | one loop iteration: at most one job is taken, before the quantum, and then has its first token, waits for company or is settled in the same round; every stream on board is served; it exits exactly if nobody is on board and no job is there, if the senders are gone with room left, or if it is full and closing, and then every stream on board was told of the shutdown |
| `Scheduler.Worker.Drain` | rust/minicpm-scheduler/src/lib.rs:569-580 | once all senders are gone the worker exits within one round per queued job plus one, every session ever made idle; what is left in the queue is its tail, silent: nothing if there was room for everybody, everything if the active set was full, never more than room was lacking |
| `Scheduler.StrandedJob` | rust/minicpm-scheduler/src/lib.rs:575-580 | from a new worker for one session, two jobs and the shutdown after the first round: in every run in which the first job is still on board then, the second stays queued and gets no event |
| `Scheduler.StrandedBehind` | rust/minicpm-scheduler/src/lib.rs:575-580 | put into the state of a full worker with one job behind, whatever the two jobs are, the worker leaves that job queued and silent once its senders are gone |
| `SchedulerWorld.OneBehindCalm` | rust/minicpm-scheduler/src/lib.rs:498-514 | the invariants allow a full active set with a job queued behind it, whatever the two jobs are |
| `Scheduler.Worker.LastRounds` | rust/minicpm-scheduler/src/lib.rs:538-581 | how many rounds a closing worker makes and which jobs it leaves in the queue |
| `Scheduler.Worker.Quantum` | rust/minicpm-scheduler/src/lib.rs:582-803 | in one quantum every stream on board gets one more token, waits for room in its channel, or is settled; only a stream that is alone ready for the batch may wait instead, once; the line afterwards is that of the moves: solo streams in line order, then the batch; flags raised before are heeded, settled records do not change; two or more ready streams share exactly one batch step unless the engine refused something or one was cancelled, fewer never do; a sampled stream holds no slot and its session has seen no batch step or join since its job began; an empty group is dropped |
| `Scheduler.Worker.BatchSegment` | rust/minicpm-scheduler/src/lib.rs:648-797 | the batch after the solo streams: cancelled streams out, two or more of the rest step together or fall back, one alone steps solo, all in order |
| `SchedulerTurns.InOrder` | rust/minicpm-scheduler/src/lib.rs:583-645 | after the two segments of a quantum whoever is still on board stands in the order of the moves, and only the stream that waits has used its hold |
| `SchedulerTurns.AllHeeded` | rust/minicpm-scheduler/src/lib.rs:648-666 | every flag raised before the quantum has led to a cancelled record with the tokens generated so far, except for the one stream that waits for company |
| `SchedulerTurns.PickedMeaning` | rust/minicpm-scheduler/src/lib.rs:583-606 | who is picked for the batch is greedy with nothing withheld, at most as many as there is room for, and with room left everybody ready is picked |
| `SchedulerResults.SampledStream` | rust/minicpm-scheduler/src/lib.rs:589-594 | the session of a sampled stream has seen no batch step and no try at joining since the reset that opened its job: it moves by solo decodes alone |
| `SchedulerWorld.MovedRank` | rust/minicpm-scheduler/src/lib.rs:1013-1090 | a move brings a stream nearer its end unless it waits for room |
| `Scheduler.Worker.DropEmptyGroup` | rust/minicpm-scheduler/src/lib.rs:799-803 | the group is destroyed exactly if no active stream holds a slot |
| `Scheduler.Worker.Sort` | rust/minicpm-scheduler/src/lib.rs:583-606 | the batch is the first greedy streams with nothing withheld, in line order, as many as there are slots, and only if batching is on and supported; all others go solo in line order and are out of the group; who is ready goes solo only if the batch is full |
| `Scheduler.Worker.HoldLone` | rust/minicpm-scheduler/src/lib.rs:618-628 | exactly: a stream alone in its batch stays in line with its hold used up if it was never held, otherwise it goes solo last and out of the group; a larger or empty batch is left as it is |
| `Scheduler.Worker.DropCancelled` | rust/minicpm-scheduler/src/lib.rs:648-666 | whoever has the flag raised before is out and recorded as cancelled with what it had; the others stay in order; with no flag raised the batch is unchanged |
| `Scheduler.Worker.AddMissing` | rust/minicpm-scheduler/src/lib.rs:685-701 | streams without a slot are added in order; a free slot always exists; stops at the first refusal, and only at one |
| `Scheduler.Worker.StepTogether` | rust/minicpm-scheduler/src/lib.rs:703-715 | one engine step whose slots are the batch's, pairwise different, and exactly the group's members, all greedy; on success each stream's token is its own next decision, on failure nobody moved |
| `Scheduler.Worker.FeedAll` | rust/minicpm-scheduler/src/lib.rs:738-760 | after a batch step every stream is fed its own token and kept or retired, in batch order |
| `Scheduler.Worker.MakeGroup` | rust/minicpm-scheduler/src/lib.rs:673-683 | the group is made once, with min(max_sessions, 8) slots; a failure leaves everything as it was and is the only reason to have none |
| `Scheduler.Worker.AddToGroup` | rust/minicpm-scheduler/src/lib.rs:687-700 | one more member, if the group takes it; the stream itself does not change |
| `Scheduler.Worker.StepBatch` | rust/minicpm-scheduler/src/lib.rs:668-797 | the batch segment for greedy streams: group made on demand, members added, one step; if and only if the engine refused one of these, every stream steps solo in the same quantum, in order, and comes out of it without a slot |
| `Scheduler.Worker.AdvanceAll` | rust/minicpm-scheduler/src/lib.rs:632-645 | streams step one after the other and stand in line in that order, none lost; whoever's flag was raised before is recorded as cancelled |
| `Scheduler.Worker.Step` | rust/minicpm-scheduler/src/lib.rs:1013-1048 | one solo step: with the flag raised the stream is cancelled as it is and the engine is not called; otherwise the withheld token, then a decode: the stream has one more token, waits for its channel unchanged, or ends with a finish that fits its record, as failed only after a failed decode |
| `Scheduler.Worker.FeedToken` | rust/minicpm-scheduler/src/lib.rs:1059-1090 | a decided token is an eos (Stop, not emitted or counted), or counted and sent, withheld, or ends the stream |
| `Scheduler.Worker.Retire` | rust/minicpm-scheduler/src/lib.rs:1106-1265 | out of the group, withheld token, terminal event, second reset, session back to the pool; the record is complete |
| `Scheduler.Worker.RestSession` | rust/minicpm-scheduler/src/lib.rs:1258-1260 | the second reset of a job, then the session is in the pool |
| `Scheduler.Worker.Settle` | rust/minicpm-scheduler/src/lib.rs:633-644 | a stream that made its move is either last in line or retired |
| `Scheduler.Worker.TellEnd` | rust/minicpm-scheduler/src/lib.rs:1140-1230 | the withheld token is flushed before the terminal event, waiting for room only in service |
| `Scheduler.Worker.Send` | rust/minicpm-scheduler/src/lib.rs:1140-1230 | in service a send waits for room and fails only if the receiver is gone; at shutdown it may find the channel full |
| `Scheduler.Worker.ReturnSession` | rust/minicpm-scheduler/src/lib.rs:871-880 | the capacity guard never drops a session |
| `Scheduler.Worker.Demote` | rust/minicpm-scheduler/src/lib.rs:818-824 | leaving the group frees exactly that slot and changes nothing else about the stream |
| `Scheduler.Worker.Intake` | rust/minicpm-scheduler/src/lib.rs:887-996 | takes the head of the queue: too late, it is failed without any engine call; otherwise it is on board at the end of the line with nothing generated, withheld or held, or failed because no session could be made while none was idle, or because its reset or prefill failed; nothing stays in hand |
| `Scheduler.Worker.TakeSession` | rust/minicpm-scheduler/src/lib.rs:927-944 | a session comes from the pool if it has one; otherwise it is new, and there is none only if the engine refused |
| `Scheduler.Worker.FailIntake` | rust/minicpm-scheduler/src/lib.rs:851-867 | a job that cannot start ends with nothing generated and `Failed` as its one event unless its receiver is gone; its session, if any, has a failed call behind it, is reset again and returned |
| `Scheduler.Worker.Start` | rust/minicpm-scheduler/src/lib.rs:946-991 | reset, prefill, on board; a failure of either settles the job |
| `Scheduler.Worker.Board` | rust/minicpm-scheduler/src/lib.rs:978-991 | the job starts with nothing generated, withheld or held, last in line |
| `Scheduler.Worker.ShutdownActive` | rust/minicpm-scheduler/src/lib.rs:829-846 | every stream on board is ended without waiting, as failed by the shutdown with what it had generated, and every session returned |
| `Scheduler.Worker.TrySend` | rust/minicpm-scheduler/src/lib.rs:1073-1083 | a non-blocking send is delivered, refused for lack of room, or finds the receiver gone for good |
| `Scheduler.Worker.Submit` | rust/minicpm-scheduler/src/lib.rs:298-320 | a submitted job is queued last and nothing else changes |
| `SchedulerMoves.ClosingOk` | rust/minicpm-scheduler/src/lib.rs:1140-1230 | for every finish, what flush and terminal event leave on the channel is a complete record |
| `SchedulerBatch.FreeSlot` | rust/minicpm-scheduler/src/lib.rs:685-701 | if a stream of the batch has no slot, the group has a free one |
| `SchedulerBatch.MemberInBatch` | rust/minicpm-scheduler/src/lib.rs:583-606 | every member of the group is in the batch when a step is due |
| `SchedulerBatch.SlotsFit` | rust/minicpm-scheduler/src/lib.rs:702-703 | the slots of a batch are pairwise different, occupied by its streams, and no member is left out |
| `SchedulerBatch.BatchStepOk` | rust/minicpm-scheduler/src/lib.rs:703-715 | a batch step moves its members by one token as a solo decode would and leaves all others alone |
| `SchedulerWorld.KeptOk` | rust/minicpm-scheduler/src/lib.rs:498-514 | a move of one stream that keeps it on board keeps the worker's invariants |
| `SchedulerWorld.SettledOk` | rust/minicpm-scheduler/src/lib.rs:1258-1260 | returning a session and settling its job keeps the invariants |
| `SchedulerWorld.JoinedOk` | rust/minicpm-scheduler/src/lib.rs:978-991 | so does taking a session and a job in hand on board |
| `SchedulerWorld.DequeuedOk` | rust/minicpm-scheduler/src/lib.rs:896-910 | so does taking the head off the queue |
| `SchedulerWorld.CreatedOk` | rust/minicpm-scheduler/src/lib.rs:928-944 | so does creating a session while there is room |
| `SchedulerQuantum.UnderwayKept` | rust/minicpm-scheduler/src/lib.rs:632-645 | a stream that moved is served and not served again in the same quantum |
| `SchedulerQuantum.UnderwayGone` | rust/minicpm-scheduler/src/lib.rs:632-645 | a settled stream is no longer on board |
| `EngineModel.Engine.StepGroup` | native/runtime/batch_group.cpp:614-859 | the engine contract for a batch step: exactly the members, with greedy configurations only, each handed its next decision and advanced by one; a failed step leaves them where they were |
| `EngineModel.Engine.AddMember` | native/runtime/batch_group.cpp:503-570 | joining takes the lowest free slot |
| `EngineModel.Engine.RemoveMember` | native/runtime/batch_group.cpp:572-612 | leaving an occupied slot frees it |
| `EngineModel.Engine.DecodeOne` | native/runtime/decode_executor.cpp:431-551 | a solo decode hands out the decision at the session's position |
| `EngineModel.Engine.ResetSession` | native/runtime/session.cpp:510-544 | a reset opens a job on an idle session and closes it on one that ran or failed; it takes the session back to the start and is not allowed in the group |
| `EngineModel.Engine.PrefillSession` | native/runtime/prefill_executor.cpp:55-180 | a prefill fixes the stream the session decodes |
| `Admission.CounterIsExact` | rust/minicpm-scheduler/src/lib.rs:219-320 | in every interleaving the counter is queued jobs + admitted submitters that have not sent + a job received and not counted down; never negative; above the limit only by the unchecked increments |
| `Admission.TryStaysWithinLimit` | rust/minicpm-scheduler/src/lib.rs:254-282 | with `try_generate` alone the counter never exceeds the limit |
| `Admission.TurnedAwayWhenFull` | rust/minicpm-scheduler/src/lib.rs:264-282 | a submission is turned away only if the counter stood at the limit when it was read |
| `Admission.StepKeepsBalance` | rust/minicpm-scheduler/src/lib.rs:264-320 | each atomic step of any thread keeps the balance, the count-down included |
| `Admission.SentOrTurnedAway` | rust/minicpm-scheduler/src/lib.rs:219-320 | a submission under way ends only by sending its job or, with `try_generate`, by being turned away: the infallible one always sends |
| `Admission.NeverStuck` | rust/minicpm-scheduler/src/lib.rs:264-282 | whatever the other threads do, a submitter inside has exactly one step it can make |
| `ToolCallCuts.CutExact` | rust/minicpm-generation/src/tool_call.rs:94-290 | the verdict on a text is the same for every way of cutting that text if and only if no CDATA opener directly follows plain bytes of the same segment |
| `ToolCallCuts.CutInsideOpener` | rust/minicpm-generation/src/tool_call.rs:226-262 | otherwise the text cut inside that opener gets another verdict than uncut, whatever follows |
| `ToolCallCuts.Apart` | rust/minicpm-generation/src/tool_call.rs:226-330 | from a misplaced opener on, the value read raw and the value read in a CDATA section never agree again |
| `ToolCallCuts.ReadsOut` | rust/minicpm-generation/src/tool_call.rs:226-330 | what the parser makes of the rest of a parameter is what its bytes read as, one by one |
| `ToolCallMeaning.ParsedIsMeaning` | rust/minicpm-generation/src/tool_call.rs:94-330 | for every cutting under that condition, `finish` included, the parser says what the text means read byte by byte: every byte outside call blocks as text, none lost, and each block, closed or cut off, as one call with its parameters in order |
| `ToolCallMeaning.TextIsKept` | rust/minicpm-generation/src/tool_call.rs:105-127 | a text without a complete call tag comes out byte for byte and makes no call, however it is cut, half tags at its end included |
| `ToolCallMeaning.FinalMeans` | rust/minicpm-generation/src/tool_call.rs:139-330 | from any state, running what is buffered and finishing says what the buffer means |
| `ToolCallMeaning.NothingWaits` | rust/minicpm-generation/src/tool_call.rs:148-290 | after a push the parser sits on nothing but half a tag, half a literal, or the last bytes of a CDATA section up to a character boundary |
| `ToolCallTags.AnyTagRead` | rust/minicpm-generation/src/tool_call.rs:337-369 | the first name attribute of a complete tag counts, in double or single quotes, whatever other attributes surround it; any name without white space, escaped, is read back as it was; a tag without one is not an opener |
| `ToolCallTags.DecodeUndoes` | rust/minicpm-generation/src/tool_call.rs:366-369 | unescaping undoes escaping of `&`, `<`, `>` and the double quote for every text |
| `ToolCallTags.SpaceIsWhite` | rust/minicpm-generation/src/tool_call.rs:344-345 | words are separated exactly at characters with the property White_Space |
| `ToolCallExact.FragmentationExact` | rust/minicpm-generation/src/tool_call.rs:94-290 | the finished parser (text, calls, parameter values) is a function of every text received on the way, for every cutting, under the same condition |
| `ToolCallExact.FragmentationIndependence` | rust/minicpm-generation/src/tool_call.rs:94-126 | any cutting of a text whose openers stand at segment starts gives the verdict of one push |
| `ToolCallExact.FragmentationDependence` | rust/minicpm-generation/src/tool_call.rs:226-262 | otherwise already the text up to the opener has two cuttings with different verdicts |
| `ToolCallExact.SplitSeesOpener` | rust/minicpm-generation/src/tool_call.rs:226-262 | split inside such an opener, it opens a CDATA section |
| `ToolCallExact.WholeSeesText` | rust/minicpm-generation/src/tool_call.rs:226-262 | unsplit, it is plain parameter text |
| `ToolCallFragments.OnePass` | rust/minicpm-generation/src/tool_call.rs:139-146 | stopping after a pass to wait for more input changes nothing a client can tell |
| `ToolCallFragments.StepStable` | rust/minicpm-generation/src/tool_call.rs:139-290 | a pass that makes progress does the same whatever follows |
| `ToolCallRoundTrip.PrintThenParse` | models/minicpm5-2b/chat_template.jinja:68-83 | texts and calls printed as the template prints them parse back to the same texts, names and ordered parameters, however the text is cut |
| `ToolCallRoundTrip.TagRead` | rust/minicpm-generation/src/tool_call.rs:340-369 | a printed tag is read as the name it was printed from |
| `ToolCallRoundTrip.ReadsParams` | rust/minicpm-generation/src/tool_call.rs:226-290 | a printed parameter list is read back in order, values raw or out of CDATA |
| `ToolCallParser.ToolCallParser.Push` | rust/minicpm-generation/src/tool_call.rs:94-103 | feeding a fragment makes passes until none makes progress |
| `ToolCallParser.ToolCallParser.Finish` | rust/minicpm-generation/src/tool_call.rs:107-127 | flushes what is held back and closes what is open, as the transition function does; that nothing is lost is `ToolCallMeaning.ParsedIsMeaning` |
| `ToolCallParser.ToolCallParser.StepInText` | rust/minicpm-generation/src/tool_call.rs:148-186 | a pass outside a call is the transition function's |
| `ToolCallParser.ToolCallParser.StepInFunction` | rust/minicpm-generation/src/tool_call.rs:188-224 | likewise inside a call |
| `ToolCallParser.ToolCallParser.StepInParam` | rust/minicpm-generation/src/tool_call.rs:226-265 | likewise inside a parameter |
| `ToolCallParser.ToolCallParser.StepInCdata` | rust/minicpm-generation/src/tool_call.rs:267-290 | likewise inside a CDATA section |
| `StopStrings.FragmentationExact` | rust/minicpm-generation/src/stop.rs:69-128 | the final cut is the first stop string of the whole text for every fragmentation if and only if no proper prefix of a stop string holds another at a later offset; the same with stop strings and fragments that are whole UTF-8 strings |
| `StopStrings.InfixFreeIsSteady` | rust/minicpm-generation/src/stop.rs:69-95 | an infix-free set of stop strings has that property |
| `StopStrings.NothingLeaks` | rust/minicpm-generation/src/stop.rs:101-128 | what may be shown only grows and never exceeds the final cut, for fragments that start on a character boundary |
| `StopStrings.RescanChangesNothing` | rust/minicpm-generation/src/stop.rs:116-128 | the rescan of `finish` never changes the outcome |
| `StopStrings.UnsteadyCut` | rust/minicpm-generation/src/stop.rs:69-81 | nested stop strings: a cutting that differs from the whole text |
| `StopStrings.CutThere` | rust/minicpm-generation/src/stop.rs:69-81 | the cut can be made where the nested stop string ends, between two whole UTF-8 strings |
| `StopStrings.StopState.Push` | rust/minicpm-generation/src/stop.rs:69-81 | the search starts early enough to see every new match |
| `StopStrings.StopState.FindMatch` | rust/minicpm-generation/src/stop.rs:83-95 | the earliest occurrence of any stop string from an offset on |
| `StopStrings.StopState.SafeLength` | rust/minicpm-generation/src/stop.rs:101-111 | up to the match once there is one; before, the last character boundary at which too few bytes are left for a whole stop string, and no later boundary is safe |
| `StopStrings.LittleHeldBack` | rust/minicpm-generation/src/stop.rs:101-111 | within well-formed text less than the longest stop string plus three bytes is held back, and nothing without stop strings |
| `StopStrings.StopState.FinishText` | rust/minicpm-generation/src/stop.rs:116-128 | everything, or everything before the match |
| `StopStrings.StopState.CheckToken` | rust/minicpm-generation/src/stop.rs:56-65 | reports and records stop tokens, and keeps reporting once stopped |
| `StopStrings.FirstMatch` | rust/minicpm-generation/src/stop.rs:83-95 | the least offset at or after `from` where any stop string occurs, and none if there is none |
| `StreamDecode.StreamedIsDecoded` | rust/minicpm-generation/src/stream_decode.rs:36-75 | the deltas and the final flush concatenate to the lossy decoding of all bytes, however they are split into tokens |
| `StreamDecode.StreamedSoFar` | rust/minicpm-generation/src/stream_decode.rs:55-75 | before the flush, what was streamed is a prefix of every continuation and at most one U+FFFD is held back |
| `StreamDecode.StreamDecoder.PushToken` | rust/minicpm-generation/src/stream_decode.rs:36-41 | a token's delta is the newly settled text |
| `StreamDecode.StreamDecoder.FinishText` | rust/minicpm-generation/src/stream_decode.rs:44-48 | the flush releases what was held back |
| `Utf8.DecodeContinues` | rust/minicpm-generation/src/stream_decode.rs:90-95 | decoding more bytes only continues the settled part |
| `Utf8.DecodeSplit` | rust/minicpm-generation/src/stream_decode.rs:90-95 | an unfinished sequence at the end decodes to a single U+FFFD |
| `Utf8.FirstChunk` | rust/minicpm-generation/src/stream_decode.rs:90-95 | one well-formed sequence or one maximal ill-formed subpart at the head (section 3.9 of the Unicode Standard); only an unfinished tail is open |
| `Utf8Laws.DecodeValid` | rust/minicpm-generation/src/stream_decode.rs:90-95 | well-formed text, the encoding of scalar values, decodes to itself, whatever follows |
| `Utf8Laws.DecodeReplaces` | rust/minicpm-generation/src/stream_decode.rs:90-95 | a maximal ill-formed subpart after well-formed text becomes one U+FFFD, and decoding goes on behind it |
| `Utf8Laws.HeadOrSubpart` | rust/minicpm-generation/src/stream_decode.rs:90-95 | at the head of any bytes stands a character or a maximal ill-formed subpart, so the two laws decide every decoding |
| `Utf8Laws.DecodeIsValid` | rust/minicpm-generation/src/stream_decode.rs:90-95 | decoded text is well-formed |
| `Generation.RunGeneration` | rust/minicpm-server/src/chat.rs:284-392 | the whole outcome from the inputs: the loop ends behind the first token after which the decode call fails, the client refuses a chunk or a stop string is complete, or takes them all; an error exactly for a failure event reached or a broken decode call, the flush's included; the reason and the number of tokens accordingly; the text shown is the decoded text cut at the stop string, each byte once and in order (after an eos token: what was streamed before it; after an error or a lost client: what was safe), in exactly the chunks sent; whatever happens, a prefix of the client's text |
| `Generation.OutcomeMeans` | rust/minicpm-server/src/chat.rs:365-392 | for the client: the text is what the chunks add up to and the start of the undisturbed text; the reason is Error exactly for an error, unless the stream's own last event says so |
| `Generation.Undisturbed` | rust/minicpm-server/src/chat.rs:284-392 | with a live client, no failing call and no failure event the outcome is that of the whole stream, with every token counted unless a stop string ended it |
| `Generation.ShownSoon` | rust/minicpm-server/src/chat.rs:300-317 | while nothing matched, the client has seen all of well-formed text but less than the longest stop string plus three bytes |
| `Generation.Consume` | rust/minicpm-server/src/chat.rs:284-333 | the event loop: which event ended it and behind how many tokens, and that decoder, stop machine and chunks are those of the tokens taken |
| `Generation.Pipeline.TakeToken` | rust/minicpm-server/src/chat.rs:293-322 | one content token: decoded, matched against stop strings, and what became safe is forwarded |
| `Generation.Pipeline.Flush` | rust/minicpm-server/src/chat.rs:335-358 | the final flush, ignored by a stop machine that an eos token closed |
| `Generation.EosKeepsText` | rust/minicpm-server/src/chat.rs:286-291 | after an eos token event the final flush is ignored: the client sees its whole text if and only if the decoded text does not end in U+FFFD, or a stop string occurs before that character, or the first one starts right at it |
| `Generation.EosLosesTail` | rust/minicpm-server/src/chat.rs:286-291 | `run_generation` on one ill-formed byte and an eos token shows nothing, where the text is U+FFFD |
| `Serving.NoEosEvent` | rust/minicpm-scheduler/src/lib.rs:1059-1063 | whatever befell a job, its channel never carries an eos token |
| `Serving.StreamTaken` | rust/minicpm-server/src/chat.rs:284-333 | `run_generation` takes exactly the tokens of an undisturbed job's reference, and its terminal event |
| `Serving.Serve` | rust/minicpm-server/src/chat.rs:284-392 | so the client of an undisturbed job sees the decoding of its sequential reference up to the stop string, with nothing lost, the right reason and, unless a stop string ended it, the token count of the usage the scheduler sent |
| `StreamDecode.HeldBack` | rust/minicpm-generation/src/stream_decode.rs:55-75 | something is held back exactly while the text ends in U+FFFD, and then just that character |
| `Generation.TokenizationIndependence` | rust/minicpm-server/src/chat.rs:284-358 | text and tool calls depend only on the bytes generated, not on their tokens or on the chunks |
| `Generation.ShownIsPrefix` | rust/minicpm-server/src/chat.rs:300-317 | what is shown after part of the stream is part of what is shown in the end |
| `Generation.MatchedStays` | rust/minicpm-server/src/chat.rs:318-321 | after a stop string matched, the rest of the stream changes nothing |
| `NativeModel.HandedOutIsReference` | native/runtime/decode_executor.cpp:431-551 | after a prompt, the k-th token handed out is the decision after the prompt and the k tokens before it |
| `NativeModel.RecordIsAhead` | native/runtime/decode_executor.cpp:240-242 | the token record is one decision ahead: it holds the new decision of each step and never the first one |
| `NativeModel.AdvanceRepresents` | native/runtime/decode_executor.cpp:153-158 | the device part of a decode step keeps cache, decision and record those of the consumed tokens |
| `NativeModel.ExtendIsKv` | native/runtime/prefill_executor.cpp:101-110 | extending a prefix's cache by tokens is the cache of the longer prefix |
| `NativeModel.ExtendSplits` | native/runtime/prefill_executor.cpp:101-110 | two chunks write the cache one forward over both would |
| `NativeSession.Session.Prefill` | native/runtime/prefill_executor.cpp:55-180 | exactly which prompts are refused; on success host, mirror and device agree, the device holds the longer sequence, and the record holds the prompt's ids at its positions and is otherwise as before |
| `NativeSession.Session.PrefillChunks` | native/runtime/prefill_executor.cpp:112-147 | however the prompt is cut into chunks, cache and decision are those of one forward |
| `NativeSession.Session.DecodeOne` | native/runtime/decode_executor.cpp:431-551 | exactly when a decode is refused or answers the sentinel; otherwise the pending decision is handed out, and on a session in order that is one transition and the network's decision, whether eager or replayed |
| `NativeSession.Session.Forward` | native/runtime/forward.cpp:183-409 | a forward writes the cache from the device's own position on and leaves the decision after the last token |
| `NativeSession.Session.DeviceStep` | native/runtime/decode_executor.cpp:153-158 | forward, decision, record and count, all on the device |
| `NativeSession.Session.EagerStep` | native/runtime/decode_executor.cpp:217-289 | the eager order of copies makes that transition |
| `NativeSession.Session.GraphStep` | native/runtime/decode_executor.cpp:163-209 | so does the replayed graph |
| `NativeSession.Session.Reset` | native/runtime/session.cpp:510-540 | a reset makes the session as good as new even after a call that failed half way, unless its synchronisation fails |
| `NativeSession.NextInVocab` | native/runtime/decode_executor.cpp:256-260 | the range check on a handed-out token never fires |
| `NativeBatch.BatchGroup.Add` | native/runtime/batch_group.cpp:503-570 | refused exactly for a session of another model, a busy session or a full group; otherwise the lowest free slot |
| `NativeBatch.BatchGroup.Remove` | native/runtime/batch_group.cpp:572-612 | refused exactly for an empty slot; otherwise the slot is free and nothing but the session's busy mark changed, also for a member left out of order |
| `NativeBatch.BatchGroup.Step` | native/runtime/batch_group.cpp:614-859 | each named session makes the solo transition and is handed its own token, the others are not touched; refusals and failures before the launch change nothing; a failure after it leaves the host side as it was and all rows at one device stage, a row in order exactly if its decision was not written, or is the same again and not counted |
| `NativeBatch.BatchGroup.CheckStep` | native/runtime/batch_group.cpp:634-684 | the answer is that of the first wrong entry: no member or a repeated slot is an invalid argument, a sampled configuration is unsupported; with all entries fine, that of the first member that is empty or full; accepted arguments are never refused except for a full context |
| `NativeBatch.Launch` | native/runtime/batch_group.cpp:736-827 | layers, decisions, advance and synchronisation; a failure leaves all rows at the same stage |
| `NativeBatch.StageOutcome` | native/runtime/batch_group.cpp:812-847 | for every stage of a failed step: exactly when the row is still in order, and exactly when the next solo decode hands out the right token |
| `NativeBatch.LateFailureSkips` | native/runtime/batch_group.cpp:821-827 | a network on which every failure with the decision written makes the next solo decode hand out a wrong token |
| `NativeBatch.Fallback` | native/runtime/batch_group.cpp:614-859 | failed step, leave, solo decode: the token is the right one if and only if the new decision was not written or is the same again |
| `NativeRun.MixedRun` | native/include/minicpm_runtime.h:140-203 | any calls in any order on any sessions of a model and their group - prompts and more text in chunks, solo decodes eager or replayed, joins, batch steps over any seats, leaves, resets: all are made unless the device fails in one, and what every session has handed out is what the reference gives it by itself, whoever shared its steps |
| `NativeRun.Play` | native/runtime/batch_group.cpp:503-859 | one call: refused exactly if the reference does not allow it (context, budget, seats), otherwise done as the reference says, unless the device fails; then everything stays intact for a reset |
| `NativeRun.PlayTogether` | native/runtime/batch_group.cpp:614-859 | a batch step over any set of seats hands every row its own next token and nobody else any |
| `NativeRun.PlaySolo` | native/runtime/decode_executor.cpp:431-551 | a solo decode hands out the next token within budget and context, the sentinel past the budget, and leaves all other sessions alone |
| `NativeRun.PlayedStraight` | native/runtime/decode_executor.cpp:431-551 | whatever call is made, every stream stays a beginning of its own sequential reference |
| `PagedSession.PagedPrefill` | native/runtime/prefill_executor.cpp:55-180 | a prompt written position by position through the page table leaves in the pages exactly the cache of the session that prefilled it in chunks |
| `PagedSession.PagedDecode` | native/runtime/decode_executor.cpp:431-551 | a decode that reads all positions back from the pages and writes its own makes the session's decision, and the pages hold the session's cache afterwards |
| `PagedSession.PagedStep` | native/runtime/kv_cache.cpp:47-83 | one token through the pages: out of memory exactly if they do not suffice for one more position, otherwise the new position is stored and the decision is made from the stored cache |
| `PagedKv.PagedKvAllocator.EnsurePagesFor` | native/runtime/kv_cache.cpp:47-83 | out of memory exactly when the pages do not suffice, then without effect; otherwise the pages are owned and, unless the copy fails, synced; the inconsistency error is unreachable |
| `PagedKv.PagedKvAllocator.Write` | native/runtime/kv_cache.h:40-65 | writing an element through page table and offset changes that element of the flat cache and no other |
| `PagedKv.PagedKvAllocator.Read` | native/runtime/kv_cache.h:40-65 | reading returns the last value written there since the reset |
| `PagedKv.PagedKvAllocator.ReleaseAll` | native/runtime/kv_cache.cpp:85-91 | a reset gives all pages back |
| `PagedKv.PagedKvAllocator.FirstFreePage` | native/runtime/kv_cache.cpp:24-36 | the lowest page not owned |
| `PagedKv.PagedKvAllocator.TryAcquire` | native/runtime/kv_cache.cpp:38-45 | sets exactly the page's bit if it was clear |
| `PagedKv.PagedKvAllocator.AcquireNext` | native/runtime/kv_cache.cpp:56-64 | the lowest free page is always there to take and becomes the next page of the sequence |
| `PagedKv.PagedKvAllocator.CopyTable` | native/runtime/kv_cache.cpp:72-81 | the device table equals the host's list and keeps its synced prefix |
| `PagedKv.OffsetInjective` | native/runtime/kv_cache.h:40-44 | two elements share an offset only if they are the same |
| `PagedKv.OffsetInPool` | native/runtime/kv_cache.h:63-65 | every element lies inside the pool |
| `PagedKv.OffsetOrder` | native/runtime/kv_cache.h:40-44 | offsets grow with layer, page, slot, keys before values, head and dimension, in that order of weight |
| `PagedKv.NeededCovers` | native/runtime/kv_cache.cpp:48-55 | the 32-bit page count covers the tokens exactly if the rounding did not wrap |
| `Fusion.Forward.Run` | native/runtime/forward.cpp:143-461 | the in-place layer loop computes the unfused logits for any kernels unless the head is fused alone, the stated ones then; attention reads the same values in every setting |
| `Fusion.FusionExact` | native/runtime/forward.cpp:143-158 | for vectors of any kind: fusion preserves the logits of every model and input exactly if the head is not fused without the layers |
| `Fusion.Forward.Layer` | native/runtime/forward.cpp:198-373 | one layer, fused or not, up to its down product |
| `Fusion.Forward.Tail` | native/runtime/forward.cpp:383-399 | the add and norm after a layer, or the parts the next product carries |
| `E4m3.EncodeIsNearest` | tools/minicpm_common.py:130-171 | for every finite float the code keeps the sign and is the nearest finite code, ties to even; 0x7F and 0xFF are never produced, not even for infinities and NaN |
| `E4m3.NormalRounds` | tools/minicpm_common.py:144-152 | the normal path, carry included |
| `E4m3.SubnormalRounds` | tools/minicpm_common.py:154-164 | the subnormal path with its clamped shift |
| `E4m3.DecodeIsExact` | tools/minicpm_common.py:174-190 | the decode table holds every code's exact value |
| `E4m3.RoundTrip` | tools/minicpm_common.py:130-201 | every code that is not NaN survives decoding and encoding |
| `E4m3.RoundingError` | tools/minicpm_common.py:116-127 | in range the error is at most a sixteenth of the value or half the smallest step |
| `E4m3Rows.RowExact` | tools/minicpm_common.py:204-217 | over exact quotients, for every weight of every row: the quotient by the row scale is at most 448, a nearest code exists, and every nearest code errs by at most abs(w)/16 or scale/1024 |
| `E4m3Rows.RowQuantization` | tools/minicpm_common.py:204-217 | with scale and quotient both rounded to 32-bit floats, ties to even: the scale is within 2^-24 of the exact one; the float quotient passes 448 exactly if the weight is above 448 + 2^-16 scales, and then is the next float, so saturation never decides a code; with the float scale multiplied back the error is at most abs(w)/16 or scale/1024 plus the rounding of the quotient |
| `E4m3Rows.QuotientPasses448` | tools/minicpm_common.py:204-212 | a float row maximum whose float quotient by its float scale is the float after 448 |
| `E4m3Rows.ScaleRounds` | tools/minicpm_common.py:204-207 | the larger of the two rounded candidates is the rounding of the exact scale |
| `E4m3Rows.ScaleExists` | tools/minicpm_common.py:204-207 | every row has a float scale |
| `E4m3Rows.PassesTop` | tools/minicpm_common.py:210-212 | a quotient rounds past 448 exactly above 448 + 2^-16 |
| `E4m3Rows.RoundsExists` | tools/minicpm_common.py:210-212 | every real rounds to a float, nearest with ties to even |
| `E4m3Rows.NearestError` | tools/minicpm_common.py:116-124 | between codes, any real in range is within a sixteenth of itself or half the smallest step of its nearest code |
| `E4m3Rows.FloatNear` | tools/minicpm_common.py:210-212 | some float is within 2^-24 of any real in range, or within half the smallest float |
| `WpkIo.WritePackage` | tools/pack_weights.py:130-163 | the streamed file is header, table, padding and sections, and both of the writer's assertions hold |
| `WpkIo.WriteSection` | tools/pack_weights.py:144-157 | a section's rows in source order |
| `WpkIo.BuildLayout` | tools/pack_weights.py:107-127 | offsets, sizes and file end |
| `WpkIo.ReadPackage` | tools/minicpm_common.py:351-398 | what the reader accepts and returns; by-hash lookup finds the entry when hashes differ |
| `WpkLoad.WrittenHeader` | tools/minicpm_common.py:318-330 | a written header reads back |
| `WpkLoad.WrittenEntry` | tools/minicpm_common.py:333-348 | every written table entry reads back |
| `WpkLoad.WrittenData` | tools/pack_weights.py:144-162 | at every entry's 256-aligned place inside the file lie the section's bytes |
| `WpkFile.LayoutApart` | tools/pack_weights.py:118-126 | sections do not overlap |
| `WpkFile.LayoutInside` | tools/pack_weights.py:118-127 | every section lies between the start and the end of the data |
| `WpkFile.LayoutAligned` | tools/pack_weights.py:118-127 | every section starts at a multiple of 256 |
| `WpkFile.MapRow` | tools/pack_weights.py:198-206 | the row of a source that a fused row is |
| `WpkFile.RowPlace` | tools/pack_weights.py:230-236 | row r of a section starts r row widths into it |
| `WpkFile.SourceRowPlace` | tools/pack_weights.py:144-157 | row j of the k-th slice of a fused section stands, in its bytes, behind all rows of the slices before |
| `Wpk.HeaderRoundTrip` | tools/minicpm_common.py:56-61 | packing and unpacking a header |
| `Wpk.EntryRoundTrip` | tools/minicpm_common.py:73-75 | packing and unpacking a table entry; the entry takes 132 bytes |
| `Wpk.LeByte` | tools/minicpm_common.py:56-61 | numbers are little-endian: the byte at i is the digit of weight 256 to the i |
| `Wpk.FromLeRoundTrip` | tools/minicpm_common.py:56-61 | every byte string is what writing the number it reads as gives |
| `Wpk.HeaderPlaces` | tools/minicpm_common.py:56-61 | the place of every header field in the 64 bytes |
| `Wpk.EntryPlaces` | tools/minicpm_common.py:63-75 | the place of every field of a table entry in the 132 bytes, the reserved ones zero |
| `WpkLoad.FileStarts` | tools/minicpm_common.py:318-330 | a package begins with "MKP1", version 2 and target 120, the hash, the section count, a zero word, the table's offset 64 and the start of the data |
| `WpkFile.EntryMeans` | tools/minicpm_common.py:333-348 | a table entry says bf16, row-major, the rank and the shape filled up with zeros, the size, and no scales |
| `WpkLoad.LoadPackage` | native/runtime/weight_loader.cpp:218-397 | the loader accepts a file if and only if header, table and the wanted extents are in order; every wanted section, as the table describes it, then sits 256-aligned and apart from the others in an arena of exactly the needed size, with the file's bytes |
| `WpkLoad.IndexByHash` | native/runtime/weight_loader.cpp:299-307 | refused exactly for a repeated hash; otherwise every entry is found under its own |
| `WpkLoad.SelectSections` | native/runtime/weight_loader.cpp:321-353 | accepted exactly if every expected section is there in the expected form |
| `WpkLoad.PlaceSections` | native/runtime/weight_loader.cpp:360-366 | back to back at multiples of 256 |
| `WpkLoad.Upload` | native/runtime/weight_loader.cpp:371-395 | one section in chunks: its bytes arrive, nothing else in the arena changes |
| `WpkLoad.UploadAll` | native/runtime/weight_loader.cpp:369-397 | all sections, without one overwriting another |
| `WpkLoad.WrittenIsAcceptable` | native/runtime/weight_loader.cpp:224-353 | the loader accepts what the writer writes |
| `WpkLoad.LoadedIsSource` | native/runtime/weight_loader.cpp:355-397 | the arena holds, for every section of a written package, the rows of its source tensors |
| `SessionArena.AllocateSession` | native/runtime/session.cpp:227-256 | every allocation of a session fits the computed size |
| `SessionArena.AllocateTables` | native/runtime/session.cpp:227-230 | the four small blocks fit |
| `SessionArena.BlocksApart` | native/runtime/session.cpp:227-248 | the blocks are aligned, inside the arena and pairwise apart |
| `SessionArena.Carve` | native/runtime/session.cpp:257-318 | every carved buffer has the length its users assume; the buffers are pairwise apart, inside the scratch block and end exactly at its end |
| `SessionArena.SizesCover` | native/runtime/session.cpp:60-125 | pages and attention chunks cover the context with none to spare, and the key/value block holds exactly the paged pool |
| `SessionArena.SplitFits` | native/kernels/sm120/kernels.h:517-521 | whenever the flash prefill splits, its partial results fit the 40 MB block |
| `SessionArena.DeviceArena.Alloc` | native/runtime/memory_arena.cpp:37-53 | the next aligned address with room behind it, or nothing |

## Left out

- Scheduler.Worker.WorkerLoop: how arrivals fall between rounds is free; that a job is served promptly is stated for rounds and quanta, not for the loop.
- Scheduler.Worker.AddMissing: a refused member is only known not to have a slot; why the engine refused is not modelled.
- EngineModel.Engine.StepGroup: assumes that a failed step leaves its members where they were; `NativeBatch.StageOutcome` says exactly when that is so, see Findings.
- EngineModel.Engine.DecodeOne: the budget sentinel of the native decode is not part of the contract, because the worker ends a stream at its limit before asking again.
- SchedulerResults.ScheduleIndependence: a sampled job's draws are taken as fixed with the engine, one token stream for each prompt, as they are for greedy jobs; only where its tokens come from, solo decodes alone, is told apart.
- EngineModel.Engine.RemoveMember: removing an occupied slot succeeds; the event failures of the native call are not passed on to the worker, which ignores them too.
- Scheduler.Worker.Drain: sends at retirement are taken to return; a receiver that is never read and never dropped blocks the program there.
- Active streams and job records are values that the methods pass on, as moved values are in the source; repeated inline code (step then retire, in four places) is one method.
- Session creation and destruction beyond the pool's count, `stats`, metrics, timing, logging and the memory ordering of the atomics (steps interleave sequentially).
- ToolCall.Step: calls keep names and parameter pairs; rendering them as a JSON object and the id string are left out, and so is the argument streamer of chat.rs.
- StopStrings.NothingLeaks: fragments are assumed to start on a character boundary, as a `str` does; the slice offsets inside `push_text` that the code does not align are byte offsets here.
- Generation.RunGeneration: HTTP and SSE rendering, request merging and the emission of role and usage events.
- NativeModel.HandedOutIsReference: greedy decisions only; sampling, random state and penalties are left out.
- NativeSession.Session.Forward: a forward past the end of the cache counts as a failed call; CUDA calls, streams, events, graph capture and kernel numerics are steps that succeed or fail; device buffers are sequence fields, and the layout of the cache is in `PagedKv`. The mock build is left out.
- PagedSession.PagedDecode: reads whole positions back; the order in which the attention kernels read them, and the batch step's rows through their own tables, are not modelled; on a failure the pages are only known to be in order.
- NativeRun.MixedRun: sessions of one model and one group; a seated session is not called by itself, which the interface forbids; the run ends at the first device failure (what comes after one is `NativeBatch.Fallback`).
- NativeSession.Session.DecodeOne: the page growth before a step is a possible failure here; that it cannot run out of pages within the context is `PagedKv.PagedKvAllocator.EnsurePagesFor`.
- NativeBatch.BatchGroup.Step: the forward is row by row, since rows do not share data; the slot and step pointer tables are the rows themselves.
- Fusion.Forward.Run: the full layer window with one token; windowed loading, debug dumps and the choice between FP8 and BF16 products with the same matrix are left out.
- E4m3Rows.RowQuantization: the product of code and scale in the dequantizer is exact; its own rounding to 32 bits is left out.
- WpkIo.WritePackage: model hash and section name hashes are given; computing FNV-1a and SHA-256, the safetensors reader, the manifest and the BF16 copy of tools/quantize.py are left out; shapes have one or two dimensions, as all sections do.
- WpkLoad.LoadPackage: the whole layer window; pointer tables and failures of device allocations and copies are left out.
- SessionArena.Carve: the real mode only; the layout of the group arena (native/runtime/batch_group.cpp:324-340) is left out.
- Session statistics other than the count of generated tokens, which the decode budget needs.
