# Grafux orchestrator: verified models

Dafny models of the parts of the orchestrator whose guarantees are easiest to break, with proofs of those
guarantees.  `dafny verify dfyconfig.toml` checks the project.

The block-agent stack comes first:

- `Transcript` - the provider-neutral transcript and its two translations, what each preserves, and when a
  transcript is legal for the Anthropic API.
- `BlockAgent` and `CanvasTools` - the plan/act/observe loop with its three budgets, policy gate, growing
  transcript, cooperative stop and irrevocable detach.  The model, the clock and the client are arbitrary: every
  await may return anything, raise or be cancelled, and the session may stop or detach the loop meanwhile.
- `RequestTable` - the session's request/reply protocol: five maps keyed by request id and a wait with two clocks.
- `CanvasLock` - serialized edits under a FIFO lock that runs do not hold; `SerializedEdits` runs it together with
  the request table, whose timers are what bounds an edit.
- `AgentRegistry` - which agent speaks for a block while old loops unwind.
- `CredentialLatch` - the cooldown after a rejected Anthropic credential.

Then one theorem each about `GenCache` (the bounded TTL cache of generated code), `Entitlements` (the two-tier
cache behind the paid gate), `VerilogHeader`, `RepairLoops` and `StaleTop` (reading module headers, and repairing
designs and programs under a frozen interface), `Clauses` and `ClauseRoundTrip` (splitting instructions into clauses
that carry their own sign), `Spice` (line folding and nesting) and `CanvasContext` (packing the canvas into a
budget).  `Common` and `Text` hold the optional value and the character classes.

Code that changes state is a class or a method with loops, proved against a specification function; what the code
promises is then proved about that function, over every run where it speaks of runs.  Each stretch between two
awaits is one atomic step.  Time is a nondecreasing integer, request ids are fresh, and what comes from a model, a
client, a cache or a backend is an unconstrained input.

## What the proofs found

- `finish` and an exception inside a dispatch leave that turn's calls unanswered, so the next instruction of the
  same conversation sends a transcript the Anthropic API refuses (`Run` and `LeftBehind` say exactly when,
  `FinishLeavesItOpen` shows one).  A cancellation leaves them unanswered too, but a cancelled agent is no longer
  registered and gets no next instruction.
- A falsy non-string `target_block` is read as another block's name by the gate and as this block by the meter: a
  JSON null starts a paid run without asking (`DenialAndMeteringAgree`, `NullTargetEscapesTheGate`).  A truthy one
  raises before anything is metered.
- An agent cancelled while `_dispatch_client` awaits the socket leaves its map entries behind
  (`DrainedMapsAreEmpty`, `CancelledSendLeaks`); a send slower than the idle window loses a reply already received
  (`SlowSendLosesTheReply`, `SlowSendIsReached`).
- The frozen interface is that of the request's `top`, not of the design to be repaired, although the comment at
  `blocks/router.py:1884` says the possibly stale port is not used.  With a stale top every answer that keeps the
  design's name is rejected, and where the design does not show that top's ports, one that renames the module and
  gives it any ports is accepted (`KeepsItsOwnIff`, `UnreadTopFreesThePorts`, `StaleTopRenames`, `StaleTopWitness`).
- The comment at `canvas_context.py:107` promises a fall back to the canvas for active blocks; the loop at lines
  113-119 never adds anything (`RenderActive`).
- A header with an empty parameter list `#()`, or a module name that ends in `$`, is not read at all; a port with a
  named dimension `[N]` or a named default is read under that name instead of its own (`ReadBackIff`,
  `DimensionIsRead`, `DefaultIsRead`).
- The docstring of `entitlements.py` promises that a stale yes never outlives a real no; it does when the overwrite
  of a cache entry fails, exactly as long as an unexpired yes is left in the tier the no did not reach
  (`StaleYesOutlivesNoIff`; `StaleYesNeverOutlivesNo` where all writes succeed).

## Model

| member | source | states |
|---|---|---|
| `Transcript.ToOpenAiMessages` | app/core/llm.py:554-581 | The loop computes the entry-by-entry OpenAI translation. |
| `Transcript.OpenAiPreservesEntries` | app/core/llm.py:554-581 | Read back, the OpenAI form is the transcript entry for entry: roles, contents, calls with names and arguments, and answered ids; only another provider's blocks and the error flag have no place in it, and no turn in it lists no calls. |
| `Transcript.TakeMessage` | app/core/llm.py:606-639 | One pass of the loop: with the held-back results flushed, the output is that of the shorter transcript extended by this entry. |
| `Transcript.ToAnthropicMessages` | app/core/llm.py:584-642 | The loop with its `pending_results` buffer computes the coalescing translation. |
| `Transcript.TranslationPreservesEntries` | app/core/llm.py:584-642 | Taken apart again, the Anthropic output is the neutral transcript entry for entry: order, ids, contents and error flags kept; every maximal run of tool entries is one user message. |
| `Transcript.EntriesAreRepresented` | app/core/llm.py:584-642 | Part by part the Anthropic form says what the entries say: roles, texts, calls, answered ids and error flags; a turn of the provider's own goes back unchanged, and no result is empty. |
| `Transcript.TranslationIsForced` | app/core/llm.py:587-591 | Those two properties admit only one output, so they specify the translation completely. |
| `Transcript.TranslationSplits` | app/core/llm.py:606-642 | At any non-tool entry a transcript can be cut and its two halves translated apart. |
| `Transcript.ProvidersAgreeOnCalls` | app/core/llm.py:554-642 | The call/result id sequence is the same under both providers whenever kept raw content carries the turn's own calls. |
| `Transcript.TalkTranslates` | app/modules/session/block_agent.py:390-473 | An instruction at rest translates to the earlier transcript, one user message, then exactly one turn message and one results message per answered turn. |
| `Transcript.SaidOpens` | app/modules/session/block_agent.py:385-390 | What an instruction has said is the transcript found, then its opening message, then its answered turns. |
| `Transcript.TalkIsLegal` | app/core/llm.py:593-597 | Such an instruction is legal for the API exactly when the transcript it grew from was. |
| `Transcript.SentIsLegal` | app/modules/session/block_agent.py:429-434 | What one model call sends is legal exactly when the transcript the instruction found was; the canvas context (or wrap-up request) is last and directly follows a user-side message. |
| `Transcript.LeftBehind` | app/modules/session/block_agent.py:456-473 | What an instruction leaves behind is legal iff what it found was and its last turn was answered: after `finish` or an exception the next instruction starts from a transcript the API refuses. |
| `CanvasTools.ActionTarget` | app/modules/session/canvas_tools.py:506-530 | A targeted action names the call's own trimmed target, else the only active block. |
| `CanvasTools.ActionLosesNothing` | app/modules/session/canvas_tools.py:506-600 | An action carries its tool's name and every argument the tool hands on that is not null, unchanged or (for `load_block`) trimmed. |
| `CanvasTools.ActionInventsNothing` | app/modules/session/canvas_tools.py:506-600 | Nothing else is in it but the type, the target, and arguments that were given. |
| `BlockAgent.TurnOf` | app/core/llm.py:741-775 | A turn carries the provider's own calls: those of its kept content, or those it lists, in order and with only missing ids filled in; a refusal carries none. |
| `Transcript.TextsAreJoinedInOrder` | app/core/llm.py:751-764 | The text of a turn is that of its text blocks, in order. |
| `BlockAgent.DenialAndMeteringAgree` | app/modules/session/block_agent.py:597-642 | Gate (on arguments) and meter (on the action) judge a run alike iff the target is absent or a string, the type is unmetered, or the non-string prints as nothing or as this block's name. |
| `BlockAgent.NullTargetEscapesTheGate` | app/modules/session/block_agent.py:639 | A JSON null target is a paid run that the gate takes for an ordinary one. |
| `BlockAgent.ServingKeepsBudgets` | app/modules/session/block_agent.py:548-571 | No call, declared to the model or not, takes what the canvas was handed past a budget or a permission. |
| `BlockAgent.DeniedIffOverBudget` | app/modules/session/block_agent.py:597-642 | The gate refuses a call that names an action exactly when handing it over would break a bound of the policy (plain targets, trimmed block name). |
| `BlockAgent.FreshBudgetIsServed` | app/modules/session/block_agent.py:597-628 | From a fresh budget n ordinary runs hand over exactly the least of n and the limit. |
| `BlockAgent.TurnsKeepBudgets` | app/modules/session/block_agent.py:467-473 | Nor does any number of calls in one turn. |
| `BlockAgent.ServingOnlyAdds` | app/modules/session/block_agent.py:565-571 | Serving calls takes nothing back: the record before is part of the record after. |
| `BlockAgent.RunsOnlyGrow` | app/modules/session/block_agent.py:565-571 | So the counts of runs and of expensive runs never fall within one budget. |
| `BlockAgent.CallsAreLegal` | app/modules/session/block_agent.py:416-473 | Every model call of an instruction sends what is as legal as the transcript the instruction found. |
| `BlockAgent.SpentIsProper` | app/modules/session/block_agent.py:302-306 | Calls that cost a step each, but for a last tool-less one, are ordinary calls and at most one wrap-up, no more than the steps plus one. |
| `BlockAgent.StepsAreConsecutive` | app/modules/session/block_agent.py:313-324 | Over a loop's whole life, resumes included, its steps are numbered 1, 2, 3 and so on. |
| `BlockAgent.TailTellsTheEnding` | app/modules/session/block_agent.py:467-473 | An assistant turn is left at the end iff the instruction broke off inside one, a user message iff it wrapped up, nothing iff every turn was answered. |
| `BlockAgent.LeftAsItEnded` | app/modules/session/block_agent.py:456-473 | What an instruction leaves is legal iff what it found was and it did not break off inside a turn. |
| `BlockAgent.FinishLeavesItOpen` | app/modules/session/block_agent.py:467-471 | A first instruction that ends with `finish`: legal until then, illegal as it is left. |
| `BlockAgent.InstructionIsLegal` | app/modules/session/block_agent.py:379-473 | All of an instruction's calls and what it leaves behind, judged together by how it ended. |
| `BlockAgent.OrderIsHeard` | app/modules/session/block_agent.py:385-390 | Every call of an instruction sends its order right behind the transcript found, and so does what is left. |
| `BlockAgent.StateIsFinal` | app/modules/session/block_agent.py:392-405 | With the handlers applied, an outcome and its ending give one final state: a refusal or an exception fails, a stop or a cancellation stops, anything else finishes. |
| `BlockAgent.ListsInOrder` | app/modules/session/block_agent.py:467-473 | Results that were returned by the calls of a turn, in order, answer those calls. |
| `BlockAgent.TallyIsServed` | app/modules/session/block_agent.py:467-473 | What was run of a turn is what was served of it, the call that broke off included. |
| `BlockAgent.BlockAgentLoop.constructor` | app/modules/session/block_agent.py:239-258 | A new loop has said nothing, used nothing and knows nothing; its transcript is legal. |
| `BlockAgent.BlockAgentLoop.Stop` | app/modules/session/block_agent.py:262-268 | Sets the flag and nothing else. |
| `BlockAgent.BlockAgentLoop.Detach` | app/modules/session/block_agent.py:270-282 | From here on the loop sends nothing more: what it has sent is what it will ever have sent. |
| `BlockAgent.BlockAgentLoop.ResumeBudget` | app/modules/session/block_agent.py:284-298 | Fresh budgets on the same transcript, detached or not; step numbers go on and a detached loop stays silent. |
| `BlockAgent.BlockAgentLoop.BudgetExhausted` | app/modules/session/block_agent.py:304-309 | Names the step budget iff it is used up, else the time budget iff the clock, read afresh, stands at the end of the instruction's time or later. |
| `BlockAgent.BlockAgentLoop.EmitStep` | app/modules/session/block_agent.py:313-324 | One frame with the next number, or none after a detach. |
| `BlockAgent.BlockAgentLoop.ReportState` | app/modules/session/block_agent.py:326-338 | One state report, or none after a detach. |
| `BlockAgent.BlockAgentLoop.Deny` | app/modules/session/block_agent.py:597-628 | The counters decide as the record of what the canvas was really handed would. |
| `BlockAgent.BlockAgentLoop.Hand` | app/modules/session/block_agent.py:565-571 | An allowed action is metered once, before it reaches the canvas, and stays within every budget. |
| `BlockAgent.BlockAgentLoop.CallModel` | app/modules/session/block_agent.py:429-434 | One recorded model call with what it sent and what came back; a call that offers tools is never started after a stop or, by the last look at the clock, once the time is up. |
| `BlockAgent.BlockAgentLoop.Dispatch` | app/modules/session/block_agent.py:538-575 | Whatever happens on the canvas, a returned result answers that very call with what the client said, and is an error exactly where the client said so, nothing was asked of it, or the call was denied; a denied call changes nothing on the canvas, and every call is announced unless the loop is detached. |
| `BlockAgent.BlockAgentLoop.Act` | app/modules/session/block_agent.py:553-575 | A call that passed the gate: no action, a rejected one, or one handed to the canvas once, whose result is what the canvas observed. |
| `BlockAgent.BlockAgentLoop.DispatchAsk` | app/modules/session/block_agent.py:577-584 | A question yields the user's answer as the result of its own call; an empty question is an error and asks nobody. |
| `BlockAgent.BlockAgentLoop.DispatchRead` | app/modules/session/block_agent.py:586-595 | A port read yields the port's content as the result of its own call; a read without a port is an error and reads nothing. |
| `BlockAgent.BlockAgentLoop.Finish` | app/modules/session/block_agent.py:491-500 | The verdict ends the instruction as finished and is announced, or not, like any step. |
| `BlockAgent.BlockAgentLoop.TakeCall` | app/modules/session/block_agent.py:468-472 | One call: `finish` runs nothing and stops there, any other call is served once and what it returned joins the results. |
| `BlockAgent.BlockAgentLoop.RunCalls` | app/modules/session/block_agent.py:467-473 | The loop over a turn's calls runs them in order up to a `finish` or the one that breaks off; the results are exactly what they returned. |
| `BlockAgent.BlockAgentLoop.DispatchAll` | app/modules/session/block_agent.py:467-473 | k calls give k results, those the calls returned, with the same ids in order, unless `finish`, an exception or a cancellation breaks the turn off; in each case the canvas was handed exactly the allowed actions among the calls begun, in order, the broken one included. |
| `BlockAgent.BlockAgentLoop.WrapUp` | app/modules/session/block_agent.py:502-525 | A spent budget buys exactly one more call; it is tool-less and sends the user message it adds. |
| `BlockAgent.BlockAgentLoop.Checkpoint` | app/modules/session/block_agent.py:416-426 | The head of a pass: a stop ends the instruction without a call, it is wrapped up only when the steps or the time are spent, and it goes on only when neither is. |
| `BlockAgent.BlockAgentLoop.WrapUpNow` | app/modules/session/block_agent.py:421-424 | The wrap-up as an ending: one tool-less call more, finished unless it is cancelled. |
| `BlockAgent.BlockAgentLoop.Ask` | app/modules/session/block_agent.py:428-435 | A tool-bearing call costs one step, is started only below the step budget and before any stop, and sends the transcript as it stands. |
| `BlockAgent.BlockAgentLoop.ActOn` | app/modules/session/block_agent.py:456-473 | A turn joins the transcript with what its calls returned as one closed group, every call served, or stays open at the very end; nothing handed over before is taken back. |
| `BlockAgent.BlockAgentLoop.React` | app/modules/session/block_agent.py:437-473 | A refusal or a silent turn ends with every turn answered; any other turn is recorded as the model gave it and stays open iff its dispatch ended by `finish`, an exception or a cancellation, and the outcome says which. |
| `BlockAgent.BlockAgentLoop.TakeTurn` | app/modules/session/block_agent.py:456-473 | A turn with calls either lets the instruction go on with everything answered or is the open turn it ends in. |
| `BlockAgent.BlockAgentLoop.Pass` | app/modules/session/block_agent.py:416-473 | At most one call per pass, none after a stop, and a step for each but a wrap-up; a pass that goes on leaves a closed transcript, one that does not leaves what its ending says. |
| `BlockAgent.BlockAgentLoop.Advance` | app/modules/session/block_agent.py:428-473 | The rest of a pass: one step, one ordinary call, and the turn it got recorded or ending the instruction. |
| `BlockAgent.BlockAgentLoop.Loop` | app/modules/session/block_agent.py:407-473 | Terminates for every model behaviour; the calls that offer tools number exactly the steps used, with one tool-less call behind them iff it wrapped up; the tail and the outcome are those of its ending, and the record of what was handed over only grows. |
| `BlockAgent.BlockAgentLoop.Run` | app/modules/session/block_agent.py:379-405 | One instruction end to end: the order given (or the stock one for a blank one) opens it and stands behind the transcript found in everything sent and left; each call sends what the one before did, its turn and the results; exactly one tool-bearing call per step used and one tool-less call last iff it wrapped up, so at most `max_steps + 1`, none but a wrap-up after a stop; each sends what is as legal as the transcript found; the record of what the canvas was handed only grows; the state is told by the ending and the model's last answer (`FinalState`), a wrap-up comes only when the steps or the time are spent, and the transcript left is legal iff this one's was and it did not break off inside a turn. |
| `BlockAgent.BlockAgentLoop.RunLoop` | app/modules/session/block_agent.py:392-405 | The loop with its handlers: the state it ends in is that of its ending, and what the model said is what is left. |
| `BlockAgent.BlockAgentLoop.Conclude` | app/modules/session/block_agent.py:392-405 | An exception ends in `error`, an interrupted run in `stopped`; the last thing sent is the report of that state, unless the loop was cut off. |
| `BlockAgent.BlockAgentLoop.Open` | app/modules/session/block_agent.py:380-391 | The running state is reported, and the instruction starts from the transcript found and the order it was given, with no calls made and nothing open. |
| `BlockAgent.BlockAgentLoop.OpeningFor` | app/modules/session/block_agent.py:385-389 | The order is the instruction without surrounding blanks, or the stock one where that is empty; it is never blank. |
| `RequestTable.StepKeepsCoherence` | app/modules/session/router.py:353-461 | Every event keeps the five maps, the futures and the waits coherent; a parked waiter whose id has left `_last_seen` has a completed future. |
| `RequestTable.RunsAreCoherent` | app/modules/session/router.py:353-461 | So does every interleaving of any number of requests, notes, replies, timeouts, cancellations and disconnects, with any wake-ups lost or set for no reason on the way. |
| `RequestTable.GivingUpIsJustified` | app/modules/session/router.py:420-430 | A wait gives up only at the deadline it began with or a full idle window after the last recorded sign of life, and the lookup at line 428 never misses. |
| `RequestTable.NoRunGivesUpEarly` | app/modules/session/router.py:399-461 | The same over every run, lost wake-ups included: whatever interleaves, a wait that ends neither answered nor interrupted did so at its own fixed deadline or after a silent idle window. |
| `RequestTable.ProgressIsRecorded` | app/modules/session/router.py:359-364 | Progress that reaches a wait still lacking its reply is always recorded and always nudges it. |
| `RequestTable.RequestsAreOwned` | app/modules/session/router.py:388-395 | A request belongs to the block it was made for, if any, and making it gives no other request an owner. |
| `RequestTable.OwnersStand` | app/modules/session/router.py:394-461 | It does as long as it is in the maps, and no other event gives it an owner. |
| `RequestTable.NoteIsKept` | app/modules/session/router.py:365-368 | The status kept for a live request is its last note that says anything, and nobody else's changes. |
| `RequestTable.ReplyCompletesItsRequest` | app/modules/session/router.py:353-357 | The first reply to a live request completes it and changes nothing else; a parked wait can then wake and returns it. |
| `RequestTable.OtherRepliesAreDropped` | app/modules/session/router.py:353-357 | Any other reply changes nothing, and no wait is still missing it. |
| `RequestTable.NoReplyIsLost` | app/modules/session/router.py:353-448 | Over every run, lost wake-ups included: once a parked wait has its reply it can wake to it, has returned it, or was cancelled; it never gives up. |
| `RequestTable.GivesUpIff` | app/modules/session/router.py:423-430 | A wait still without its reply gives up when it wakes iff its deadline has passed or a whole idle window without a sign of life. |
| `RequestTable.BeginGivesUpIff` | app/modules/session/router.py:420-430 | A wait gives up at its very beginning iff its send took longer than its idle window. |
| `RequestTable.DisconnectAnswersEveryWait` | app/modules/session/router.py:216-225 | A disconnect answers every wait that has no reply with the failure and no other, and empties the maps. |
| `RequestTable.ReplyInTimeIsReturned` | app/modules/session/router.py:441-445 | A reply that is in when the wait wakes is what the wait returns. |
| `RequestTable.SlowSendLosesTheReply` | app/modules/session/router.py:420-430 | At the head of the wait it is not: a reply already in is lost iff its id is still pending and a whole idle window passed during the send. |
| `RequestTable.SlowSendIsReached` | app/modules/session/router.py:391-430 | Such a run exists: a port read's reply arrives during a send that takes the whole idle window, and the wait gives up. |
| `RequestTable.HistoryStands` | app/modules/session/router.py:353-357 | First replies, outcomes and terms are never replaced; the hard deadline never moves. |
| `RequestTable.LostWakeUpsAreHarmless` | app/modules/session/router.py:446-448 | Two tables that differ only in which progress events are set stay so under every event: a wake-up lost to `clear()` changes no outcome. |
| `RequestTable.NoLossIsARun` | app/modules/session/router.py:446-448 | A run that loses no wake-up is one of those the whole-run theorems speak of. |
| `RequestTable.LossyRunsAgree` | app/modules/session/router.py:431-448 | Over whole runs: the same events have the same outcome when any wake-up may be lost or set for no reason after every one of them. |
| `RequestTable.EventsKeepOnTime` | app/modules/session/router.py:434-438 | No event but a late tick leaves a timer in the past. |
| `RequestTable.OnTimeWaitsAreBounded` | app/modules/session/router.py:425-438 | With timely timers no wait outlives its hard deadline, nor its idle window after the last sign of life. |
| `RequestTable.TermsStand` | app/modules/session/router.py:422 | The terms of a wait are those it began with, for the rest of every run, lost wake-ups included. |
| `RequestTable.WaitsEndInTime` | app/modules/session/router.py:420-438 | In every run with timely timers, lost wake-ups included, a wait is over once its hard limit has passed since it began. |
| `RequestTable.OnlyCancelledSendsLeak` | app/modules/session/router.py:388-397 | Map entries without a wait come only from a cancellation during the socket write. |
| `RequestTable.LeaksAreLostSends` | app/modules/session/router.py:388-397 | Entries without a wait exist iff some earlier event cancelled a send whose id was in the maps and no disconnect has come since. |
| `RequestTable.DrainedMapsAreEmpty` | app/modules/session/router.py:456-461 | Once every wait has ended the five maps are empty iff no send was cancelled with its id in the maps, or a disconnect came after the last one that was. |
| `RequestTable.CancelledSendLeaks` | app/modules/session/router.py:391-396 | The leak is real: one request cancelled in its send. |
| `RequestTable.Requests.DispatchClient` | app/modules/session/router.py:388-397 | Before the send, the id is pending, unsignalled, seen now, and owned by the block if one is named; nothing else changes. |
| `RequestTable.Requests.BeginWait` | app/modules/session/router.py:420-431 | The wait adopts or recreates its entries (a disconnect may have cleared them), fixes its deadline once and reads both clocks. |
| `RequestTable.Requests.ResumeWait` | app/modules/session/router.py:441-448 | A reply that is in is returned before any clock is read; else both clocks are read afresh. |
| `RequestTable.Requests.CheckClocks` | app/modules/session/router.py:425-438 | Gives up at the deadline or after a silent idle window, else clears the signal and parks until the nearer of the two. |
| `RequestTable.Requests.Forget` | app/modules/session/router.py:456-461 | The `finally`: the id leaves all five maps. |
| `RequestTable.Requests.NoteProgress` | app/modules/session/router.py:359-368 | A note for a live id, and nothing for any other. |
| `RequestTable.Requests.ResolvePending` | app/modules/session/router.py:353-357 | Only the first reply to a pending id counts, and it always does (`ReplyCompletesItsRequest`). |
| `RequestTable.Requests.FailPending` | app/modules/session/router.py:216-225 | The loop answers every pending request that had no answer and then empties all five maps. |
| `RequestTable.Requests.CancelWait` | app/modules/session/router.py:423-461 | A wait cancelled while parked leaves all five maps like any other. |
| `CanvasLock.StepKeeps` | app/modules/session/router.py:713-745 | Every step keeps mutual exclusion, the queue and the schedule. |
| `CanvasLock.RunsKeep` | app/modules/session/router.py:713-745 | So does every run. |
| `CanvasLock.EditsAreSerialized` | app/modules/session/router.py:713-733 | Two edits are never awaited at once, nothing is dispatched while one is, and a run in flight never holds the lock. |
| `CanvasLock.EditWaitsEndInTime` | app/modules/session/router.py:724-728 | In every run of the request table with timely timers, an edit's wait is over 120 seconds after it began. |
| `CanvasLock.LockIsGrantedInTime` | app/modules/session/router.py:713-728 | With socket writes of at most w seconds and edits awaited no longer than 120, an agent behind k tenures has the lock within k*(w+120) seconds of asking. |
| `CanvasLock.NobodyStarves` | app/modules/session/router.py:713-728 | On the same terms nobody still waiting has been passed over: its turn can always still come in time. |
| `SerializedEdits.TicksRespectEdits` | app/modules/session/router.py:724-728 | Time that passes none of the request table's timers passes no edit's 120-second limit: the bound the lock counts on comes from the wait itself. |
| `SerializedEdits.NobodyElse` | app/modules/session/router.py:713-728 | While an agent is in the lock no other agent's edit is awaited, so no event of the table ends two. |
| `SerializedEdits.StepKeeps` | app/modules/session/router.py:713-745 | Every event of the two machines together keeps both in order and every awaited edit's wait, deadline included, in step with its tenure. |
| `SerializedEdits.RunsKeep` | app/modules/session/router.py:713-745 | So does every run of the session. |
| `SerializedEdits.OneEditIsAwaited` | app/modules/session/router.py:713-728 | Of all the waits in the table at most one is an edit's, and its agent holds the lock. |
| `SerializedEdits.EventsMoveTheLock` | app/modules/session/router.py:713-728 | Each event is one permitted move of the lock, or none. |
| `SerializedEdits.LockRunBehind` | app/modules/session/router.py:713-745 | Behind every run of the session is a run of the lock: the limits assumed there hold here. |
| `SerializedEdits.LockIsGrantedInTime` | app/modules/session/router.py:713-728 | So with timely timers and socket writes of at most w seconds, an agent behind k tenures has the lock within k*(w+120) seconds of asking, whatever replies, notes, disconnects and cancellations interleave. |
| `SerializedEdits.NobodyStarves` | app/modules/session/router.py:713-728 | On the same terms nobody still waiting has been passed over. |
| `AgentRegistry.StepKeeps` | app/modules/session/router.py:497-694 | Every step keeps one voice per block and ordered frames. |
| `AgentRegistry.RunsKeep` | app/modules/session/router.py:497-694 | So does every run of presses, refusals, stops, messages, resumes and unwinding loops. |
| `AgentRegistry.AtMostOneVoice` | app/modules/session/router.py:525-539 | A block has at most one loop that can be heard, and it is the registered one. |
| `AgentRegistry.DetachedLoopsStaySilent` | app/modules/session/router.py:605-608 | Once replaced or stopped, a loop is never heard again, however long it unwinds. |
| `AgentRegistry.StepNumbersIncrease` | app/modules/session/block_agent.py:313-324 | Frames of one loop are strictly increasing across all its resumes. |
| `AgentRegistry.NewVoiceMeansOldOneDetached` | app/modules/session/router.py:525-538 | If a new loop speaks for a block, the old one was detached and none of its frames came after. |
| `AgentRegistry.StopIsUnderWay` | app/modules/session/router.py:600-617 | In the middle of a stop, with loops speaking and ending between the dismissals, exactly its first targets are done. |
| `AgentRegistry.StopReachesItsTargets` | app/modules/session/router.py:598-628 | Once over, in any run, a stop has silenced exactly its targets' loops and unregistered exactly those blocks, whatever interleaved. |
| `AgentRegistry.EveryAgentWasAllowed` | app/modules/session/router.py:501-512 | In every run, behind every registered agent and every frame on the wire there is a press of that block's button by a user who may run agents. |
| `AgentRegistry.NobodyElseGetsOne` | app/modules/session/router.py:503-512 | A user who may not run agents gets no loop, no agent and no frame, whatever is pressed, stopped or typed. |
| `AgentRegistry.PressStartsTheAgent` | app/modules/session/router.py:524-540 | An allowed press gives the block the new loop, running and audible, and silences the one it had. |
| `AgentRegistry.LiveLoopsAreHeard` | app/modules/session/block_agent.py:313-324 | A loop that has its voice is heard each time it speaks, under the next number. |
| `AgentRegistry.MessagesResumeFinishedAgents` | app/modules/session/router.py:640-667 | A message after a run resumes the very same loop; during one, or to a block without an agent, it changes nothing. |
| `AgentRegistry.Registry.StartBlockAgent` | app/modules/session/router.py:497-527 | A start is refused exactly when the block or its name is missing or the user is not entitled, and then changes nothing; otherwise the old loop is dismissed first. |
| `AgentRegistry.Registry.FinishStart` | app/modules/session/router.py:529-540 | The new loop is registered under the block. |
| `AgentRegistry.Registry.Dismiss` | app/modules/session/router.py:602-608 | The block loses its agent and the agent its voice, at one instant. |
| `AgentRegistry.Registry.StopBlockAgent` | app/modules/session/router.py:600-628 | The loop over the targets does so, each followed by a moment in which any loop may speak or end. |
| `AgentRegistry.Registry.EmitStep` | app/modules/session/block_agent.py:313-324 | The next numbered frame, or none from a detached loop. |
| `AgentRegistry.Registry.OnAgentUserMessage` | app/modules/session/router.py:642-667 | Resumes the same loop iff there is one and it is not running. |
| `CredentialLatch.Latch.constructor` | app/core/llm.py:62 | Nothing is latched at start. |
| `CredentialLatch.StatusDecides` | app/core/llm.py:162-182 | A plain HTTP failure is about the credential iff its status is 401 or 403: not a 400, a 429 or any 5xx. |
| `CredentialLatch.MissingKeyDecides` | app/core/llm.py:176-177 | A missing key is one iff it is the Anthropic key. |
| `CredentialLatch.OnlyCredentialsLatch` | app/core/llm.py:232-235 | However often the provider is busy, broken or asked badly, the latch is never set and every call still goes to it. |
| `CredentialLatch.Latch.WithFallback` | app/core/llm.py:212-246 | Only a credential failure sets the latch and reaches the fallback; every other outcome passes through unchanged. |
| `CredentialLatch.OnlyAMissingKeyIsReworded` | app/core/llm.py:236-246 | A fallback that lacks its own key is reported as one clear error, and any other outcome as it is. |
| `CredentialLatch.Latch.Serve` | app/core/llm.py:198-246 | A call tries Anthropic iff the latch has expired. |
| `CredentialLatch.LatchAdvances` | app/core/llm.py:185-209 | Each rejection pushes the latch a full cooldown past the one before. |
| `CredentialLatch.RejectedAttemptsAreBounded` | app/core/llm.py:61-63 | A sequential run spanning T seconds pays for at most floor(T/900)+1 rejected attempts. |
| `CredentialLatch.BoundIsAttained` | app/core/llm.py:205-208 | For every n there is a run that pays for exactly that many. |
| `GenCache.Cache.constructor` | app/modules/blocks/router.py:402 | The cache starts empty. |
| `GenCache.Cache.Get` | app/modules/blocks/router.py:407-415 | A hit is the latest put of that key, no older than the TTL; a miss means never put, expired, or at least 256 distinct other keys put at that instant or later. |
| `GenCache.Cache.Oldest` | app/modules/blocks/router.py:420 | The scan finds an entry no other is older than. |
| `GenCache.Cache.Put` | app/modules/blocks/router.py:418-422 | The cache still explains every key of the history and never exceeds 256 entries, equal clock readings included. |
| `GenCache.EvictionIsExplained` | app/modules/blocks/router.py:419-421 | An evicted key has 256 distinct others put at its own instant or later, the new one included. |
| `GenCache.LaterPutsAreOthers` | app/modules/blocks/router.py:418-422 | A key last put at an instant or later is among the others put from then on. |
| `GenCache.StrictClockMeansSince` | app/modules/blocks/router.py:418-422 | On a strictly increasing clock these are exactly the distinct other keys put since the key's own last put. |
| `Entitlements.ResolvingKeepsFaith` | app/core/entitlements.py:115-150 | Each tier always mirrors the explicit answers that were written to it. |
| `Entitlements.RejectionsAreSilence` | app/core/entitlements.py:90-112 | A status of 400 or more, a body that is no JSON and one of the wrong shape are no answer: the resolution and the store are those of an unreachable backend. |
| `Entitlements.AnswersAreHeard` | app/core/entitlements.py:112-138 | An answer that is asked for is returned, remembered and written to both tiers; a missing list means no rights. |
| `Entitlements.AnswersAreTheLatest` | app/core/entitlements.py:115-150 | Every answer that is not the fallback is the latest explicit answer about that user, if its writes succeeded. |
| `Entitlements.CachesOnlyRepeatTheBackend` | app/core/entitlements.py:45-56 | Even with failed writes a tier only repeats the last answer that reached it, within its TTL. |
| `Entitlements.BackedUpIffHotIsShorter` | app/core/entitlements.py:63-66 | A live hot entry implies a live equal last-known-good one in every store at every moment iff the hot TTL is no longer. |
| `Entitlements.FallbackIsTheLastResort` | app/core/entitlements.py:131-150 | The fallback answers only when the backend is silent and no last-known-good copy can be read once it has given up. |
| `Entitlements.RunsKeepFaith` | app/core/entitlements.py:115-170 | Over every sequence of gate decisions each tier mirrors the answers that reached it, and with successful writes all of them did. |
| `Entitlements.GrantsAreJustified` | app/core/entitlements.py:153-170 | The enforced gate opens only on a latest explicit yes or on an allowing fallback. |
| `Entitlements.StaleYesNeverOutlivesNo` | app/core/entitlements.py:12-16 | After an explicit no, nothing grants until an explicit yes, except an allowing fallback with no readable last-known-good copy. |
| `Entitlements.CachedGrantIff` | app/core/entitlements.py:115-170 | For every faithful store: with a silent backend some request from now on is granted on a cached yes (with a denying fallback: is granted at all) iff some tier holds a yes that reached it and has not expired. |
| `Entitlements.StaleYesOutlivesNoIff` | app/core/entitlements.py:12-16 | After any run whose latest answer is a no, a cached yes is still granted from now on iff that no missed a tier in which an earlier yes has not expired. |
| `Entitlements.FreshYesIsHeardAtOnce` | app/core/entitlements.py:167-170 | A user who has just paid is let in whenever the backend can be asked. |
| `Entitlements.GateHearsOnlyAnswers` | app/core/entitlements.py:19-21 | The gate, and what it leaves in the caches, is the same whether the backend rejects us or cannot be reached. |
| `Entitlements.OutageFollowsTheSetting` | app/core/entitlements.py:145-150 | An outage that finds no readable copy goes by the configured fallback and writes nothing. |
| `Entitlements.OutageSparesPayingUsers` | app/core/entitlements.py:140-143 | A paying user with a readable last-known-good copy is let in however long the backend is away. |
| `Entitlements.SwitchedOffLetsEveryoneIn` | app/core/entitlements.py:161-163 | With the switch off everyone is let in and nothing is asked or written. |
| `Entitlements.LostOverwriteOutlivesNo` | app/core/entitlements.py:63-70 | One such run: the overwrite of the long-lived copy fails, the hot entry expires and the backend falls silent. |
| `Entitlements.Resolver.constructor` | app/core/entitlements.py:41-42 | Nothing is cached at start. |
| `Entitlements.Resolver.CacheRead` | app/core/entitlements.py:45-56 | A readable, unexpired entry or nothing. |
| `Entitlements.Resolver.CacheWrite` | app/core/entitlements.py:59-70 | Both tiers, each on its own. |
| `Entitlements.Resolver.GetEntitlements` | app/core/entitlements.py:115-150 | The whole new state and the answer, with where it came from. |
| `Entitlements.Resolver.MayRunBlockAgents` | app/core/entitlements.py:153-170 | The decision, with its second look, and the state it leaves. |
| `VerilogHeader.StripCommentsKeeps` | app/modules/blocks/hdl.py:24-49 | Text that opens no comment is kept as it is in front of whatever follows. |
| `VerilogHeader.LineCommentIsBlanked` | app/modules/blocks/hdl.py:24-49 | A line comment becomes one space in front of its line's end. |
| `VerilogHeader.BlockCommentIsBlanked` | app/modules/blocks/hdl.py:24-49 | A closed block comment becomes one space. |
| `VerilogHeader.Balanced` | app/modules/blocks/hdl.py:52-63 | The scan returns the text up to the first parenthesis that brings the depth to zero, or nothing. |
| `VerilogHeader.GroupIsMatched` | app/modules/blocks/hdl.py:52-63 | For balanced contents that is exactly the matching group, whatever follows. |
| `VerilogHeader.SplitTopLevel` | app/modules/blocks/hdl.py:66-81 | The scan with its depth counter computes the outermost cuts and drops blank items. |
| `VerilogHeader.CuttingLosesNothing` | app/modules/blocks/hdl.py:66-81 | The pieces joined by commas are the text. |
| `VerilogHeader.ItemsComeApart` | app/modules/blocks/hdl.py:66-81 | Items without an outermost comma, joined, come apart as they were: the cuts are at exactly the depth-0 commas. |
| `VerilogHeader.IdentsSplit` | app/modules/blocks/hdl.py:25 | Text that ends outside an identifier is scanned apart from what follows. |
| `VerilogHeader.SkipSpace` | app/modules/blocks/hdl.py:102-105 | The loop stops at the first non-space. |
| `VerilogHeader.SkipParams` | app/modules/blocks/hdl.py:107-115 | The position behind an optional parameter list, or a refusal. |
| `VerilogHeader.ReadPorts` | app/modules/blocks/hdl.py:116-124 | The port names of the list at a position. |
| `VerilogHeader.ModulePorts` | app/modules/blocks/hdl.py:84-124 | The index-based reader computes the ports of the header. |
| `VerilogHeader.HeaderIsFound` | app/modules/blocks/hdl.py:96-100 | A header is recognised by its name iff the name does not end in `$`. |
| `VerilogHeader.TailReads` | app/modules/blocks/hdl.py:107-124 | Behind the name, nothing is read if a parameter list is empty, else each port in its way. |
| `VerilogHeader.HeaderRoundTrip` | app/modules/blocks/hdl.py:84-124 | For any text whose blanked form holds a readable printed header (decorations, nested brackets, parameters) as the module's first mention, reading gives exactly its port names in order. |
| `VerilogHeader.PrintedHeaderReadsBack` | app/modules/blocks/hdl.py:84-124 | In particular for such a header printed at the head of a text, whatever the text goes on with. |
| `VerilogHeader.ReadBackIff` | app/modules/blocks/hdl.py:84-124 | What a module mentioned once is read as, exactly: nothing if the parameter list is empty or the name ends in `$`, else for each port the last usable identifier behind its name, or its name; so the names come back iff none of these gets in the way. |
| `VerilogHeader.DimensionIsRead` | app/modules/blocks/hdl.py:121-123 | Any legal port with a named unpacked dimension is read under the dimension's name. |
| `VerilogHeader.DefaultIsRead` | app/modules/blocks/hdl.py:121-123 | Any legal port with a named default value is read under that name. |
| `VerilogHeader.InferTop` | app/modules/blocks/hdl.py:42-45 | The inferred top module is always an identifier. |
| `VerilogHeader.TopIsLastHeader` | app/modules/blocks/hdl.py:42-45 | It is the name in the last printed header that opens a line, when no declaration opens behind it or reaches into it. |
| `RepairLoops.ValidateRtlFix` | app/modules/blocks/hdl.py:193-244 | The checks in their order, each with its own problem. |
| `RepairLoops.AcceptedIsRepair` | app/modules/blocks/hdl.py:193-244 | No problem is found iff the answer is a whole, different design under the frozen name whose ports, where both can be read, are the same. |
| `RepairLoops.KeptPortsAreTheSame` | app/modules/blocks/hdl.py:225-243 | Where the old design prints a readable header for the kept name, and so does the new one, the printed ports are equal. |
| `RepairLoops.KeepsItsOwnIff` | app/modules/blocks/router.py:1884-1889 | An accepted repair keeps the name, and with it the readable ports, of the design it was given iff the request's top is blank or that design's own. |
| `RepairLoops.StaleTopRejectsTheOwnName` | app/modules/blocks/hdl.py:216-223 | With any other top every answer that keeps the design's own name is rejected. |
| `RepairLoops.UnreadTopFreesThePorts` | app/modules/blocks/hdl.py:225-230 | With a top whose ports the old design does not show, any ports are accepted under that name. |
| `StaleTop.StaleTopRenames` | app/modules/blocks/hdl.py:216-230 | Any one-line design that does not mention the requested top is accepted as repaired by any other design of that name, whatever its ports. |
| `StaleTop.StaleTopWitness` | app/modules/blocks/router.py:1886-1889 | For all ordinary names: a repair request for module `c(a)` under top `f` finds no problem with `f(b)`. |
| `RepairLoops.Ask` | app/modules/blocks/router.py:1898-1937 | At most three calls, stopping at the first accepted answer; each request carries the latest non-empty draft and the reasons the last one was rejected. |
| `RepairLoops.DraftIsTheLastCode` | app/modules/blocks/router.py:1898-1937 | The design a round shows is the code of the last earlier answer that had any, else the design to be repaired. |
| `RepairLoops.PassingIsPassingAll` | app/modules/blocks/router.py:1898-1937 | A draft passes iff it passes each check: the frozen interface (or the design checks), the instructions, and the compliance report. |
| `RepairLoops.ProblemsAreKept` | app/modules/blocks/router.py:1898-1937 | Every problem any check finds is among those told to the next round, and no other. |
| `RepairLoops.PassingAFixIsPassingAll` | app/modules/blocks/router.py:2404-2508 | A repaired program passes iff it is not blank, differs from the original, and passes the instruction and compliance checks. |
| `RepairLoops.Status` | app/modules/blocks/router.py:1950-1987 | Status is ok iff nothing was found on the last draft and nothing is missed on the code written. |
| `RepairLoops.Finish` | app/modules/blocks/router.py:1939-1987 | A repair never writes blank code; one reported ok has the name and readable ports that the given design shows for the requested top, which are the design's own iff the request named no other top. |
| `RepairLoops.GenerateCodeHdl` | app/modules/blocks/router.py:1871-1987 | The whole block, for every sequence of answers: refused iff there is neither a repair nor a spec; ok iff the last answer passed every check without a warning and is no VHDL; an ok repair keeps the interface of the requested top, and that of the design it was given iff the request named no other. |
| `RepairLoops.ShapeProblems` | app/modules/blocks/router.py:2278-2297 | No shape problem iff the program is not blank and differs from the original. |
| `RepairLoops.FinishFix` | app/modules/blocks/router.py:2462-2507 | The program written is never blank, and ok only if it differs from the original. |
| `RepairLoops.GenerateCodeFix` | app/modules/blocks/router.py:2404-2508 | The whole block: refused iff an input is blank; ok iff the last answer passed every check. |
| `Clauses.SplitParts` | app/modules/blocks/directives.py:298-314 | The loop over the separators computes the cut (`CutIsFaithful`, `ClausesComeApart`). |
| `Clauses.SplitClauses` | app/modules/blocks/directives.py:281-316 | The trimmed, non-blank parts, or the line itself (`ClausesComeApart`). |
| `Clauses.CutIsFaithful` | app/modules/blocks/directives.py:273-316 | For every line: parts and used separators concatenate back to it, a part is inverted iff the text directly before it is wholly "instead of", "rather than" or ", not" with its blanks, no quoted span is cut, and no separator outside the spans is missed. |
| `Clauses.SeparatorIsWritten` | app/modules/blocks/directives.py:267-272 | A separator is written in one of four ways, and turns the sign round iff that way is a contrast. |
| `Clauses.ContrastIsInTheText` | app/modules/blocks/directives.py:265-312 | Whether a separator contrasts is told from its own text: the contrast pattern matches the whole of it, which is so iff it has neither a semicolon nor a full stop. |
| `Clauses.SpansAreQuotes` | app/modules/blocks/directives.py:293 | Every quoted span is two backticks on one line with 2 to 200 other characters between them. |
| `Clauses.QuotesAreSpans` | app/modules/blocks/directives.py:293 | And every such pair is one, unless it opens within an earlier one. |
| `ClauseRoundTrip.MarkerSeparates` | app/modules/blocks/directives.py:267-272 | Wherever a separator is written, whatever its blanks, it is seen as it was meant, up to what follows it. |
| `ClauseRoundTrip.ClausesComeApart` | app/modules/blocks/directives.py:273-316 | Any two quiet clauses joined by any separator come apart as they were, the second inverted iff the separator contrasts; inside a quoted span the line stays one clause. |
| `ClauseRoundTrip.QuotedBetweenTicks` | app/modules/blocks/directives.py:293-308 | The separator can only be quoted with a backtick on either side of it. |
| `Clauses.PartsRebuild` | app/modules/blocks/directives.py:303-314 | Nothing of the line is lost or doubled. |
| `Clauses.InvertedIffAfterContrast` | app/modules/blocks/directives.py:310-312 | Only the clause directly after a contrast marker is inverted. |
| `Clauses.SpanIsWhole` | app/modules/blocks/directives.py:293-308 | A quoted span that no separator touches lies whole within one part. |
| `Clauses.NoneIsMissed` | app/modules/blocks/directives.py:306-313 | Wherever a separator could open outside every span, a used one is at work. |
| `Clauses.Extractor.Add` | app/modules/blocks/directives.py:331-340 | Each key once, with the line that first asked for it. |
| `Clauses.Extractor.MineClause` | app/modules/blocks/directives.py:370-403 | What a clause asks for is added to whatever was known. |
| `Clauses.Extractor.MineLine` | app/modules/blocks/directives.py:370-406 | A line adds exactly what its clauses ask for, or itself as prose when that is nothing new. |
| `Clauses.SnippetSignIsItsClauses` | app/modules/blocks/directives.py:374-390 | A quoted snippet is forbidden iff some clause holding it has a prohibition that differs from its inversion, required iff some clause's does not; no other clause has a say. |
| `Clauses.SignsDoNotMix` | app/modules/blocks/directives.py:370-403 | A prohibition asks for no literal, signal or identifier, and nothing else forbids anything. |
| `Clauses.NamesAreTaken` | app/modules/blocks/directives.py:391-403 | The first names of a clause are forbidden, asked for as ports, or required, as its sign and hints say. |
| `Spice.AddLine` | app/modules/blocks/spice.py:90-99 | One physical line: dropped, joined onto the line it continues, or a line of its own. |
| `Spice.LogicalLines` | app/modules/blocks/spice.py:82-100 | The loop folds every line below the title. |
| `Spice.LinesOfText` | app/modules/blocks/spice.py:88 | Splitting undoes joining. |
| `Spice.LayoutIsRead` | app/modules/blocks/spice.py:82-100 | Any layout of cards (continuations at word boundaries, padding, blank and `*` lines, inline comments) reads as those cards, single-spaced. |
| `Spice.FoldingIsInvisible` | app/modules/blocks/spice.py:82-100 | Two layouts of the same cards read the same. |
| `Spice.NestingProblems` | app/modules/blocks/spice.py:142-164 | One problem per unmatched .ends and one if anything stays open; none iff the cards print a properly nested deck. |
| `Spice.KindIsWritten` | app/modules/blocks/spice.py:55-56 | A line counts as opening a subcircuit iff it has the keyword, in any case, and a name behind it, and as ending one iff it has that keyword and not a longer word. |
| `Spice.NoProblemIffNested` | app/modules/blocks/spice.py:142-164 | The running depth agrees with the existence of a nesting tree, both ways. |
| `CanvasContext.ActivePayload` | app/modules/session/canvas_context.py:102-104 | The named blocks of the payload, in order. |
| `CanvasContext.RenderActive` | app/modules/session/canvas_context.py:107-119 | The active part is the payload alone: the fall-back loop over the canvas never adds anything. |
| `CanvasContext.RenderOthers` | app/modules/session/canvas_context.py:121-125 | The blocks of the canvas that are not active, in order. |
| `CanvasContext.PayloadIsTheNamed` | app/modules/session/canvas_context.py:95-106 | The active part is the named active blocks and nothing else, in order, each written out as active. |
| `CanvasContext.OthersAreTheRest` | app/modules/session/canvas_context.py:121-125 | The others are the blocks whose names are not active and nothing else, in order, each written out as another block. |
| `CanvasContext.Pack` | app/modules/session/canvas_context.py:127-139 | The counter loop takes a block iff the joined text ending with it is within the budget. |
| `CanvasContext.RenderCanvasContext` | app/modules/session/canvas_context.py:89-145 | The whole text, with the note's number. |
| `CanvasContext.ShownPlusDroppedIsAll` | app/modules/session/canvas_context.py:133-139 | Every other block is either shown or counted in the note. |
| `CanvasContext.EveryBlockIsAccountedFor` | app/modules/session/canvas_context.py:121-139 | Every block of the canvas is active by name, a part of the text, or counted in the note. |
| `CanvasContext.NoteTellsWhatIsLeft` | app/modules/session/canvas_context.py:140-144 | The text ends with the note, and the number in it, iff blocks were left out. |
| `CanvasContext.BudgetHolds` | app/modules/session/canvas_context.py:134-139 | The text before the note exceeds the budget only if it is the active part alone. |
| `CanvasContext.DroppedNeverFits` | app/modules/session/canvas_context.py:134-137 | A dropped block does not fit behind the finished text either: the packing cannot be extended. |
| `CanvasContext.ActiveBlocksComeFirst` | app/modules/session/canvas_context.py:127-132 | The active blocks lead the text whatever the budget and the canvas. |

## Left out

- Network, Redis, database, queue, web framework, voice relay and SDK calls: each is an arbitrary input; prompt
  wording, scaffold tables, schemas and migrations are data.
- The block agent's goal, summary, model announcement text and its choice of declared tools: `may_wire`,
  `may_create` and `may_mutate_ports` are enforced only by not declaring a tool, so nothing is claimed of them.
- BlockAgent: a cancellation at a socket write (inside a step or report) is not modelled, only at model calls and
  client round trips; a resume that overlaps the old run's final report is outside the model.
- BlockAgent.BlockAgentLoop.Run: pairing is claimed per instruction, not for a whole conversation, because it is
  false there (`LeftBehind`).
- RequestTable: the text turn's own port reads, which the receive loop awaits itself, and a future cancelled from
  outside; the agent step that surfaces a progress note is not sent.
- CanvasLock.LockIsGrantedInTime: takes the limits of a write and of an edit's wait as given.  `SerializedEdits`
  derives that of the wait from timely timers; that a socket write is bounded remains assumed, since nothing in the
  code bounds it.  The enrichment in front of the lock is left out.
- CanvasLock.NobodyStarves: on the same terms.
- AgentRegistry.Registry.OnAgentUserMessage: a registered loop counts as running at once.  Its state is in fact idle
  until its task first runs (app/modules/session/router.py:538-540, 652), so a message already queued then resumes it
  and two runs share one transcript; such an overlap is outside the model.
- AgentRegistry: the map of running asyncio tasks, whose done callback removes entries by block id, and the
  final state message of a stop.
- CredentialLatch: models one process and one sequential run of calls; a blocked or missing key is not a call.
- Entitlements: concurrent resolvers.  The audit call, which with enforcement off resolves and writes both tiers as
  any other look does, is not a request of its own.
- Clauses.SnippetSignIsItsClauses: the patterns inside a clause (parameters, names, prohibition words) are
  arbitrary functions of its text; fenced blocks, `[must appear: ...]` hints and attribution lines are taken off
  before a line reaches this model.  Non-ASCII case folding is left out.
- ClauseRoundTrip.ClausesComeApart: a quiet clause has no semicolon, no full stop, neither "instead" nor "rather", and
  not both a comma and "not"; for clauses that do, `CutIsFaithful` holds.
- VerilogHeader.InferTop: says only that the result is an identifier; which module it names is `TopIsLastHeader`.
- VerilogHeader: a lifetime, a package import or an escaped identifier in a header; `\b` is taken over ASCII word
  characters.
- RepairLoops.AcceptedIsRepair: speaks of the answer without surrounding blank space, as the check itself does;
  the outputs `top` and `interface`, parsed again from the untrimmed code, are left out.
- RepairLoops.GenerateCodeHdl: the checks of a fresh design, of unmet instructions and of the compliance report are
  arbitrary functions; the refusal of a language that is no HDL, the diff and the wording of `improvements` are
  left out.  Its loop and that of `GenerateCodeFix` are one method, `Ask`, since they differ only in the judgement
  and in whether a rejected draft is shown again.
- Spice: the device, analysis, library and supply checks; `\b` after `.ends` is taken over ASCII word characters.
- CanvasContext: how one block is written out; each block carries its two renderings.
