# WLCodex: a verified model of its stateful cores

WLCodex drives long-running coding agents over a JSON-RPC socket and records what happened in a ledger. This project
models the parts where the order of events decides the outcome, and proves what holds over every order.

| files | core |
|---|---|
| `JsonRpc.dfy`, `JsonRpcCalls.dfy` | the JSON-RPC 2.0 client: server requests held open until someone clicks, and numbered client requests |
| `EventFanout.dfy` | one bridge consumer and any number of subscribers on one event stream |
| `PromptTurn.dfy` | waiting for one turn on a shared stream, with hard and idle deadlines and approval pauses |
| `Approval.dfy`, `ApprovalCounter.dfy`, `ApprovalSent.dfy`, `ApprovalCases.dfy`, `ApprovalService.dfy`, `ApprovalDelivery.dfy` | resolving approvals: send first, record afterwards, batch release, the bridge and the projections beside it, and service and client together |
| `QueuedRuns.dfy` | claim, reserve, start, consume or release of queued runs by workers that may fail or crash at every call |
| `AutoTeam.dfy`, `AutoWorkflow.dfy`, `AutoStages.dfy`, `AutoResults.dfy`, `AutoRounds.dfy`, `AutoController.dfy` | the staged `/auto` workflow with Gates A to D and its repair loop |
| `ClaudeStream.dfy` | visible text from Claude stream events, by two parsers |
| `Instincts.dfy`, `DiffFilter.dfy`, `Callbacks.dfy` | evidence merging under upsert, the diff filter, the button codecs |
| `Basics.dfy` | optional values, text helpers, integers as Python prints and reads them |

How the cores are modelled:

- Tables are sequences and maps, and a step is the code between two points where `asyncio` may switch tasks. A run is a
  list of steps, chosen freely. Each core has a step function; the classes carry the same fields as the source, and each
  method is proved to be one step (or to compute one of the functions the steps are made of).
- Artifact validators, the success of sends and launches, clocks and crashes are inputs, so results hold for all of them.
- Where the source does not keep what one would expect, the code is modelled as it is: a lemma gives the run that shows
  it, and the positive result names the exact condition. These are reused request keys (`ReusedKeyStrands`), a response
  inside the timeout window (`TimeoutWindowRaises`), slow handling of foreign events (`LateForeignInterferes`,
  `DelayInterferes`), approval ids shared by tasks or used twice (`TwoTasksShareAnId`, `SecondUseStrands`), a click in flight
  when its task ends (`LateAnswerDisagrees`), a decision that an open prompt projects first (`CancelRecordedAsDenied`), the
  counter while a turn is interrupted or clicks overlap (`InterruptWindow`, `OverlapSlips`), a queue worker that outlives its lease
  (`LateStartDoubles`), a launch that fails after its run was cancelled (`CancelledThenFailed`),
  and an audit resting on an older test report (`OlderTestsCarryTheAudit`).
- The code and its comments disagree in five places, and the model follows the code: `controller.py:998-1000` asks for
  the tests of the current round while `controller.py:4314-4318` takes the newest done tester; `auto_workflow.py:9` says
  a developer never starts without a click, while a failed test gate starts up to two repairs; `parse_line` promises an
  event for every JSON object, which `SilentExactly` bounds; and `resolve_callback` reports a failed send as recorded
  locally while the row keeps its status. `db.py:1121-1123` scopes request ids to a task while the client holds them by id
  alone (`jsonrpc.py:157-159`).

## Model

| member | source | states |
|---|---|---|
| `ServerRequests.Lifecycle` | wlcodex/jsonrpc.py:141-217 | In every interleaving with keys distinct while outstanding, a handled server request is in exactly one of five situations (held, settled but unsent, answered, dropped by a failed write, aborted by close), is answered at most once, is never stranded, and the two tables have the same keys. |
| `ServerRequests.RunKeepsInv` | wlcodex/jsonrpc.py:106-217 | The invariant behind it, over every admissible run: every waiting future is reachable through both tables under its own key, every answer on the wire carries the reply its future was settled with, no two unfinished requests share a key. |
| `ServerRequests.ReplyEchoesId` | wlcodex/jsonrpc.py:150-199 | Section 5 of the JSON-RPC 2.0 Specification, told by the messages that came in: a refusal always carries the raw id of its request and the code -32601; an answer carries the raw id with which its request came in if and only if resolve or reject settled it or that id was a string, and the only other answer is the error -32000 written for a failing handler. |
| `ServerRequests.RefusedInOrder` | wlcodex/jsonrpc.py:146-159 | Over every run, without any condition: the refusals on the wire are, in order, exactly one for each request that found no handler, with its own raw id and -32601, and the requests on record are exactly those that found one, under their own ids. |
| `ServerRequests.RepliedByOwnClick` | wlcodex/jsonrpc.py:106-120 | Every reply of a click is the result, or the code and message, of a resolve or reject in the run with the key of that very request. |
| `ServerRequests.KeysCollideExactly` | wlcodex/jsonrpc.py:146-147 | Two ids share a key if and only if they are equal, or one is the string Python prints for the other. |
| `ServerRequests.HeldCanBeAnswered` | wlcodex/jsonrpc.py:106-112 | From any invariant state a held request can be answered: one resolve by its key and its own sender put exactly that reply, with the raw id, on the wire. |
| `ServerRequests.SenderFreesKey` | wlcodex/jsonrpc.py:200-204 | A sender that finishes removes whatever is held under its key and touches no other request. |
| `ServerRequests.ReusedKeyStrands` | wlcodex/jsonrpc.py:146-159 | Distinct keys are necessary: accepting a request whose key is still in use leads, by sender steps alone, to a request no click can answer. |
| `ServerRequests.NumberAndStringCollide` | wlcodex/jsonrpc.py:146-147 | The ids 1 and "1" are different to JSON and share a key, and two such requests strand the first. |
| `ClientCalls.RunCallsKeepsInv` | wlcodex/jsonrpc.py:50-77 | Over every run: every pending key is an issued id and leads to its own call, every call in flight is pending, no pending call has been replied to. |
| `ClientCalls.DoneStaysDone` | wlcodex/jsonrpc.py:122-140 | A call that has been replied to or given up keeps its result over every continuation. |
| `ClientCalls.RepliedByOwnResponse` | wlcodex/jsonrpc.py:122-140 | Every reply a caller receives comes from exactly one response in the whole run, and that response bears the caller's id. |
| `ClientCalls.CallDiscipline` | wlcodex/jsonrpc.py:50-77 | New ids exceed every id in use, a response nobody waits for changes nothing, and a response raises exactly in the window between the timer and the waiter's clean-up. |
| `ClientCalls.CallsAreIndependent` | wlcodex/jsonrpc.py:50-77 | Over every run each call fares as its own life alone says, whatever happens to the others: its pending entry goes exactly with its response, its caller's wake-up after the timer, or the close, and a response to it raises exactly between timer and wake-up. |
| `ClientCalls.TimeoutWindowRaises` | wlcodex/jsonrpc.py:124-140 | That window is reachable: the unguarded completion meets a cancelled future. |
| `ClientCalls.CloseLeavesNobody` | wlcodex/jsonrpc.py:206-210 | Close empties the pending table and leaves no call in flight. |
| `JsonRpcClientObject.JsonRpcClient.IssueRequest` | wlcodex/jsonrpc.py:50-64 | Issuing takes a new id and registers its call; the server half is untouched. |
| `JsonRpcClientObject.JsonRpcClient.ReceiveResponse` | wlcodex/jsonrpc.py:124-140 | A response is the specified step, and reports a raise exactly when the future was already done. |
| `JsonRpcClientObject.JsonRpcClient.ReceiveServerRequest` | wlcodex/jsonrpc.py:141-159 | A server request is refused or held exactly as in the step machine, whose refusals `RefusedInOrder` describes. |
| `JsonRpcClientObject.JsonRpcClient.FinishHandler` | wlcodex/jsonrpc.py:161-169 | A failing handler settles an open future with the handler error and no raw id. |
| `JsonRpcClientObject.JsonRpcClient.SettleServerRequest` | wlcodex/jsonrpc.py:106-120 | Resolve and reject pop both tables and settle the future only if it is still open. |
| `JsonRpcClientObject.JsonRpcClient.WriteHeldResponse` | wlcodex/jsonrpc.py:182-199 | The sender up to its await hands over the reply, with the raw id or the key, or frees the key if there is nothing to write. |
| `JsonRpcClientObject.JsonRpcClient.FinishHeldResponse` | wlcodex/jsonrpc.py:202-204 | After the await the sender frees the key. |
| `JsonRpcClientObject.JsonRpcClient.RunSender` | wlcodex/jsonrpc.py:182-204 | The two halves in a row are the two sender steps. |
| `JsonRpcClientObject.JsonRpcClient.ResolveServerRequest` | wlcodex/jsonrpc.py:106-112 | Resolving is the specified step. |
| `JsonRpcClientObject.JsonRpcClient.RejectServerRequest` | wlcodex/jsonrpc.py:114-120 | Rejecting is the specified step. |
| `JsonRpcClientObject.JsonRpcClient.CloseClient` | wlcodex/jsonrpc.py:206-217 | The two loops of close cancel exactly the open futures reachable from the tables, and the tables end empty. |
| `EventFanout.FanoutRefinesLog` | wlcodex/codex_backend.py:1256-1289 | Over every interleaving: consumed events followed by the bridge queue are the whole log, a subscriber's received events followed by its inbox are the log from when it joined to when it left, and a sleeping consumer with a non-empty queue has its wakeup set. |
| `EventFanout.EveryoneHears` | wlcodex/codex_backend.py:1266-1289 | The same told by the operations alone: the consumer gets every event emitted, in order, and a subscriber every event emitted between its subscription and its leaving. |
| `EventFanout.SubscriberProgress` | wlcodex/codex_backend.py:1280-1283 | Taking from a non-empty inbox hands over its oldest event and touches nobody else. |
| `EventFanout.ConsumerProgress` | wlcodex/codex_backend.py:1256-1264 | Whenever the queue is not empty, polling or waking hands over its oldest event. |
| `EventFanout.WithoutRemoves` | wlcodex/codex_backend.py:1285-1289 | Removing a subscriber removes that one and no other, and keeps the list free of duplicates. |
| `EventFanout.EventBus.Publish` | wlcodex/codex_backend.py:1266-1272 | The subscriber loop delivers one copy to each listed inbox and sets an existing wakeup. |
| `EventFanout.EventBus.Advance` | wlcodex/codex_backend.py:1256-1264 | One resumption of the generator yields the oldest queued event or goes to sleep with a cleared wakeup. |
| `EventFanout.EventBus.Join` | wlcodex/codex_backend.py:1280-1283 | Subscribing adds one empty inbox. |
| `EventFanout.EventBus.Leave` | wlcodex/codex_backend.py:1285-1289 | Unsubscribing freezes that inbox. |
| `PromptTurn.NonInterference` | wlcodex/codex_backend.py:1133-1147 | Deleting from a timed stream every event that is not a backend error, does not match the turn and is no approval request on its thread leaves text, error or timeout reason unchanged, as long as handling such an event ends before the deadline in force while the clock runs, and every relevant event it keeps waiting leaves the same deadlines as it would have unhindered. |
| `PromptTurn.SameThreadNonInterference` | wlcodex/codex_backend.py:1070-1074 | In particular, a stream that mixes the events of two turns, on the same thread or not, comes out as if only the events that name the prompt's own turn had been sent. |
| `PromptTurn.EventsActedOn` | wlcodex/codex_backend.py:1047-1074 | On payload fields: a backend error ends every prompt; an event that names the prompt's turn, in its turn object or else in its turn id, is acted on whatever its thread; one that names another turn leaves the loop unchanged, unless it is an approval request on the prompt's thread; one that names none is acted on exactly if it is on the thread; and what acting means for deadlines, text, statuses and error messages, kind by kind. |
| `PromptTurn.TakesExactly` | wlcodex/codex_backend.py:1094-1132 | The loop takes the next event exactly while an approval is open, or before both deadlines, and otherwise ends in a timeout. |
| `PromptTurn.AtOnceIsInTime` | wlcodex/codex_backend.py:1140-1147 | Handling that takes no time meets both bounds in every ordered stream. |
| `PromptTurn.LateForeignInterferes` | wlcodex/codex_backend.py:1094-1132 | The deadline bound is necessary in every state with the clock running: handling that reaches past the deadline loses the completion right behind it to a timeout. |
| `PromptTurn.LagInterferes` | wlcodex/codex_backend.py:1094-1122 | So for every configuration, every foreign event and every positive handling time there is a stream that one such event turns from an answer into a timeout. |
| `PromptTurn.DelayInterferes` | wlcodex/codex_backend.py:1082-1090 | The second bound is necessary: holding up the event that resumes the turn moves the hard deadline and turns a timeout into an answer. |
| `PromptTurn.ApprovalDelayMoves` | wlcodex/codex_backend.py:1082-1090 | While an approval is open every delay of the event that ends it moves the deadline by as much. |
| `PromptTurn.LoopHeadAccount` | wlcodex/codex_backend.py:1094-1162 | At every loop head reached, the variables obtained by reacting to the events one by one are those of the account: hard deadline is start plus limit plus the finished approval waits, idle deadline the last matching event plus the idle limit, text that of this turn; and the verdict is decided from there. |
| `PromptTurn.VerdictIsJustified` | wlcodex/codex_backend.py:1096-1201 | A hard timeout means at least the hard limit of active time, an idle timeout a full idle period without an event of this turn, no timeout falls into an approval wait, an answer is exactly this turn's text up to a completion that did not end badly, and an error carries the message of a backend error or of this turn's failure. |
| `PromptTurn.AwaitTurn` | wlcodex/codex_backend.py:1093-1201 | The loop with its deadlines and pauses computes the specified verdict. |
| `PromptTurn.HandleEvent` | wlcodex/codex_backend.py:1133-1173 | The body that follows the queue read computes the specified reaction, which `EventsActedOn` describes on the payload. |
| `Approvals.DecidedOnce` | wlcodex/db.py:1374-1391 | Over any run with any number of overlapping clicks, a row that has left pending keeps its status for ever, and rows keep task, request and kind. |
| `Approvals.BeginOpensExactly` | wlcodex/approval.py:67-128 | A click goes out exactly on a pending row of a task that is queued, running, waiting for approval, paused, waiting for a slot or archived, for an action the workspace allows; on a done, failed or aborted task it cancels a pending row, lowers the counter and sends nothing; and any other click changes nothing. |
| `ApprovalSent.RecordedIsSent` | wlcodex/approval.py:129-182 | However clicks overlap with each other, with the bridge and with projections of an open prompt, and although ids come back once nothing that carries them is pending, waiting to be recorded or being clicked: every answer goes to the request its row was created for, no request is answered twice, and the row carries the status of the answer if and only if neither exception applies: the row had been closed because its task was over and the answer was no cancellation, or an open prompt projected the answer first and reads another status off it. |
| `ApprovalSent.ProjectionAgrees` | wlcodex/runtime_projector.py:760-771 | What a projection reads off the response to an action is the status the click records, exactly for: an approval, unless it grants an empty set of permissions; an approval for the session, likewise, and under the older review protocol only if sessions are not allowed; a denial; never a cancellation. |
| `ApprovalSent.ProjectedExactly` | wlcodex/orchestration_runner.py:166-178 | When it comes first: in every reachable state, sending the decision of a pending row closes it by projection if a projecting prompt is open for its task and by the click otherwise, and changes no row that is not pending. |
| `ApprovalSent.RowTellsItsAnswer` | wlcodex/db.py:1374-1391 | From the row: one closed by a click or a projection has an answer exactly if its own request was still held, carries the status recorded for that answer, is never closed by the answer of another row, and its request is held no more. |
| `ApprovalSent.ReusedIdMisleads` | wlcodex/db.py:1121-1132 | Idle ids are necessary: in every reachable state, a request that arrives under an id some pending row, waiting request or click under way still carries, for whatever task, leads by events of the bridge, clicks and at most one change of a task status to an answer given to the wrong request. |
| `ApprovalCases.TwoTasksShareAnId` | wlcodex/db.py:1121-1132 | Two tasks with the same id, which the ledger accepts: approving the first answers the second task's request, and the second is then recorded as denied. |
| `ApprovalSent.SecondUseStrands` | wlcodex/db.py:1310-1342 | An id a task has used before gets no second row: the new request stays held, whatever is clicked, until the client itself lets go of it. |
| `ApprovalSent.RunKeepsSent` | wlcodex/task_service.py:718-785 | The invariant behind these, over every admissible run, requests on their way to become rows included: rows in play and waiting requests have different ids, and no answer on its way to the bridge meets a pending row. |
| `ApprovalCases.LateAnswerDisagrees` | wlcodex/approval.py:73-90 | The first exception is reachable in a run whose ids are idle when they arrive: a click in flight when the task ends is delivered as an approval of a row already recorded as cancelled. |
| `ApprovalCases.CancelRecordedAsDenied` | wlcodex/runtime_projector.py:760-771 | The second is reachable in such a run from an empty ledger: a command approval cancelled while a prompt is open for its task is answered as cancelled and recorded as denied. |
| `ApprovalDelivery.RecordedMeansDelivered` | wlcodex/codex_backend.py:1215-1226 | Service and client together over whole runs, reconnects included: a row closed by a click, or by the projection of its answer, while its request was held has settled that request, and unless the request's handler had failed the only reply ever on the wire for it is the response of the action the row records, under its own raw id, exactly one once the sender has delivered. |
| `ApprovalDelivery.DeliveredIsAnswered` | wlcodex/codex_backend.py:1215-1226 | The other way round: every request the client settled by a click has its answer in the books, with that row and action. |
| `ApprovalDelivery.RunKeeps` | wlcodex/approval.py:129-182 | The link between the two tables of held requests, the answers and the futures, over every run of both sides. |
| `ApprovalDelivery.AnswerReachesWire` | wlcodex/codex_backend.py:1215-1226 | A decision reaches the wire under the request's own raw id if and only if the request is still held and unsettled; otherwise nothing changes at the client although the service sees no error. |
| `ApprovalDelivery.SecondAnswerIgnored` | wlcodex/jsonrpc.py:106-112 | The second of two answers to one request changes nothing at the client. |
| `ApprovalCounter.CounterBounded` | wlcodex/db.py:1610-1623 | In every interleaving the pending counter is at most the pending rows plus the rows closed by the projection of another row's answer plus the clicks that have recorded a decision and are still interrupting the turn. |
| `ApprovalCounter.StaysAccurateExactly` | wlcodex/approval.py:73-190 | Step by step, an accurate counter stays accurate if and only if the step does not slip: it neither settles an already decided row (by delivery, in a batch, or as a click on a finished task) with the counter above zero or a turn to interrupt, nor inserts a row uncounted. |
| `ApprovalCounter.AccurateExactly` | wlcodex/approval.py:73-190 | Over any run from an empty ledger, the counter equals that sum throughout if and only if no step slips. |
| `ApprovalCounter.OverlapSlips` | wlcodex/approval.py:170-182 | Overlap breaks it: with two clicks under way on one of two pending rows, the second delivery lowers the counter once more and leaves it below the rows. |
| `ApprovalCounter.OverlapReached` | wlcodex/approval.py:67-128 | That state is reached from an empty ledger by two requests and two clicks. |
| `ApprovalCounter.InterruptWindow` | wlcodex/approval.py:156-171 | That second term is needed: a run from an empty ledger reaches a state in which the counter exceeds the pending rows. |
| `ApprovalCounter.DeliveryLeadsTo` | wlcodex/approval.py:138-182 | After a delivery the turn is interrupted exactly for a cancelled permission request with an active turn, a batch follows exactly a session approval of a command while another command of the task is pending, and the counter goes down at once unless an interrupt comes first. |
| `ApprovalCounter.CounterExact` | wlcodex/approval.py:170-190 | With callbacks that do not overlap and none on a finished task, rows counted as inserted and no answer projected onto another row, the counter equals that sum at every step. |
| `ApprovalCounter.CounterExactBetweenCallbacks` | wlcodex/approval.py:170-190 | So between callbacks it is exactly the number of pending rows. |
| `ApprovalCounter.CallbackMovesTask` | wlcodex/approval.py:184-190 | A callback moves a task only from waiting to running and only with no pending row, and one that ends well leaves it waiting only if a row is pending. |
| `ApprovalCounter.FailedSendChangesNothing` | wlcodex/approval.py:131-136 | A failed send, of the clicked row or inside the batch, changes no status, counter or held request; the clicked row's changes no task either, and the last of a batch can only resume a waiting task with nothing pending. |
| `ApprovalCounter.BatchIdsAreRows` | wlcodex/approval.py:241-248 | The batch runs over exactly the other pending command rows of the task, each once. |
| `ApprovalServiceObject.ApprovalService.ResolveCallback` | wlcodex/approval.py:67-197 | One callback end to end, with the exact condition of each outcome in terms of the task's nine statuses: missing, finished task (done, failed or aborted), already decided, read only, failed send, resolved. A resolved one gives the clicked row the status and resolution of its action, or the status of the projection if a prompt is open for its task, gives the client that answer first and then session approvals of the batch, settles exactly the batch, keeps an accurate counter accurate, leaves the task waiting only with something pending, and interrupts the turn exactly of a cancelled permission request with an active turn; each other outcome states the whole state it leaves. |
| `ApprovalServiceObject.ApprovalService.Record` | wlcodex/approval.py:138-190 | Steps 6 to 9 of a click whose send works, with those effects. |
| `ApprovalServiceObject.ApprovalService.ApproveBatch` | wlcodex/approval.py:233-270 | The batch loop settles exactly the other pending command rows whose send works, leaves none of their requests held, gives session approvals and lets go of exactly the requests it gave one, and lowers the counter by their number. |
| `ApprovalServiceObject.ApprovalService.SettleTask` | wlcodex/approval.py:184-190 | Only a waiting task without pending rows goes back to running. |
| `QueuedRuns.StartedOnce` | wlcodex/controller.py:6303-6497 | Whatever fails or crashes, if launches start within their lease a queued run is started at most once, and once live its latest lease event stays the starter's claim or consumption, so nobody releases it and nobody can ever claim it. |
| `QueuedRuns.ReleaseMeansNotStarted` | wlcodex/controller.py:6454-6497 | Without any hypothesis: a worker that released its claim never got a launch going, and a live launch has its start marker and none of its rows failed. |
| `QueuedRuns.LeaseDecides` | wlcodex/runtime_event_store.py:180-190 | After any timely run, while a worker stands before the start within its lease its event is not the next to be claimed, in any workspace. |
| `QueuedRuns.ClaimsOldestFree` | wlcodex/runtime_event_store.py:148-231 | Read off the log entries: opening a worker for a workspace claims, for 300 seconds, the oldest event queued for that workspace with no consumption, start or recovery mark and no unexpired claim as its last lease entry, and changes nothing exactly if there is none. |
| `QueuedRuns.ClaimsKeepTheirWorkspace` | wlcodex/runtime_event_store.py:177-200 | Over every run, every claim by a worker opened for a workspace names an earlier event queued for that very workspace. |
| `QueuedRuns.MarksWritten` | wlcodex/runtime_event_store.py:233-346 | A release is written exactly if the last lease entry of the event is the worker's own claim, a consumption exactly if besides nothing consumed the event, and a start whoever holds the lease. |
| `QueuedRuns.LastStartExactly` | wlcodex/controller.py:6404-6430 | In any state: once a worker starts its event, no continuation starts it again if and only if no other worker stands before the start of that event. |
| `QueuedRuns.ClaimableAtStartDoubles` | wlcodex/controller.py:6404-6430 | In any state where a worker stands before the start of an event that is next in line, opening one more worker lets both start it. |
| `QueuedRuns.LateStartDoubles` | wlcodex/controller.py:6404-6430 | Such a state is reachable from an empty store when a worker outlives its lease, and that run is not a timely one. |
| `QueuedRuns.ConsumedOnce` | wlcodex/runtime_event_store.py:292-319 | Over every run, with no hypothesis, a queue event is consumed at most once, counted on the log. |
| `QueuedRuns.HolderFindsNoConsumption` | wlcodex/runtime_event_store.py:292-319 | In every reachable state, a worker that still holds its claim finds no consumption of its event. |
| `QueuedRuns.CallOutcome` | wlcodex/controller.py:6333-6497 | One call under any placement of failures: live exactly when its six calls work; consumed unless that call fails; otherwise the task, run or agent row stays in the ledger unfailed exactly if its create call wrote it and then raised or the call that should fail it fails, and the claim is released unless the failure report or the release fails. |
| `QueuedRuns.DriveIsRun` | wlcodex/controller.py:6303-6497 | A call carried through without interruption is one of the runs of the interleaved machine. |
| `QueuedRuns.NextRunnable` | wlcodex/runtime_event_store.py:148-200 | The claim takes the oldest event of the workspace that is not handed off and not under an unexpired lease, and nothing exactly when there is none. |
| `QueueConsumerObject.QueueConsumer.ClaimNext` | wlcodex/runtime_event_store.py:148-231 | The scan over the log claims exactly the oldest free event of the workspace, and nothing exactly if there is none. |
| `QueueConsumerObject.QueueConsumer.LatestLease` | wlcodex/runtime_event_store.py:503-523 | The backward search finds the latest lease event. |
| `QueueConsumerObject.QueueConsumer.IsHandedOff` | wlcodex/runtime_event_store.py:463-483 | The search finds whether the event was consumed, started or marked for recovery. |
| `QueueConsumerObject.QueueConsumer.IsSpent` | wlcodex/runtime_event_store.py:299-312 | The search of consume for an earlier consumption. |
| `QueueConsumerObject.QueueConsumer.Call` | wlcodex/runtime_event_store.py:233-346 | A ledger, event or launch call writes its mark only if it got that far, release and consume only under the worker's own claim, and consume only if nothing was consumed before. |
| `QueueConsumerObject.QueueConsumer.ProcessQueuedRuns` | wlcodex/controller.py:6303-6497 | The whole method with its try blocks and compensation is the specified drive, with the outcome above; it does nothing when dispatch is frozen, the workspace is blocked or nothing is runnable. |
| `AutoResults.RepairLoopBounded` | wlcodex/controller.py:3575-3597 | Over any run whatsoever, the failed tests of one team start at most MAX_INTERNAL_TEST_ATTEMPTS - 1 repairs that nobody clicked for, counted on the steps of the run. |
| `AutoResults.DevelopersNeedClicks` | wlcodex/auto_workflow.py:8-13 | Over any run there are at most as many developer agent runs as clicks asking for one, plus two automatic repairs for each run. |
| `AutoWorkflow.CompletedMeansAudited` | wlcodex/event_bridge.py:1197-1239 | A completed team run has a passing audit report that meets Gate D, on an auditor job created right after Gate B passed on the then newest done implementer and Gate C on the then newest done tester, and Gate A had passed before the team had any implementer. |
| `AutoStages.CompletedRunsAreAudited` | wlcodex/event_bridge.py:1197-1239 | In every reachable state, an active team run that waits as completed has a completed team, and so a passing audit behind Gates A to D. |
| `AutoStages.AuditOutcome` | wlcodex/event_bridge.py:1185-1251 | When an audit of the active run ends, the run goes to completed if and only if the report passes and either the run has no team or the report is valid and the first of a running auditor job of that agent run, and otherwise to retry ready; the team is completed with it and else keeps its status; a failed audit fails run and team. |
| `AutoStages.ImplementationOutcome` | wlcodex/event_bridge.py:1153-1196 | When Codex work on the code ends, the run goes to retry ready if and only if it is the first report of a running implementer job of that agent run, its tester has no report yet and the test report fails, and otherwise is ready for the audit; a failed one fails the run. |
| `AutoStages.ReadingOutcome` | wlcodex/event_bridge.py:1096-1152 | Analysis ends in collected context, a final plan in a draft, a take-over in a passed run, each with a plan exactly if its text says something; one that fails changes nothing. |
| `AutoStages.RecordedPlanOpens` | wlcodex/event_bridge.py:1424-1480 | A valid final plan of the first role opens Gate A and closes its job. |
| `AutoStages.GatesExactly` | wlcodex/controller.py:4303-4344 | Gate A passes exactly on a valid newest diagnosis (bug) or plan (feature), Gate B on a valid newest report of the newest done implementer, Gate C on a valid newest test report of the newest done tester. |
| `AutoStages.ClicksLead` | wlcodex/controller.py:2864-4931 | The table of the workflow: from every reachable state, the stage and status to which each click and the end of Claude's work lead the active run, by its stage and status, by what is enabled and by the reports its gates read; no other run moves. |
| `AutoStages.ClicksEmploy` | wlcodex/controller.py:2864-4931 | From every reachable state, which clicks start an agent run, in which role and with which backend; it becomes the conversation's active task and a team gets exactly one job for it; any other click leaves agent runs, active task and launches alone. |
| `AutoStages.RepairScheduledExactly` | wlcodex/controller.py:3575-3597 | A repair without a click is scheduled exactly when Claude's work ends in a failed test and the team has had fewer than three testers, that one included. |
| `AutoStages.RepairLeads` | wlcodex/controller.py:3662-3683 | When it runs, it hands the run that is active then to Claude if that run waits for an audit or a retry, sends it back for a retry if no lease is to be had, and leaves any other where it is. |
| `AutoWorkflow.BuildersAreGated` | wlcodex/controller.py:3867-3881 | Every implementer or auditor job of every reachable state has Gate A behind it, and every auditor job Gates B and C at the moment it was created. |
| `AutoWorkflow.StatusDiscipline` | wlcodex/auto_workflow.py:41-55 | In every reachable state running goes with a running stage and needs_user with a waiting stage, collected context or completion, and the ledger lookup finds a run exactly if that run is active, so at most one is. |
| `AutoWorkflow.RunAllKeeps` | wlcodex/controller.py:2864-4931 | The invariant behind these, over every interleaving of handlers, launches, completions and repairs. |
| `AutoResults.FinishedStaysFinished` | wlcodex/controller.py:4888-4931 | A step changes the status of a finished run if and only if it is the late failure of a launch made for that run, and then to failed. |
| `AutoResults.NeverReopened` | wlcodex/db.py:2195-2223 | A finished run is never active again, and a failed one stays failed. |
| `AutoResults.CancelledThenFailed` | wlcodex/controller.py:3033-3050 | The late failure is reachable: a cancelled run ends as failed. |
| `AutoTeam.TestedIsTester` | wlcodex/controller.py:4314-4318 | The fallback of Gate C to an implementer job never passes, because test reports sit on tester jobs. |
| `AutoRounds.CurrentRoundExactly` | wlcodex/controller.py:4303-4344 | In every reachable state, for every active run on which Gates B and C pass: the tests Gate C reads belong to the implementation Gate B reads if and only if the newest tester is done. |
| `AutoRounds.RunAllRounds` | wlcodex/controller.py:3339-3607 | The invariant behind it: every done implementer of an active run is followed by its own tester, the newest by the newest, and no Codex work can complete while Claude's job is running. |
| `AutoResults.GateCReads` | wlcodex/controller.py:4314-4344 | Gate C reads the newest tester exactly when that tester is done. |
| `AutoResults.OlderTestsCarryTheAudit` | wlcodex/controller.py:4303-4344 | The current-round reading is false: in a reachable state an implementation whose own tests failed passes Gate C on the report of the round before and its audit begins. |
| `AutoTeam.ChecksKeep` | wlcodex/controller.py:4303-4344 | Gates B and C passed in a row leave exactly the record that backs the auditor job created next. |
| `AutoTeam.CheckPlanKeeps` | wlcodex/controller.py:761-769 | Once Gate A passes, the record shows a pass from before the first implementer. |
| `AutoTeam.AuditKeeps` | wlcodex/event_bridge.py:1760-1817 | Recording an audit keeps everything the ledger holds about the team, changes no tester, and completes the team exactly if the report is valid and passing and the first of a running auditor job of that agent run; then it is on that job, and otherwise the status of the team is unchanged. |
| `AutoTeam.BuildKeeps` | wlcodex/event_bridge.py:1537-1660 | Recording an implementation keeps the ledger in order, and on the Claude path adds exactly one tester whenever it yields a verdict. |
| `AutoControllerObject.AutoController.HandleVerify` | wlcodex/controller.py:4275-4606 | The audit handler, row write by row write, is the specified step. |
| `AutoControllerObject.AutoController.PassAuditGates` | wlcodex/controller.py:4303-4344 | The two gate calls with their fallbacks log and refuse as specified. |
| `AutoControllerObject.AutoController.HandleSendToClaude` | wlcodex/controller.py:3827-4041 | The hand-over to the developer is the specified step, Gate A and refused lease included. |
| `AutoControllerObject.AutoController.HandleSendRepair` | wlcodex/controller.py:4683-4886 | The repair handler is the specified step. |
| `AutoControllerObject.AutoController.TransitionClaudeCompleted` | wlcodex/controller.py:3339-3607 | The completion of Claude work, with its report, tester, attempt count and scheduled repair, is the specified step. |
| `AutoControllerObject.AutoController.AdvanceOnCompletion` | wlcodex/event_bridge.py:1037-1263 | The completion of Codex work, by the role of the agent run, is the specified step, whose outcomes the `AutoStages` rows describe. |
| `AutoControllerObject.AutoController.FindActive` | wlcodex/db.py:2195-2223 | The lookup finds the newest run that is running or waiting. |
| `AutoControllerObject.AutoController.LatestTeamJob` | wlcodex/controller.py:826-838 | The reversed scan finds the newest job of a role and status. |
| `AutoControllerObject.AutoController.RunningTeamJob` | wlcodex/event_bridge.py:1380-1397 | The scan finds the first running job of a role for an agent run. |
| `AutoControllerObject.AutoController.TesterAttempts` | wlcodex/controller.py:3686-3693 | The attempt count is the number of tester jobs. |
| `ClaudeStream.AccumulatorIsSuffix` | wlcodex/claude_stream_parser.py:45-99 | Over any stream of decoded lines the accumulator is a suffix of the visible text. |
| `ClaudeStream.SnapshotIsShown` | wlcodex/claude_stream_parser.py:204-306 | After a non-empty snapshot the visible text ends with it. |
| `ClaudeStream.SnapshotIsBlockTexts` | wlcodex/claude_stream_parser.py:204-262 | The snapshot of a message is its plain text or the texts of its blocks in order; other blocks add none, and the tool events are those of the tool blocks, in order. |
| `ClaudeStream.LinesTell` | wlcodex/claude_stream_parser.py:45-99 | What each kind of line shows and accumulates, in terms of the line's fields. |
| `ClaudeStream.RawLineParts` | wlcodex/claude_stream_parser.py:62-72 | A line that is not JSON is shown without being accumulated, and breaks the suffix. |
| `ClaudeStream.NoGapNoRepeat` | wlcodex/claude_stream_parser.py:125-141 | Before any result fallback, if every snapshot extends the accumulator, the visible text is the accumulator. |
| `ClaudeStream.ParsersAgreeExactly` | wlcodex/claude_backend.py:747-803 | From the same state the two parsers show and accumulate the same on a line if and only if its snapshot extends the accumulator, an empty result subtype shows nothing, and a block start carries no text. |
| `ClaudeStream.ParsersAgree` | wlcodex/claude_backend.py:747-803 | So on every stream of such lines the two parsers give the same visible text and accumulator. |
| `ClaudeStream.SilentExactly` | wlcodex/claude_stream_parser.py:51-56 | A JSON object yields no event exactly if it is an assistant line without a message or a successful result with nothing new in it. |
| `ClaudeStream.FeedAdds` | wlcodex/claude_stream_parser.py:204-382 | What each kind of line adds to the visible text, through all the events it produces. |
| `ClaudeStreamLoops.HandleAssistantItems` | wlcodex/claude_stream_parser.py:204-306 | The one pass over the blocks of a message produces the specified events and accumulator. |
| `ClaudeStreamLoops.SendStreaming` | wlcodex/claude_backend.py:339-364 | The accumulation loop shows the specified text of the whole stream if no text on the way asks for permission, and otherwise stops at the first event whose text does. |
| `ClaudeStreamLoops.ShowEvents` | wlcodex/claude_backend.py:352-364 | One line's events are shown in order, up to the first that makes the text ask for permission. |
| `Instincts.StoredIsFold` | wlcodex/db.py:2565-2689 | After any sequence of upserts of any instincts, an instinct is stored exactly if it was upserted, with the largest confidence once each is brought between nought and one, the first-occurrence de-duplication of all trimmed non-empty references, the first creation time and the newest text. |
| `Instincts.ActiveNotDemoted` | wlcodex/db.py:2644-2645 | An active instinct stays active through any number of candidate upserts. |
| `Instincts.DedupMeaning` | wlcodex/db.py:3367-3376 | De-duplication keeps exactly the references given, none twice, in the order of their first occurrences. |
| `Instincts.EachIsTrimmed` | wlcodex/db.py:3351-3364 | Each reference goes in without the blanks around it and in its place, unless it is blank. |
| `Instincts.MergeMeans` | wlcodex/db.py:3367-3376 | Merging normalized groups is normalizing all references at once. |
| `InstinctLedgerObject.NormalizeRefs` | wlcodex/db.py:3351-3364 | The loop with its seen set computes the normalized references. |
| `InstinctLedgerObject.MergeRefs` | wlcodex/db.py:3367-3376 | The nested loops compute the normalized union of the groups. |
| `InstinctLedgerObject.InstinctLedger.UpsertTeamInstinct` | wlcodex/db.py:2565-2689 | An upsert changes the one row as specified, and a draft with a missing field changes nothing. |
| `DiffFilter.FilterDiff` | wlcodex/controller.py:234-263 | Both branches of the one-pass filter give, before the final strip, the in-scope stat lines ahead of the first header followed by exactly the sections whose header path is in scope, in order. |
| `DiffFilter.SplitJoins` | wlcodex/controller.py:241-256 | Sections lose nothing: joined again they are the lines, and each is a header with the lines up to the next. |
| `DiffFilter.JoinSplits` | wlcodex/controller.py:241-256 | Joining proper sections and splitting again gives them back. |
| `DiffFilter.ScopingComposes` | wlcodex/controller.py:234-263 | Filtering to one set of files and then to another is filtering to their intersection, so filtering twice changes nothing. |
| `DiffFilter.HeaderPathMeans` | wlcodex/controller.py:266-271 | The path of a header is its third word without a leading "a/", whatever blanks and words surround it, and nothing if there is no third word. |
| `DiffFilter.HeaderExactly` | wlcodex/controller.py:241-248 | A header is exactly a line that begins with the two tags and a blank. |
| `DiffFilter.StatPathMeans` | wlcodex/controller.py:274-281 | The path of a stat line is what stands before its first bar, trimmed and cut at 200 characters, and nothing if that is empty, begins with a digit, or there is no bar. |
| `Callbacks.ApprovalRoundTrip` | wlcodex/approval.py:28-39 | An approval callback survives encoding for every integer id if and only if its action has no colon. |
| `Callbacks.ConversationRoundTrip` | wlcodex/conversation_callback.py:75-94 | A conversation callback survives encoding for every integer id and every action. |
| `Callbacks.BusyRoundTrip` | wlcodex/conversation_state_machine.py:226-277 | A busy callback survives encoding for every integer id if and only if the action is one of the five. |
| `Callbacks.DecodersDisjoint` | wlcodex/conversation_state_machine.py:260-277 | No string is accepted by two of the three decoders. |
| `Callbacks.ApprovalAccepts` | wlcodex/approval.py:32-39 | Exactly the strings of tag, readable integer and colon-free action are accepted as approvals. |
| `Callbacks.ConversationAccepts` | wlcodex/conversation_callback.py:80-94 | Exactly the strings of tag, readable integer and any action are accepted as conversation callbacks. |
| `Callbacks.BusyAccepts` | wlcodex/conversation_state_machine.py:260-277 | Exactly the strings of one of the five prefixes and a readable integer are accepted as busy callbacks. |
| `Decimal.ParseIntExactly` | wlcodex/approval.py:32-39 | A text is read as an integer exactly if, trimmed, it is digits with single underscores between them and at most one sign, and then as the number they write. |
| `Callbacks.DecodeBusy` | wlcodex/conversation_state_machine.py:260-277 | The scan over the prefixes computes the decoder. |

## Left out

- PromptTurn.NonInterference: one clock reading is used per event, arrivals are in order, and the interrupt sent after a timeout is not modelled. Handling times move the clock, so streams are excluded in which handling a foreign event passes the deadline in force, or keeps a relevant event waiting so that its deadlines come out different; `LateForeignInterferes` and `DelayInterferes` show that either changes outcomes.
- PromptTurn.VerdictIsJustified: error texts are the payload fields the loop picks; the text Python prints for a whole error object is an input, and non-string ids are not modelled.
- ServerRequests.Lifecycle: ids are integers, strings and null (Python also equates 1, 1.0 and true as dictionary keys), a handler runs to its end even when its receive loop is cancelled, and a failed write is one that never reached the wire.
- ClientCalls.RepliedByOwnResponse: the bodies of responses are opaque strings; a caller cancelled from outside behaves like one whose timer fired.
- ApprovalSent.RecordedIsSent: needs ids to be idle when they come back, which the source does not check; `ReusedIdMisleads` shows why. Task status changes by other services are free steps; which tasks have a projecting prompt, and whether another service manages the task of an answer the bridge takes, are inputs. Expiry of old approvals is left out, and so is an event the bridge fails on.
- ApprovalDelivery.RecordedMeansDelivered: speaks of requests of the current connection, and a request reaches the bridge's queue in the same step as the client holds it, while the source's handler runs as a task of its own.
- ApprovalCounter.CounterBounded: a row that an open prompt's projection inserts first (`runtime_projector.py:741-757`) is a row the bridge does not count; that such a row can be clicked before the bridge gets to the event is not modelled.
- ApprovalServiceObject.ApprovalService.ResolveCallback: the object runs one callback at a time; overlapping callbacks are in the step machine. Unknown action strings, whose branch changes nothing, and reply texts are left out. That a task has one row for an id is the ledger's unique index.
- QueuedRuns.StartedOnce: needs every start to happen before its lease runs out, which the source does not check; `LateStartDoubles`, `ClaimableAtStartDoubles` and `LastStartExactly` show why and when. Queue markers from before causation ids, and the projection of events, are left out; workspace names are not blank, and an event keeps the workspace its conversation had when it was queued.
- Recovery at start-up (`db.py:1666-1690`) and what the event projector writes to orchestration runs (`runtime_projector.py`): not steps of any machine here, since both rewrite rows outside the handlers that are modelled.
- AutoWorkflow.CompletedMeansAudited: one conversation is modelled; the rows of other conversations are never touched by its steps. Ledger writes do not fail; leases, context packets and launches do. The validators are uninterpreted, and the evidence the gates merge into a payload before validating is part of the payload. The adaptive-team switch does not change during a run.
- AutoWorkflow.OnActive: plain text is one step; in the source a steering attempt may suspend between the stage change and the reservation that follows a failed attempt, and the lock on the workspace, which makes such a reservation fail while other work is active, is the lease input here.
- AutoResults.RepairLoopBounded: counts by the run whose tests failed; the repair itself acts on whichever run is active when it starts, as in the source.
- AutoControllerObject.AutoController.AdvanceOnCompletion: the diagnosis JSON, observations and instincts recorded beside an audit, and messages to the user are left out; the composition of a report row is one function shared by the method and the step.
- AutoControllerObject.AutoController: routing, planning, plain text, take-over, close and cancel are modelled as steps of the machine on values, not as methods.
- ClaudeStream.AccumulatorIsSuffix: starts after JSON decoding; which texts look like a permission request is an input of the streaming loop.
- ClaudeStream.ParsersAgree: compares visible text and accumulator, not usage, session or activity events.
- Instincts.StoredIsFold: confidence is a real number, blanks are the ASCII ones Python knows, times are numbers in a common zone, and one string stands for the text columns that are simply replaced.
- DiffFilter.FilterDiff: works on lines; splitting the text, joining it and the final strip are left out.
- Callbacks.ApprovalRoundTrip: integers are read from ASCII digits with signs, blanks and underscores; other Unicode digits are left out.
- WebSocket, subprocess, SQLite and Telegram input and output, and process control: only their success or failure appears.
- Prompt, packet and card texts, labels, menus, digests and redaction: presentation.
- Configuration, health reports, usage accounting, message routing and intent classification: settled by reading one branch.
