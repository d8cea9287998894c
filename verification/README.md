# Verification of the negotiation backend

A Dafny model of the second-hand negotiation backend and proofs about it. It covers the parts where
many things interleave or where a guard and its consequences sit in different places:

1. the lease-fenced execution protocol with crash recovery, first on the small P0 store and graph
   (`recovery.dfy`, `p0_*.dfy`), then on the production queue with its time budget, supervisor and
   instance cleanup (`activity.dfy`, `queue_*.dfy`, `input_queue.dfy`);
2. the bounded agent loop: the tool-call protocol, what the model is shown, and the loop itself
   (`agent_*.dfy`), and the working memory (`memory.dfy`, `memory_cuts.dfy`);
3. the negotiation state machine, its seller authorization and the independent audit (`pricing.dfy`,
   `audit.dfy`, `environment.dfy`), and the full-workflow experiment runs with their gate
   (`adapter.dfy`);
4. books and round trips: the shared call budget (`tracker.dfy`), identity tokens
   (`identity_token.dfy`) and evidence paths (`dotted.dfy`, `evidence.dfy`).

`dafny verify dfyconfig.toml` checks the whole project.

## How it is built

Transactions are functions on a record of tables (`...Tx`), and the classes that the program mutates
have methods proved equal to them. Concurrency is a state machine: a `World`, a `Step`, `Next`, and
`Exec` over a list of steps. Each step is one database transaction, one checkpoint write, one fault,
or the passing of time, so a list of steps is one interleaving of any number of processes. `Inv` is
inductive over all of them, and the theorems are about `Exec` from the empty world. What a language
model, a buyer or a provider does is an arbitrary value. The saver of the P0 graph may fail as well:
at any moment it may lose a thread, or fall back to any checkpoint written before. A history
variable keeps the threads it did that to; safety holds for all threads, progress for the others.

Assumptions, stated in the model itself: a database transaction is atomic and reads one instant; new
uuids are fresh; digests are injective (a datatype with one constructor for each shape hashed); the
saver stores the input before the first node and each node's result before the next node; only the
holder of a thread's lock writes its checkpoint; check constraints are enforced at commit. Instants
are whole milliseconds and money is whole cents.

## What the code does not do

These were found while proving. Each has a concrete input or run, and the exact condition is proved.

- A head whose time is up is never marked failed while it waits to retry. `claim` sets the status to
  FAILED without clearing the retry time, which the check constraint `retry_time_matches_status`
  refuses, so the claim raises and nothing is stored. The head then neither fails nor runs until its
  seller acts or its reply is published (`SpentHeadFailsUnlessWaiting`, `SpentForever`), and one
  released attempt is enough to get there (`SpentHeadIsReached`).
- Once a reply is to be delivered, a lease can be granted beyond the time at which the supervisor
  stops the process, by a claim as by a heartbeat (`ReplyOutlivesSupervisor`). So can the lease of a
  claim that only cleans up, even without a reply (`CleanupOutlivesSupervisor`).
  `NewLeaseEndsByKillTime` says before each grant whether the lease will end in time, and
  `ActiveTimeIsBounded` says it of every live lease that no cleanup claim preceded.
- The worker of the P0 store gives a run back after an interrupt without an ownership check. A worker
  that lost its run can so revoke the next owner (`StaleWorkerRevokesNextOwner`), and even a resolved
  run, whose status then is RETRY_WAIT instead of COMPLETED (`StaleWorkerRevokesResolvedRun`).
  `StaleWorkerOnlyLogsOrRevokes` states all it can write; `CompletedIffResolved` and
  `RevocationTakesCompletion` say exactly when the status follows the cursor.
- A reply review that ends in a type or key error is not put on record, so the same text is reviewed
  again under the same key. The second reservation replaces the first one, and the reserved tokens
  exceed the sum of the reservations kept (`ReviewedTwice`), exactly in this case (`BooksBalance`).
- A required term whose value is null is met by an offer that does not name it, and no other missing
  term is (`NullTermIsMetByNothing`, and `MeetsGoal` in `Confirm` and `Adapter.RunState.Run`).
- The buyer-side check of an offer does not look at its conditions: a delivery method that is a list
  or an object passes it, makes the environment raise, and is then counted against the seller
  (`ListedDeliveryIsRefused`, `CheckedOfferCanStillFail`).
- The call tracker raises its reserved cost before it notices a total that is no number, and then
  does not update the record (`CostCanLeak`, `BooksBalance` of the tracker).
- The working memory is cut to 32 entries after each delta, so it is not always a last-writer-wins
  map: older evidence can return (`ForgottenEvidenceReturns`). One cut leaves the live entries as
  they are exactly if it drops none of them (`CutKeepsLive`, `CutIsNewestUnlessLiveDropped`), and
  over any run of deltas the live entries are the newest of their topics exactly if no such entry
  was ever dropped (`AppliedIsMapUnlessWinnerDropped`). Older evidence is taken after a cut exactly
  if every newer entry of its topic was dropped (`TakenIffNewerDropped`).
- A path that resolves need not be printed: it may spell a list index with leading zeros or with the
  digits of another script (`IndicesHaveOtherSpellings`). It is printed exactly if its list indices
  are in plain decimal (`PrintedIffCanonical`).
- An identity token whose lifetime does not reach the next whole second is never accepted
  (`ShortTokenIsNeverAccepted`, `TokenWindow`).

The bound on charged time is sharp: a run can be charged its budget and all but a millisecond of 30
seconds (`CeilingIsReached`). Before a closing deadline is frozen, a lease charges past one closing
window of 15 seconds exactly if a heartbeat gets it when the budget is already exceeded, by more than
the reply is late (`PastWindowIffSpent`).

## Model

| member | source | states |
|---|---|---|
| Recovery.StartIffNothingSurvives | backend/app/runtime/recovery.py:27-37 | a head starts from scratch exactly when it has no evidence, no checkpoint of its own, and no other run is unfinished in its thread |
| P0Store.Store.Seed | backend/app/p0/store.py:138-143 | a new session with its product |
| P0Store.Store.Enqueue | backend/app/p0/store.py:145-179 | the whole effect of enqueueing: replay of a known request, conflict on another payload, or the next sequence number |
| P0Store.Store.Claim | backend/app/p0/store.py:185-212 | a lease goes to the head only, and only when the previous lease has run out; token and epoch are new |
| P0Store.Store.Revoke | backend/app/p0/store.py:224-236 | the run loses its owner, its lease ends, its epoch moves on |
| P0Store.Store.Command | backend/app/p0/store.py:238-277 | the six writes of a business command happen together or not at all, behind the ownership check |
| P0Store.Store.FindArtifact | backend/app/p0/store.py:279-290 | an owner finds the stored answer, and a damaged one is refused |
| P0Store.Store.AcceptAnswer | backend/app/p0/store.py:291-310 | an answer is stored for a current owner only; the attempt is logged either way |
| P0Store.Store.Publish | backend/app/p0/store.py:312-316 | one public message per run, for a current owner only |
| P0Store.Store.Finalize | backend/app/p0/store.py:318-339 | the cursor moves to the head when its owner shows the end of its own graph and the message exists |
| P0Store.CommandIsAllOrNothing | backend/app/p0/store.py:238-277 | for every failing statement the offers, approvals, receipts, notifications and outbox name the same runs, and a committed command counts one more round |
| P0Store.CommandReplays | backend/app/p0/store.py:238-277 | replaying a committed command changes nothing and answers with the stored result; another amount is refused |
| P0Runs.NextKeeps | backend/scripts/p0_worker.py:16-77 | every step of every worker, crash, lost connection, expiry, revocation and lost or reverted checkpoint keeps the protocol invariant |
| P0Runs.Reachable | backend/app/p0/graph.py:45-96 | the invariant holds in every world that any interleaving reaches |
| P0Theorems.EveryRunIsExactlyOnce | backend/app/p0/store.py:185-339 | a resolved run has exactly one artifact, its receipt and its message and at most one accepted attempt; receipts are a prefix ending at the cursor or one further; rounds count the receipts and the version is one more; all this whatever the saver loses |
| P0Theorems.RecoveryNeverStalls | backend/scripts/p0_worker.py:22-56 | for a run just claimed under the lock of a thread whose checkpoints were never lost, the entry never raises and is never HISTORY; it is START only for a run that left no evidence, else it resumes or finalizes the run's own checkpoint |
| P0Losses.LostCheckpointIsRefused | backend/scripts/p0_worker.py:35-59 | over all runs in which the saver may lose or revert checkpoints: a claimed run goes on from a checkpoint of its own; shown none, it raises if it left evidence, and its worker leaves no trace; it is never HISTORY |
| P0Losses.NothingIsStartedOver | backend/scripts/p0_worker.py:51-56 | in the same runs, the first checkpoint of a turn is only ever written for a run without artifact, receipt and message |
| P0Losses.LossIsAFault | backend/app/p0/graph.py:45-51 | a thread loses its checkpoint only by such a fault, so runs without one are runs without loss |
| P0Samples.LossIsReached | backend/app/runtime/recovery.py:27-37 | a run in which a checkpoint is lost after the command, and the next worker is refused |
| P0Theorems.CheckpointIsOfOneTurn | backend/app/p0/graph.py:31-42 | every checkpoint ever written holds exactly what its own run wrote, nothing of an earlier turn (whose the approval in it is, `P0Approval.SellersAnswerIsKept` says); the stored one is of the head, or of the resolved turn before it and finished, unless one was lost |
| P0Approval.SellersAnswerIsKept | backend/app/p0/graph.py:72-74 | a history variable keeps the answers that each run was resumed with; over every interleaving, a checkpoint past the approval node says one of the answers given to its own run, and every other checkpoint says not approved |
| P0Approval.NothingIsPublishedUnasked | backend/app/p0/graph.py:89-92 | in a session with approval no run has a message before an answer was given to it |
| P0Guards.RequestsAreAnsweredOnce | backend/app/p0/store.py:145-179 | in every reachable world a known request with its payload gives the earlier run, with another payload a conflict, and an unknown one the next number |
| P0Guards.LeasesGoToFreeHeads | backend/app/p0/store.py:185-212 | a run gets a new owner only from a claim under its thread lock, as the head, after its lease has run out, with a new token, the next epoch and 30 seconds |
| P0Guards.CursorsMoveAtTheirOwnEnd | backend/app/p0/store.py:318-339 | a cursor moves by one only, by a worker that holds the lease of the head and shows the end of that head's own graph, once its message exists |
| P0Guards.EvidenceComesFromOwners | backend/app/p0/store.py:238-316 | an answer, a receipt or a message appears only while a worker of its run holds the lease and stands at the node that writes it, with that node's value |
| P0Guards.CommandIsForApprovalOnly | backend/app/p0/store.py:238-277 | an owner's first command goes through exactly for 750.00 up to but without 850.00 |
| P0Guards.DamagedAnswerIsRefused | backend/app/p0/store.py:279-290 | an answer is handed out only under its own key and digest; a damaged one is a conflict |
| P0Theorems.FencedOwnersStayFenced | backend/app/p0/store.py:214-222 | an owner that is refused once, be it that its lease merely ran out, never passes the check again, in any continuation |
| P0Stale.StaleWorkerOnlyLogsOrRevokes | backend/scripts/p0_worker.py:56-64 | all that a worker without ownership can still write: its own attempt log, or a revocation after an interrupt |
| P0Samples.StaleWorkerRevokesNextOwner | backend/scripts/p0_worker.py:60-64 | a run from the empty world in which such a worker takes the run from its live owner, for good |
| P0Samples.StaleWorkerRevokesResolvedRun | backend/app/p0/store.py:224-236 | its continuation in which the run is resolved first and then waits for a retry |
| P0Stale.CompletedIffResolved | backend/app/p0/store.py:318-339 | a completed run is behind the cursor; one behind the cursor is completed exactly while it carries its last token, and else waits for a retry that no claim ever grants |
| P0Stale.RevocationTakesCompletion | backend/app/p0/store.py:224-236 | a completed run stays so exactly until a step revokes it |
| P0Theorems.NothingIsLost | backend/app/p0/store.py:128-339 | no run ever loses an artifact, receipt or message, and no cursor moves back |
| P0Progress.NoHeadIsStuck | backend/scripts/p0_worker.py:16-77 | from every reachable world, if a thread is free and never lost a checkpoint, and its head's lease has run out, a worker started on the head and left alone resolves it within 62 actions |
| Activity.ChargedIsBounded | backend/app/runtime/activity.py:9-28 | charged time stays below the budget plus 30 seconds plus 15 for each claim that only cleans up, at every instant |
| Activity.SettledIsCharged | backend/app/runtime/activity.py:18-24 | settling keeps the budget's invariant |
| Activity.ReopenedIsCharged | backend/app/runtime/input_queue.py:275-305 | a claim keeps it, whether normal or for cleaning up |
| Activity.ExtendedIsCharged | backend/app/runtime/activity.py:41-52 | a heartbeat within the lease keeps it |
| Activity.LeaseEndsByKillTime | backend/app/runtime/supervisor.py:101-119 | without a reply to deliver a lease ends by the supervisor's kill time |
| Activity.GrantEndsByKillTime | backend/app/runtime/supervisor.py:101-119 | exactly when the lease of a claim ends by the kill time, from the meter before it |
| Activity.BeatEndsByKillTime | backend/app/runtime/supervisor.py:101-119 | exactly when the lease of a heartbeat does |
| Activity.PastWindowIffSpent | backend/app/runtime/activity.py:41-52 | when a granted lease charges more than the budget and one closing window |
| Activity.ModelTimeoutFits | backend/app/runtime/activity.py:31-38 | a model call is allowed exactly while budget and reply deadline remain and no closing window is frozen; it then gets the longest time within 45 seconds, the budget and the reply deadline, and ends before the last closing window |
| InputQueues.RunRow.UsedTime | backend/app/runtime/activity.py:9-15 | the charged time at an instant |
| InputQueues.RunRow.RemainingTime | backend/app/runtime/activity.py:27-28 | what is left of the budget |
| InputQueues.RunRow.Settle | backend/app/runtime/activity.py:18-24 | the row after settling |
| InputQueues.RunRow.LeaseDeadline | backend/app/runtime/activity.py:41-52 | the end of a lease and the closing deadline it may freeze |
| InputQueues.InputQueue.LockOwner | backend/app/runtime/input_queue.py:54-68 | the rows are handed out to the current, live owner and nobody else |
| InputQueues.InputQueue.Enqueue | backend/app/runtime/input_queue.py:95-243 | the whole effect of enqueueing, with every refusal |
| InputQueues.InputQueue.Claim | backend/app/runtime/input_queue.py:252-306 | the whole effect of a claim: nothing, a failed head, a refused row, or a lease |
| InputQueues.InputQueue.Release | backend/app/runtime/input_queue.py:308-317 | the owner gives the run back for a later retry |
| InputQueues.InputQueue.Heartbeat | backend/app/runtime/input_queue.py:319-327 | the lease is extended, or the call raises and changes nothing |
| InputQueues.InputQueue.Finalize | backend/app/runtime/input_queue.py:329-360 | the head is resolved by its owner with its own end state and published reply |
| InputQueues.InputQueue.AttachOwner | backend/app/runtime/operations.py:37-43 | a lease is tied to an instance that is still registered |
| InputQueues.InputQueue.RevokeInstance | backend/app/runtime/operations.py:46-84 | which instances are left alone, and the fencing of the others |
| InputQueues.InputQueue.Supervise | backend/app/runtime/supervisor.py:120-136 | the run is taken back if this instance holds it |
| QueueSafety.NextKeeps | backend/app/runtime/input_queue.py:71-360 | every transaction keeps the queue invariant |
| QueueTheorems.QueueStaysInOrder | backend/app/runtime/input_queue.py:95-360 | inputs carry exactly 1 to next - 1, at most 20 unresolved; succeeded exactly up to the cursor; a lease exactly while running; only the head runs |
| QueueTheorems.LostOwnershipIsLostForGood | backend/app/runtime/input_queue.py:54-68 | an owner that is not accepted once (released, revoked, expired, reclaimed or resolved) is never accepted again |
| QueueTheorems.RevokedInstanceIsFenced | backend/app/runtime/operations.py:46-101 | the owner of an instance that is revoked or released is fenced for good, so terminating its connection comes after fencing |
| QueueGuards.ResolvedTurnsHaveReplies | backend/app/runtime/input_queue.py:329-360 | in every reachable world a run that succeeded or lies behind the cursor has a delivery that is published with a message |
| QueueGuards.CursorsMoveWithTheirReply | backend/app/runtime/input_queue.py:329-360 | a cursor moves by one only, by a finalize of the head's live owner that was given the end of that run and the message of its published delivery |
| QueueGuards.LeasesGoToFreeHeads | backend/app/runtime/input_queue.py:252-306 | a run gets a new owner only from a claim, as a free head of an open session, with a new token, the next epoch and attempt, and at most 30 seconds |
| QueueGuards.LiveOwnersAreLeftAlone | backend/app/runtime/operations.py:46-84 | who can take a run from an owner whose lease lasts: itself, its supervisor, or a cleanup of its own instance that is forced or past its limits |
| QueueGuards.CleanupsAreFair | backend/app/runtime/operations.py:46-84 | in every reachable world, exactly which instances a cleanup leaves alone, and that a run held by any other gets a new epoch and waits for its next owner |
| QueueGuards.ReleasedWaitsOneSecond | backend/app/runtime/input_queue.py:308-317 | a released run waits for one second and loses no attempt |
| QueueGuards.SellerPutsHeadBack | backend/app/services/graph_recovery_service.py:94-161 | the seller's action puts an unresolved head that nobody runs back in the queue with an attempt left |
| QueueGuards.InputsAreAnsweredOnce | backend/app/runtime/input_queue.py:95-243 | in every reachable world, exactly which inputs are taken in, replayed or refused |
| QueueTheorems.ActiveTimeIsBounded | backend/app/runtime/activity.py:9-52 | in every reachable world the charged time is below its ceiling; no lease without cleanup claims passes the closing deadline, and it ends by the kill time exactly unless a frozen closing deadline lets it pass the closing window of a reply |
| QueueTheorems.NewLeaseEndsByKillTime | backend/app/runtime/supervisor.py:101-119 | in every reachable world, exactly which claims and heartbeats grant a lease that ends by the kill time, told before the grant |
| QueueSamples.CeilingIsReached | backend/app/runtime/activity.py:41-52 | a run whose charged time reaches the bound but for a millisecond |
| QueueSamples.ReplyOutlivesSupervisor | backend/app/runtime/supervisor.py:101-119 | a run from the empty world in which a claim and then a heartbeat outlive the kill time |
| QueueSamples.CleanupOutlivesSupervisor | backend/app/runtime/input_queue.py:279-286 | one in which a claim that only cleans up does, without any reply |
| QueueTheorems.ClosingIsWrittenOnce | backend/app/runtime/activity.py:18-24 | the closing deadline never changes once it is written |
| QueueTime.ChargedIsLeased | backend/app/runtime/activity.py:9-28 | over every interleaving the charged time of a run is exactly the time for which some owner held a live lease on it, so lost and revoked leases are charged once and waiting is free; the rest of the budget follows |
| QueueTheorems.BlockedForever | backend/app/runtime/input_queue.py:252-292 | until its seller acts, a head that needs recovery stays as it is and no run of its session is claimed |
| QueueTheorems.SpentHeadFailsUnlessWaiting | backend/app/runtime/input_queue.py:287-291 | a spent head is marked failed exactly if it was not waiting to retry; otherwise the claim raises and changes nothing |
| QueueTheorems.SpentForever | backend/app/db/models/model_task.py:95-100 | such a head stays as it is in every continuation that leaves it alone |
| QueueSamples.SpentHeadIsReached | backend/app/runtime/input_queue.py:287-317 | one released attempt leads there |
| Protocol.Validate | backend/app/agent/message_protocol.py:90-109 | a list passes exactly if each call is fresh, answered once and before any other message |
| Protocol.Groups | backend/app/agent/message_protocol.py:112-126 | the grouping that the lemmas below are about |
| Protocol.ReadElsewhere | backend/app/agent/message_protocol.py:90-109 | validity is local: what was seen before matters only where call ids meet |
| Protocol.ValidIsWellGrouped | backend/app/agent/message_protocol.py:112-126 | grouping splits every valid history into complete exchanges with disjoint ids and loses nothing |
| Protocol.GroupsAreExchanges | backend/app/agent/message_protocol.py:112-126 | grouping a history of exchanges gives those exchanges back |
| Protocol.KeptGroupsAreValid | backend/app/agent/context_builder.py:119-139 | keeping any whole groups of a valid history leaves a valid history with exactly those groups |
| AgentContext.SelectionIsGrouped | backend/app/agent/context_builder.py:75-80 | what is selected are whole exchanges, namely those not summarised |
| AgentContext.ChooseOld | backend/app/agent/context_compressor.py:14-40 | the records to summarise are whole older groups without the current input and the last two groups: as many as fit the compressor's limit, so that one more would not |
| AgentContext.Absorb | backend/app/agent/context_compressor.py:70-84 | a summary is taken in exactly if it is acceptable; otherwise the state is unchanged |
| AgentContext.CoverageGrows | backend/app/agent/context_compressor.py:82-84 | after a summary every usable record up to the coverage cursor is among its sources, which are whole exchanges without the current input |
| AgentContext.CoversLater | backend/app/agent/context_builder.py:75-80 | the state still covers the stream after it has grown |
| AgentContext.Trim | backend/app/agent/context_builder.py:119-138 | trimming drops whole exchanges, oldest first and only while the list is over its limit, lists what it drops, keeps the current input and ends within the hard limit; it refuses exactly when nothing is left to drop |
| AgentStream.AppendCalls | backend/app/agent/runtime.py:385-432 | fresh calls may follow a settled stream |
| AgentStream.AppendResult | backend/evaluation/production_driver.py:67-87 | a tool result answers the first pending call |
| AgentRuntime.BatchError | backend/app/agent/tools/gateway.py:123-130 | a batch is in order exactly if all tools are known and a tool that ends the turn comes last |
| AgentRuntime.Driver.CallModel | backend/evaluation/production_driver.py:64-65 | the model is given valid message lists only |
| AgentRuntime.SellerAgentRuntime.Admit | backend/app/agent/runtime.py:65-112 | a call is admitted exactly if it fits every budget; then it is reserved under the key of its step, its review or its number, and nothing else changes |
| AgentRuntime.SellerAgentRuntime.Reconcile | backend/app/agent/runtime.py:163-186 | a reservation is charged what its call used beyond it, once |
| AgentRuntime.SellerAgentRuntime.CallWith | backend/app/agent/runtime.py:65-115 | the whole effect of a call on books and messages, for whatever the clock and the provider do |
| AgentRuntime.SellerAgentRuntime.ReviewWith | backend/app/agent/runtime.py:117-161 | a verdict on record is not asked for again; an unsafe text is rejected without a call; an answered review is approved exactly if its verdict is yes and it calls no tool; a value error records a rejection, a type or key error or a refused call records none; a rejection on record asks for a repair |
| AgentRuntime.SellerAgentRuntime.AskReview | backend/app/agent/runtime.py:131-147 | what each answer or fault of the provider means for the review |
| AgentRuntime.SellerAgentRuntime.CountTool | backend/app/agent/runtime.py:278-284 | a tool call is counted once, and refused exactly if it is new and the tool budget is used up |
| AgentRuntime.SellerAgentRuntime.Handle | backend/app/agent/runtime.py:345-438 | exactly which responses end the turn, ask for a finish plan, are rejected, or have their calls taken as they are |
| AgentRuntime.SellerAgentRuntime.RefreshMemory | backend/app/agent/runtime.py:207-212 | the memory is caught up at most once a turn, and never if it is switched off |
| AgentRuntime.SellerAgentRuntime.BooksBalance | backend/app/agent/runtime.py:65-115 | the reserved tokens are the sum over the reservations kept exactly if no review was asked for twice under one key |
| AgentRuntime.ReviewedTwice | backend/app/agent/runtime.py:283-292 | a turn in which they differ |
| AgentBooks.OneMoreKey | backend/app/agent/runtime.py:67-75 | the keys of steps, summaries and memory calls never recur |
| AgentBooks.ChargedIsKeptAndReplaced | backend/app/agent/runtime.py:103-109 | what all calls charged is what is kept plus what was replaced |
| AgentRuntime.SellerAgentRuntime.Compress | backend/app/agent/runtime.py:188-205 | a failed or refused summary leaves the context state as it was; an accepted one only adds sources; the turn's invariant holds either way |
| AgentRuntime.SellerAgentRuntime.Build | backend/app/agent/context_builder.py:15-155 | the next request is a valid list within the limit with the current input in it, and every usable record is in it, omitted and listed, or summarised; nothing is summarised before the whole selection is past the trigger |
| AgentRuntime.SellerAgentRuntime.Execute | backend/evaluation/production_driver.py:116-194 | the first pending call gets one result; only a tool that ends the turn can end it, with the public reply next, and never after a protocol error; a finish is carried out in a conversation only with an approval on record for its text and evidence |
| AgentRuntime.SellerAgentRuntime.Stop | backend/evaluation/production_driver.py:196-207 | stopping answers every pending call in order with the reason, replies, and settles the stream |
| AgentRuntime.SellerAgentRuntime.Finish | backend/evaluation/production_driver.py:89-114 | the public reply settles the stream and the turn's summary becomes the driver's |
| AgentRuntime.SellerAgentRuntime.Run | backend/app/agent/runtime.py:271-438 | the loop ends, within all budgets, with a settled stream that it only appended to and closed with a public reply, unless the provider fails; every finish carried out in it was approved by the provider for its text and evidence |
| AgentRuntime.RunTurn | backend/evaluation/production_driver.py:210-268 | a turn keeps the stream, adds the buyer's message to it and ends with a public reply, unless the provider fails |
| AgentRuntime.RunConversation | backend/evaluation/production_driver.py:210-268 | in any conversation, with approval notifications between its turns, every buyer message is taken up unless the provider fails, and every message list that reaches the model is valid |
| AgentRuntime.Notify | backend/evaluation/dynamic_runner.py:243-245 | an approval notification leaves the stream settled |
| Memory.Apply | backend/app/agent/negotiation_memory.py:41-83 | a delta is taken in exactly if every entry is acceptable, as a sequence of single updates, of which the last 32 entries are kept |
| Memory.AcceptableIffGrounded | backend/app/agent/negotiation_memory.py:45-65 | what may be remembered: a buyer statement is quoted from one of the buyer inputs it cites, which are not all questions; what was tried cites what was carried out; a hypothesis is never explicit |
| Memory.TimeIsNewestSource | backend/app/agent/negotiation_memory.py:76-77 | the time of an entry is that of the newest record it cites |
| Memory.PutAllKeepsRegister | backend/app/agent/negotiation_memory.py:68-82 | a topic's live entry is its last and newest one, also after truncation |
| Memory.OneLiveEntry | backend/app/agent/negotiation_memory.py:68-82 | at most one entry of a topic is live and none held is newer |
| Memory.LiveIsNewest | backend/app/agent/negotiation_memory.py:68-82 | while nothing is dropped, live are exactly the newest entries of their topics |
| Memory.OrderDoesNotMatter | backend/app/agent/negotiation_memory.py:41-83 | while all entries fit, entries with distinct evidence give the same live memory in any order |
| Memory.ForgottenEvidenceReturns | backend/app/agent/negotiation_memory.py:82-83 | 32 entries on other topics make an older entry live again |
| MemoryCuts.CutKeepsLive | backend/app/agent/negotiation_memory.py:82-83 | a cut leaves the live entries as they are exactly if it drops none |
| MemoryCuts.CutIsNewestUnlessLiveDropped | backend/app/agent/negotiation_memory.py:41-83 | after one delta, live are exactly the newest entries if and only if no live entry was dropped |
| MemoryCuts.TakenIffNewerDropped | backend/app/agent/negotiation_memory.py:75-83 | older evidence is taken after a cut exactly if every newer entry of its topic was dropped |
| MemoryCuts.MapUnlessWinnerDropped | backend/app/agent/negotiation_memory.py:41-83 | over any run of writes and cuts, live are exactly the newest ever written if and only if none of them was ever dropped |
| MemoryCuts.AppliedIsMapUnlessWinnerDropped | backend/app/agent/negotiation_memory.py:41-83 | the same for deltas applied one after another |
| MemoryCuts.OrderDoesNotMatterUnlessDropped | backend/app/agent/negotiation_memory.py:41-83 | runs that never dropped a newest entry give the same live memory in any order and division |
| Audit.GuardAgreesWithAudit | backend/evaluation/dynamic_safety.py:15-43 | a commitment may be made exactly if auditing it finds nothing, for all money the columns can hold |
| Audit.TermsAgree | backend/app/services/pricing_service.py:191-200 | guard and audit, which name the delivery methods each for itself, read the extra conditions alike |
| Pricing.OnlyKnownDeliveries | backend/app/services/pricing_service.py:191-200 | conditions are authorized exactly if there are none or the one is to pick up or to ship; only a delivery method that is a list or an object is an error |
| Environment.EvaluationEnvironment.Record | backend/evaluation/environment.py:83-105 | a new current offer; the one it replaces is withdrawn by its own side or rejected |
| Environment.EvaluationEnvironment.BuyerOffer | backend/evaluation/environment.py:107-116 | when a buyer offer is recorded, and that it then is the open current one |
| Environment.EvaluationEnvironment.Counter | backend/evaluation/environment.py:118-134 | exactly when a counter offer is recorded, and that it then is the open current one and committed |
| Environment.EvaluationEnvironment.Accept | backend/evaluation/environment.py:136-152 | exactly when an offer is accepted, and that this is committed |
| Environment.EvaluationEnvironment.RequestApproval | backend/evaluation/environment.py:154-175 | exactly when approval is asked for |
| Environment.EvaluationEnvironment.ProcessApproval | backend/evaluation/environment.py:177-193 | the seller's answer, and the commitment of an approval |
| Environment.EvaluationEnvironment.Confirm | backend/evaluation/environment.py:208-231 | confirmation succeeds exactly on the current offer that the seller stands by, at a price within the goal and with each required term, written out; it is then committed, accepted and agreed |
| Environment.EvaluationEnvironment.Observe | backend/evaluation/dynamic_safety.py:46-97 | the audit reports exactly the findings of new commitments and of the agreement, and none in a valid world |
| Environment.EvaluationEnvironment.ConfirmationsAgree | backend/evaluation/dynamic_buyer.py:53-73 | the buyer-side check and the environment admit the same confirmations |
| Environment.EvaluationEnvironment.CheckedOfferCanStillFail | backend/evaluation/dynamic_buyer.py:41-52 | a checked offer is still refused exactly if its delivery method cannot be looked up |
| Environment.ListedDeliveryIsRefused | backend/evaluation/dynamic_buyer.py:41-52 | one such offer, checked and refused |
| Environment.RunEpisode | backend/evaluation/dynamic_runner.py:204-300 | whatever model and buyer do, no audit reports a business finding; an agreement is on the current, committed offer, at most at the goal's price and with each required term; an unresolved episode played all its turns |
| Environment.BuyerEnds | backend/evaluation/dynamic_runner.py:212-220 | a checked confirmation ends in agreement on its offer, leaving closes, and nothing else ends the episode |
| Adapter.RoutedIffAuthorized | backend/app/agent/offer_routing.py:6-29 | an offer is accepted or sent for approval without the model exactly if that is permitted |
| Adapter.AuthorizedAsExpected | backend/evaluation/adapters.py:716-727 | authorization sees every formal offer as what its figures and terms make it, computed a second time |
| Adapter.RunState.ApplyRouted | backend/evaluation/adapters.py:542-588 | which counters a routed offer moves, what it commits and when the buyer closes the deal |
| Adapter.RunState.ApplyGuarded | backend/evaluation/adapters.py:512-616 | the outcome of each decision: only a permitted counter offer commits, and an offer shown to the model is counted as blocked once |
| Adapter.RunState.ApplyApproval | backend/evaluation/adapters.py:618-648 | each request is resolved once, and an approval is committed |
| Adapter.RunState.Run | backend/evaluation/adapters.py:195-452 | the turns are played in order up to the limit until one ends the run; every formal offer played is counted once, as what it is; the counters balance, but for at most one offer on which the model failed; a run that nothing ended closes or stays unresolved as its scenario says; an agreement is within the buyer's goal |
| Adapter.GateJudgesFailuresOnly | backend/evaluation/gate.py:96-205 | full-workflow runs pass the approval, violation and commitment checks, and the routing check exactly if no failed run left an unsafe offer unblocked |
| Adapter.Evaluate | backend/evaluation/gate.py:96-205 | so do the results of running any scenarios, whatever the models do, and each result adds up the offers of the turns that it played |
| Tracker.BooksBalance | backend/evaluation/dynamic_runner.py:74-146 | under every interleaving reserved tokens are the sum over the records and pass their cap only by overages; so does the cost, exactly if no overrun call came back with a total that is no number; each record is charged its reservation, made for its messages and its longest answer, or what was reported if that is more |
| Tracker.CostCanLeak | backend/evaluation/dynamic_runner.py:117-136 | a run of two steps in which the cost and its records differ |
| Tracker.RefusedIffOverCap | backend/evaluation/dynamic_runner.py:106-112 | a call is refused exactly if it is too late or would pass one of the three caps |
| IdentityToken.DecodeUndoesEncode | backend/app/core/security.py:182-192 | decoding undoes encoding for every byte string |
| IdentityToken.EncodingIsByTheTable | backend/app/core/security.py:182-183 | each letter of an encoding is the one in Table 2 of RFC 4648 at its group of six bits, and the length is that of an unpadded encoding |
| IdentityToken.EncodingIsUrlSafe | backend/app/core/security.py:182-183 | an encoding holds letters, digits, minus and underscore only, and neither plus, slash nor padding |
| IdentityToken.EncodingHasNoDot | backend/app/core/security.py:182-183 | an encoding never contains the separator |
| IdentityToken.TokenWindow | backend/app/core/security.py:85-174 | the exact seconds in which an issued token is accepted, and for whom |
| IdentityToken.AcceptedIsSigned | backend/app/core/security.py:124-174 | an accepted token is a payload and its signature with one dot between, from a secret of at least 32 characters, for a subject of 1 to 64 characters |
| Dotted.SplitUndoesJoin | backend/app/agent/conversation_reply.py:69-69 | splitting at dots undoes joining parts without dots |
| Dotted.JoinUndoesSplit | backend/app/agent/conversation_reply.py:69-69 | joining undoes splitting, for any text |
| Evidence.ReadEvidence | backend/app/agent/conversation_reply.py:62-77 | the walk along a cited path |
| Evidence.EvidenceRoundTrip | backend/app/agent/conversation_reply.py:62-127 | every printed path resolves to exactly its scalar, and every path that resolves is a printed one with its list indices in plain decimal |
| Evidence.PrintedIffCanonical | backend/app/agent/conversation_reply.py:62-127 | a path that resolves is itself printed exactly if its list indices are in plain decimal |
| Evidence.IndicesHaveOtherSpellings | backend/app/agent/conversation_reply.py:70-75 | indices with leading zeros or other digits resolve too |

## Left out

- Activity.ChargedIsBounded: bounds what is charged; timestamps finer than a millisecond, which `int` truncates, are not modelled.
- P0Theorems.NothingIsLost: says nothing about status and lease columns, which do change; `P0Stale.CompletedIffResolved` does.
- InputQueues.InputQueue.Claim: the clock is read once per transaction; the code reads it again between steps of one transaction.
- InputQueues.InputQueue.Enqueue: the display receipt and semantic reference checks are one flag; message, policy and snapshot columns are not modelled; configuration keys are those of a record.
- InputQueues.InputQueue.Finalize: the configuration hash is compared as the configuration of the record.
- P0Progress.NoHeadIsStuck: assumes that the external call answers, the seller approves and time does not run out while the worker is left alone.
- AgentRuntime.SellerAgentRuntime.CallWith: the wall clock and the money budget may refuse at any time; the token estimate is a function of the messages alone, tool schemas included in it; a stored response, which this backend never has, is not modelled.
- Memory.AcceptableIffGrounded: a value with a line break in it, which may span the inputs it cites, is left to the joined text that `Memory.Apply` looks at.
- AgentRuntime.SellerAgentRuntime.Run: the text of prompts, repair notes and replies, the working memory inside the loop, and the differing purposes of structured endings are not told apart; an exception without a text is taken for a protocol error all the same, where the program is left with the second check that `Execute` makes.
- Environment.EvaluationEnvironment.Observe: findings about the wording of replies are text checks and not modelled.
- Evidence.ReadEvidence: the comparison of the quoted text with the fact is not modelled, nor are decimal digits beyond the basic multilingual plane.
- IdentityToken.TokenWindow: HMAC and JSON text are functions, and parsing is assumed to undo printing.
- Tracker.BooksBalance: the journal and durations are not modelled, and division of the price by a million is left out.
- A worker started with a seller's answer for a run that was never begun: the P0 worker then resumes an empty thread instead of starting it.
- `InputQueue.enroll`, `sweep`, service heartbeats and the waiting for locks: no state beyond what is modelled.
- The TERMINATE branch of the graph runner and the approval runner: the model has the seller's action on the queue, not the graph it drives.
- `NotificationService`: a delivery is published once; its own lease and retries are not modelled.
- The working-memory catch-up and `record_tool`: which records are shown to the model there does not change the update rule.
- Experiment groups A and B, baselines G0, G1 and G3, events, usage records and the remaining gate checks: easy members.
- HTTP routes, schemas, database and checkpoint libraries, prompts, regular expressions, report rendering, password hashing.
