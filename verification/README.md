# Lightstreamer C++ client: the stateful protocol logic, verified

This project models the parts of the Lightstreamer client library whose behaviour depends on what happened
before: recovery of a session, the queues of control requests, the bookkeeping of subscriptions and their
retransmissions, the update codec and the client's copy of the rows, and the timers and listeners that must
cope with tasks that come too late. Each part is a set of Dafny modules:

- `Recovery`, `RecoveredStream`: the counters of `TextProtocol` and `Session`, a server that resumes with
  `PROG`, runs that mix notifications, breaks, recoveries and rebinds, and what they leave of a stream of updates.
- `BatchQueue`, `Batching`, `Scheduler`, `SchedulerRuns`, `HttpRequests`: `BatchRequest` (a map with a vector
  of its keys), what one call of `sendBatch` takes off a queue, the scheduler as a state machine, what its runs
  promise, and `HttpRequestManager` with its fields.
- `Subscriptions`, `SubscriptionRuns`, `SubscriptionTutors`, `SubscriptionManagement`: the bookkeeping as a
  state machine, what its runs promise, the life of the retransmission tutors, and `SubscriptionManager` and
  `Subscription` with their fields.
- `Percent`, `Decimal`, `Strings`, `UpdateLine`, `DeltaState`, `UpdateStream`, `WireFraming`: percent triplets
  (section 2.1 of RFC 3986), the update line ("Real-Time Update" section of the Lightstreamer TLCP 2.1.0
  Specifications) and its loop, the stored rows, a whole stream of lines, the body of a batch.
- `Heartbeat`, `SessionTimers`, `SessionPhases`, `SessionManagement`, `Listeners`, `EventDispatching`: what phase
  counters and the `alive` flag guard.
- `Backoff`, `Bandwidth`: the delays between retries and the order of bandwidth requests.

Where the source is an object whose methods change its fields, the model is a class with those fields; every
method states the whole new state through a specification function, and the lemmas are about these functions.
Threads, timers and the session thread are steps over collections of pending tasks, in any interleaving; a
request sent is an entry in a ghost log. The answers of tutors, the phase held by a session and the order in
which an unordered map is traversed are parameters, so the results hold for all of them.

Where the code is unfinished or differs from what it says:

- `processPROG` (`TextProtocol.hpp:744-763`) compares with a placeholder 0 at line 752; the model reads the
  session's count, as line 1212 does. Each recovery is a protocol whose first `PROG` takes the coded branch.
  As written, `Session.hpp:160` makes the new protocol take over the old counter, so that the `PROG` of a
  second recovery falls into the empty branch; `CarriedCounterIsRightIff` says exactly when that is harmless.
- `addToProperBatch` (`HttpRequestManager.hpp:193-208`) leaves the routing of control and destroy requests
  out; the model follows the comment at lines 71-82.
- The comment at `HttpRequestManager.hpp:58-61` promises that the limit is kept; the loop test ignores the
  separator, so a body may be one byte over it. `LimitIsExceededIff` says for which queues
  (`BatchSizeBound`, `LimitCanBeExceeded`).
- `unquote` never leaves its loop when the first `%` that lacks two hexadecimal digits has fewer than two
  characters after it (`UnquoteDivergesIff`); the model has an outcome for that, shown to be right by iterating
  the loop body.
- A gentle closing takes a manager from END back to ENDING when a connection is still set (`EndIsLeftIff`,
  `ClosedTwice`); the invariants of `Scheduler` allow for it.
- A hand-over to a manager that is already dismissed throws at the first request, which by then belongs to
  neither (`HandOverConservesIff`, `ThrownLosesOne`).
- `reunsubscribe` is called (`SubscriptionManager.hpp:581`) but not defined; the model sends the delete again
  under a new tutor and leaves the sets alone.
- A tutor whose sending failed recovers without asking `verifySuccess` (`RequestTutor.hpp:74-76`); for
  frequency changes this can give up the newest change (`NewestStaysPendingIff`, `FailedSendingLosesTheNewest`).
- A switch asked for by `createSession` is not watched by a timeout: the call is commented out. A watched one
  loses its timeout when the session is closed for a recovery (`SwitchHangsIff`, `HangingSwitches`).
- A change whose sending fails after the session has closed becomes pending again (`NoChangePendingIff`,
  `FailedSendingOutlivesSession`).
- A retry during a switch to WS leaves for HTTP even when the transport is forced (`ForcedTransportIsLeft`,
  `TransportStaysIff`).
- The timeouts of a forced rebind do not grow: its tutor is made without the timeout of the one before
  (`Session.hpp:1238-1239`), so each is 4000 (`TimeoutsDoubleIff`).
- `Subscription::update` does not call `updateStructure` in this port; the model proves what the call does.
- Overwrite and configuration messages do not count as notifications here, and neither are they in the model.

## Model

| member | source | states |
|---|---|---|
| `Recovery.ExactlyOnceInOrder` | include/lightstreamer/client/protocol/TextProtocol.hpp:1210-1226 | in every run of sendings, reads, breaks, recoveries and rebinds, what was passed on is the first dataNotificationCount notifications of the stream, in order, and currentProg never exceeds that count |
| `Recovery.StepKeepsInv` | include/lightstreamer/client/protocol/TextProtocol.hpp:744-763 | each step keeps the agreement between the stream, the messages on the wire and the two counters |
| `Recovery.EveryNotificationArrives` | include/lightstreamer/client/protocol/TextProtocol.hpp:1210-1226 | from every resumable state, letting the server send and the client read what is left delivers the whole stream: nothing is lost for good |
| `Recovery.RecoveriesKeepTheSession` | include/lightstreamer/client/session/Session.hpp:344-356 | in every run from a resumable state in which each recovery resumes within what the client has accounted for, the session stays alive and resumable, and the whole stream can still arrive |
| `Recovery.RecoveryResumes` | include/lightstreamer/client/session/Session.hpp:344-356 | after a recovery at p and n sendings, PROG,p and the n notifications from p on are on the connection; the client is alive, with the same count and deliveries and no counter |
| `Recovery.ClosesIff` | include/lightstreamer/client/protocol/TextProtocol.hpp:744-763 | a live session is closed by an event exactly when it reads a PROG ahead of its count |
| `Recovery.CarriedCounterIsRightIff` | include/lightstreamer/client/protocol/TextProtocol.hpp:347-355 | a protocol that starts a recovery with the counter of the old one is exactly-once if and only if the server resumes at that very counter, or after it with nothing left to deliver |
| `Recovery.CarriedCounterRepeatsOrLoses` | include/lightstreamer/client/session/Session.hpp:148-160 | concrete recoveries with the carried counter: two deliver a notification twice, one of them to a client that has the whole stream; one loses one |
| `Recovery.TextProtocol.ProcessCountableNotification` | include/lightstreamer/client/protocol/TextProtocol.hpp:1210-1226 | a notification at or below the session's count is skipped, any other is counted and passed on once |
| `Recovery.TextProtocol.ProcessPROG` | include/lightstreamer/client/protocol/TextProtocol.hpp:744-763 | the first PROG sets the counter and closes the session if it is ahead of the count; a later one changes nothing |
| `Recovery.TakeOver` | include/lightstreamer/client/session/Session.hpp:148-160 | a session that replaces another, with a protocol of its own, goes on exactly where the other was: same count, counter and delivered notifications, in fresh objects |
| `BatchQueue.KeySharedIff` | include/lightstreamer/client/protocol/BatchRequest.hpp:144-275 | two control requests are filed under one key exactly when they are about the same thing, whatever their ids and session names |
| `BatchQueue.PutKeepsOrder` | include/lightstreamer/client/protocol/BatchRequest.hpp:108-116 | an addition keeps all other entries in place; a key that is known keeps its place too |
| `BatchQueue.AddedConserves` | include/lightstreamer/client/protocol/BatchRequest.hpp:108-116 | the requests held after an addition and the one replaced are the requests held before and the new one |
| `BatchQueue.AddedIsValid` | include/lightstreamer/client/protocol/BatchRequest.hpp:118-141 | numbered keys never meet an old one, so messages and heartbeats are never replaced; keys stay distinct |
| `BatchQueue.BatchRequest.constructor` | include/lightstreamer/client/protocol/BatchRequest.hpp:75 | an empty batch of its type |
| `BatchQueue.BatchRequest.GetNextRequestLength` | include/lightstreamer/client/protocol/BatchRequest.hpp:88-93 | the announced length of the oldest entry, 0 when there is none |
| `BatchQueue.BatchRequest.Shift` | include/lightstreamer/client/protocol/BatchRequest.hpp:95-106 | takes the entry whose key came first, or nothing from an empty batch |
| `BatchQueue.BatchRequest.AddRequestInternal` | include/lightstreamer/client/protocol/BatchRequest.hpp:108-111 | a new key goes to the end |
| `BatchQueue.BatchRequest.SubstituteRequest` | include/lightstreamer/client/protocol/BatchRequest.hpp:113-116 | a known key gets the new request at its old place |
| `BatchQueue.BatchRequest.AddRequestToBatch` | include/lightstreamer/client/protocol/BatchRequest.hpp:118-275 | refuses requests of another type; otherwise files the request and reports the one it replaces |
| `Batching.SendsIff` | include/lightstreamer/client/protocol/HttpRequestManager.hpp:335-358 | a batch leaves exactly when a queued request is sendable; otherwise the queue ends empty |
| `Batching.SentStartsWithFirst` | include/lightstreamer/client/protocol/HttpRequestManager.hpp:344-367 | the batch is the sendable part of a prefix of the queue, beginning with the first sendable request |
| `Batching.BatchSizeBound` | include/lightstreamer/client/protocol/HttpRequestManager.hpp:360-369 | with a limit a body is one request or at most limit + 1 bytes |
| `Batching.LimitIsExceededIff` | include/lightstreamer/client/protocol/HttpRequestManager.hpp:360-369 | a body of several requests exceeds the limit if and only if, behind requests that all pass the loop test, the queue holds one that passes it too and leaves exactly one byte where the separator needs two |
| `Batching.BatchIsGreedy` | include/lightstreamer/client/protocol/HttpRequestManager.hpp:360-369 | what stays in the queue would have failed the test of the loop |
| `Batching.LimitCanBeExceeded` | include/lightstreamer/client/protocol/HttpRequestManager.hpp:437-446 | two requests of 120 and 140 bytes that fill 262 under a limit of 261: the bound of BatchSizeBound is met |
| `Batching.KeepSplits` | include/lightstreamer/client/protocol/HttpRequestManager.hpp:352-369 | each request taken off a queue is either sent or aborted |
| `Scheduler.NoLostWakeUp` | include/lightstreamer/client/protocol/HttpRequestManager.hpp:231-246 | after every run, an idle manager that holds a request has a dequeue task of the current phase pending |
| `Scheduler.StepKeepsInv` | include/lightstreamer/client/protocol/HttpRequestManager.hpp:274-395 | each call keeps the wake-up, the single batch in flight and the fairness of the log |
| `Scheduler.SendsOnlyWhenIdle` | include/lightstreamer/client/protocol/HttpRequestManager.hpp:317-331 | a batch leaves only from IDLE with none on the wire, and one at a time |
| `Scheduler.StaleTaskIsHarmless` | include/lightstreamer/client/protocol/HttpRequestManager.hpp:298-315 | a dequeue task with an old phase does nothing; one with the current phase finds IDLE, and sends if anything is sendable |
| `Scheduler.PhaseNeverDecreases` | include/lightstreamer/client/protocol/HttpRequestManager.hpp:140-143 | phases never decrease and grow with every change of status |
| `Scheduler.DequeueFacts` | include/lightstreamer/client/protocol/HttpRequestManager.hpp:317-333 | a dequeue either sends from the candidate nearest in the rotation, or leaves the four queues empty and the turn where it was |
| `Scheduler.ServedWithinFourBatches` | include/lightstreamer/client/protocol/HttpRequestManager.hpp:317-333 | a queue that keeps holding a sendable request is served by one of any four batches in a row |
| `Scheduler.EveryRequestIsSomewhere` | include/lightstreamer/client/protocol/HttpRequestManager.hpp:335-378 | in every run each request is in as many places as it was accepted: queued, in flight, aborted, finished or handed over |
| `Scheduler.HandOverLosesNothing` | include/lightstreamer/client/protocol/HttpRequestManager.hpp:210-229 | copyTo empties the old manager, and the new one accepts exactly the requests in flight and the queued ones |
| `SchedulerRuns.HandOverConservesIff` | include/lightstreamer/client/protocol/HttpRequestManager.hpp:210-229 | a hand-over conserves every request, and the new manager accepts exactly what the old one held, if and only if the new one is not dismissed or there is nothing to hand over |
| `SchedulerRuns.ThrownLosesOne` | include/lightstreamer/client/protocol/HttpRequestManager.hpp:213-228 | a hand-over that throws loses the request at hand and no other |
| `SchedulerRuns.QueuesDrain` | include/lightstreamer/client/protocol/HttpRequestManager.hpp:317-396 | however tutors answer, an open manager has emptied its queues after as many rounds of a finished batch and a dequeue task as it held requests |
| `SchedulerRuns.MessagesLeaveInOrder` | include/lightstreamer/client/protocol/HttpRequestManager.hpp:335-369 | in every run the messages sent, and behind them those queued, are some of the messages accepted in the order of their acceptance |
| `SchedulerRuns.EveryBatchHasOneAddress` | include/lightstreamer/client/protocol/HttpRequestManager.hpp:71-82 | in every run destroy requests wait apart from control requests, and no batch mixes messages, heartbeats, destroy requests and the others |
| `SchedulerRuns.GentleClosingEnds` | include/lightstreamer/client/protocol/HttpRequestManager.hpp:380-396 | a manager closed gently with a batch on the wire waits for that batch, and has ended, with its connection given up, when it is over |
| `SchedulerRuns.DismissedForGood` | include/lightstreamer/client/protocol/HttpRequestManager.hpp:231-246 | a dismissed manager takes no request and sends none in any later run |
| `SchedulerRuns.EndIsLeftIff` | include/lightstreamer/client/protocol/HttpRequestManager.hpp:175-186 | an ended manager leaves END exactly when it is closed gently with a connection still set |
| `SchedulerRuns.ClosedTwice` | include/lightstreamer/client/protocol/HttpRequestManager.hpp:175-186 | closing at once with a batch on the wire and then gently leads from END to ENDING |
| `Scheduler.ReceiveAccepts` | include/lightstreamer/client/protocol/HttpRequestManager.hpp:213-228 | the new handler takes every request it is given and the limit, and keeps its own books and wake-ups |
| `HttpRequests.HttpRequestManager.constructor` | include/lightstreamer/client/protocol/HttpRequestManager.hpp:104-127 | four empty queues, idle, phase 1 |
| `HttpRequests.HttpRequestManager.AddToProperBatch` | include/lightstreamer/client/protocol/HttpRequestManager.hpp:71-82 | each kind of request goes to the queue of its kind, and a replaced request is aborted |
| `HttpRequests.HttpRequestManager.AddRequest` | include/lightstreamer/client/protocol/HttpRequestManager.hpp:231-246 | the scheduler's addition; refused exactly when the manager is ending or ended |
| `HttpRequests.HttpRequestManager.DequeueControlRequests` | include/lightstreamer/client/protocol/HttpRequestManager.hpp:298-333 | the scheduler's dequeue, guarded by phase and status |
| `HttpRequests.HttpRequestManager.TakeTurn` | include/lightstreamer/client/protocol/HttpRequestManager.hpp:318-324 | one turn of the rotation |
| `HttpRequests.HttpRequestManager.TryAllQueues` | include/lightstreamer/client/protocol/HttpRequestManager.hpp:317-331 | at most one turn for each queue, until a batch leaves |
| `HttpRequests.TakeBatch` | include/lightstreamer/client/protocol/HttpRequestManager.hpp:344-369 | the loops of sendBatch send and abort exactly what Sent and Aborted say, and leave the rest of the queue |
| `HttpRequests.HttpRequestManager.SendBatch` | include/lightstreamer/client/protocol/HttpRequestManager.hpp:335-378 | one queue's batch: what becomes ongoing, what is aborted, what goes out |
| `HttpRequests.HttpRequestManager.OnComplete` | include/lightstreamer/client/protocol/HttpRequestManager.hpp:380-396 | back to IDLE with a new wake-up, or to END |
| `HttpRequests.HttpRequestManager.OnBatchOver` | include/lightstreamer/client/protocol/HttpRequestManager.hpp:497-534 | a closed or broken batch finishes its requests |
| `HttpRequests.HttpRequestManager.Close` | include/lightstreamer/client/protocol/HttpRequestManager.hpp:175-186 | ending or ended, and when the connection is closed too |
| `HttpRequests.HttpRequestManager.CopyTo` | include/lightstreamer/client/protocol/HttpRequestManager.hpp:210-229 | the new handler is given the ongoing requests, then each queue in order, then the limit; a dismissed one throws at the first request, which is gone, and nothing else changes |
| `Subscriptions.CollectionsStayApart` | include/lightstreamer/client/SubscriptionManager.hpp:51-62 | in every run with a server that names issued ids, subscriptions, pendingDelete and pendingUnsubscribe are pairwise disjoint, and each unsettled subscription, delete and change has been given a tutor |
| `Subscriptions.StepKeepsInv` | include/lightstreamer/client/SubscriptionManager.hpp:259-550 | every call, event and late callback keeps the bookkeeping |
| `Subscriptions.ApartForGoodIff` | include/lightstreamer/client/SubscriptionManager.hpp:407-421 | the collections stay apart through all later additions if and only if the server event names an issued id or does not look its id up |
| `Subscriptions.DeletesAreNotRepeated` | include/lightstreamer/client/SubscriptionManager.hpp:270-280 | a delete leaves alone; first sent only for an id not in pendingDelete and no longer registered; after a timeout only for one still there |
| `Subscriptions.SendAllFacts` | include/lightstreamer/client/SubscriptionManager.hpp:334-355 | the wake-up of the whole table makes one transition and sends one request for each subscription |
| `SubscriptionTutors.WaitingIsAttended` | include/lightstreamer/client/requests/RequestTutor.hpp:74-118 | in every sound run each subscription that waits for the server and each pending delete has a tutor of this session that has not ended: its request is on the way or its timer runs |
| `SubscriptionTutors.StepAttends` | include/lightstreamer/client/SubscriptionManager.hpp:618-686 | each event keeps such a tutor, through failed sendings, timeouts, aborts, removals and restarts |
| `SubscriptionTutors.EnqueueFromReplaces` | include/lightstreamer/client/protocol/BatchRequest.hpp:187-232 | a tutor's request is replaced in the control queue only by that of a later tutor for the same slot |
| `SubscriptionTutors.SameSlotGivesWay` | include/lightstreamer/client/protocol/BatchRequest.hpp:187-232 | a queued request for the slot of a new one gives it its place, and its tutor is known to be replaced |
| `SubscriptionRuns.RemovalWhileSubscribing` | include/lightstreamer/client/SubscriptionManager.hpp:317-329 | an id removed while SUBSCRIBING waits through everything else; the first server event about it sends one delete |
| `SubscriptionRuns.WaitsForTheServer` | include/lightstreamer/client/SubscriptionManager.hpp:493-510 | without such an event the id stays in pendingUnsubscribe and no delete is sent |
| `SubscriptionRuns.RemovalSendsIff` | include/lightstreamer/client/SubscriptionManager.hpp:317-329 | a removal sends one delete, and leaves the id in pendingDelete, if and only if the session is alive and the subscription PUSHING; it is put off if and only if SUBSCRIBING; no other id is concerned |
| `SubscriptionRuns.ConfirmedThenRemoved` | include/lightstreamer/client/SubscriptionManager.hpp:512-550 | a subscription that the server confirms and that is removed in the same session has exactly one first delete until that is settled, whatever else happens |
| `SubscriptionRuns.RefusedThenRemoved` | include/lightstreamer/client/SubscriptionManager.hpp:512-550 | one that the server refuses and that is removed before a new answer or start has none |
| `SubscriptionRuns.AddingSubscribesIff` | include/lightstreamer/client/SubscriptionManager.hpp:290-310 | an addition gives a new id and requests it at once if and only if the session is alive; otherwise it is on hold |
| `SubscriptionRuns.AnsweredDeleteIsForgotten` | include/lightstreamer/client/SubscriptionManager.hpp:493-510 | an answered delete leaves its id in none of the collections, and its tutors send no more |
| `SubscriptionRuns.LateCallbackIsHarmless` | include/lightstreamer/client/SubscriptionManager.hpp:618-663 | a tutor's callback never moves a PUSHING or PAUSED subscription, and repeats a subscribe request only while its subscription is WAITING or SUBSCRIBING |
| `SubscriptionRuns.OvertakenForGood` | include/lightstreamer/client/SubscriptionManager.hpp:618-686 | a tutor whose subscription has moved on or gone does nothing in any later state |
| `SubscriptionRuns.RestartSubscribesEachOnce` | include/lightstreamer/client/SubscriptionManager.hpp:394-405 | after a close, whatever additions, removals and callbacks follow, everything is PAUSED, no unsubscription is pending, and no change either unless one is asked for; the next start wakes each subscription once and sends one request for each |
| `SubscriptionRuns.StaysOnHold` | include/lightstreamer/client/SubscriptionManager.hpp:212-229 | between sessions every subscription stays PAUSED and no unsubscription becomes pending |
| `SubscriptionRuns.NoChangePendingIff` | include/lightstreamer/client/SubscriptionManager.hpp:132-161 | no change is pending all through a run if and only if no event of it is a change of a registered subscription or the failed sending of one |
| `SubscriptionRuns.FailedSendingOutlivesSession` | include/lightstreamer/client/requests/RequestTutor.hpp:74-80 | a change of a subscribed subscription whose sending fails after the session has closed is pending again |
| `SubscriptionRuns.NewestStaysPendingIff` | include/lightstreamer/client/SubscriptionManager.hpp:703-740 | a step keeps the newest change pending if and only if it is not the unguarded retry of a failed sending of an older one |
| `SubscriptionRuns.NewestChangeWins` | include/lightstreamer/client/SubscriptionManager.hpp:132-161 | in every run without such a retry no tutor is newer than the pending change |
| `SubscriptionRuns.NewChangeIsNewest` | include/lightstreamer/client/SubscriptionManager.hpp:132-141 | a new change is sent at once, under a reconfiguration id beyond those of all earlier requests for the subscription |
| `SubscriptionRuns.OnlyTheNewestIsResent` | include/lightstreamer/client/SubscriptionManager.hpp:703-727 | a timeout resends no change but the pending one |
| `SubscriptionRuns.TimeoutResendsIff` | include/lightstreamer/client/requests/RequestTutor.hpp:96-118 | a timeout of any tutor repeats its request once if and only if a retry is due and what it is for is still awaited, and changes nothing else |
| `SubscriptionRuns.SettledChangeIsCleared` | include/lightstreamer/client/SubscriptionManager.hpp:531-540 | its answer, its abort and the end of the session take the pending change away |
| `SubscriptionRuns.PendingChangeStays` | include/lightstreamer/client/SubscriptionManager.hpp:531-540 | only an answer to it, its own abort, a newer change or the end of the session takes the pending change away |
| `SubscriptionRuns.FailedSendingLosesTheNewest` | include/lightstreamer/client/requests/RequestTutor.hpp:74-80 | in a session, a confirmed subscription is changed twice; the failed sending of the first change makes the second be given up unanswered |
| `SubscriptionManagement.SubscriptionManager.DoAdd` | include/lightstreamer/client/SubscriptionManager.hpp:290-310 | a fresh id; subscribed at once or paused |
| `SubscriptionManagement.SubscriptionManager.DoRemove` | include/lightstreamer/client/SubscriptionManager.hpp:317-329 | the delete is put off, sent or not needed; the subscription is off and no longer registered |
| `SubscriptionManagement.SubscriptionManager.Unsubscribe` | include/lightstreamer/client/SubscriptionManager.hpp:270-280 | the id moves to pendingDelete and one delete leaves |
| `SubscriptionManagement.SubscriptionManager.ChangeFrequency` | include/lightstreamer/client/SubscriptionManager.hpp:132-161 | a new reconfiguration id becomes the pending one and is sent |
| `SubscriptionManagement.SubscriptionManager.PauseAllSubscriptions` | include/lightstreamer/client/SubscriptionManager.hpp:212-251 | every registered subscription is paused |
| `SubscriptionManagement.SubscriptionManager.SendAllSubscriptions` | include/lightstreamer/client/SubscriptionManager.hpp:334-377 | each registered subscription is woken and requested once, in the order of the iteration |
| `SubscriptionManagement.SubscriptionManager.OnSessionStart` | include/lightstreamer/client/SubscriptionManager.hpp:394-398 | the session is alive and all subscriptions are sent |
| `SubscriptionManagement.SubscriptionManager.OnSessionClose` | include/lightstreamer/client/SubscriptionManager.hpp:400-405 | the session is over, all are paused, nothing is pending |
| `SubscriptionManagement.SubscriptionManager.ExtractSubscriptionOrUnsubscribe` | include/lightstreamer/client/SubscriptionManager.hpp:407-421 | the registered subscription, or a delete unless one is pending |
| `SubscriptionManagement.SubscriptionManager.OnAnswer` | include/lightstreamer/client/SubscriptionManager.hpp:512-550 | acknowledgement, confirmation and error of a subscription |
| `SubscriptionManagement.SubscriptionManager.OnUnsubscription` | include/lightstreamer/client/SubscriptionManager.hpp:493-510 | the delete is settled; one that was put off leaves now |
| `SubscriptionManagement.SubscriptionManager.OnReconfigured` | include/lightstreamer/client/SubscriptionManager.hpp:531-540 | only an answer to the pending change clears it |
| `SubscriptionManagement.SubscriptionManager.NotifySender` | include/lightstreamer/client/SubscriptionManager.hpp:618-636 | a tutor of the current phase enters the next phase with its subscription; a stale one does nothing |
| `SubscriptionManagement.SubscriptionManager.VerifySuccess` | include/lightstreamer/client/SubscriptionManager.hpp:637-649 | when each kind of tutor has nothing left to do |
| `SubscriptionManagement.SubscriptionManager.OnTimeout` | include/lightstreamer/client/requests/RequestTutor.hpp:96-118 | no success and a retry due: the kind's own recovery |
| `SubscriptionManagement.SubscriptionManager.NotifyAbort` | include/lightstreamer/client/SubscriptionManager.hpp:584-588 | an aborted request leaves nothing pending for its id |
| `SubscriptionManagement.Subscription.OnSubscriptionSent` | include/lightstreamer/client/Subscription.hpp:931-940 | SUBSCRIBING, unless it is already |
| `Percent.UnquoteSucceedsIff` | include/lightstreamer/util/EncodingUtils.hpp:48-73 | unquote returns a text exactly when every % is followed by two hexadecimal digits |
| `Percent.UnquoteDivergesIff` | include/lightstreamer/util/EncodingUtils.hpp:54-67 | the loop runs for ever exactly on the texts whose first % without two hexadecimal digits behind it has fewer than two characters behind it |
| `Percent.UnquoteIsStuckIff` | include/lightstreamer/util/EncodingUtils.hpp:54-67 | the specified outcome is stuck exactly on those texts |
| `Percent.TruncatedTexts` | include/lightstreamer/util/EncodingUtils.hpp:54-67 | ab%4 keeps the loop going; %zz% fails before its last character is reached |
| `Percent.UnquoteInvertsEveryEncoder` | include/lightstreamer/util/EncodingUtils.hpp:48-91 | unquote decodes every percent encoding of a text and nothing else |
| `Percent.UnquoteOfEncode` | include/lightstreamer/client/requests/LightstreamerRequest.hpp:126-138 | unquote undoes percentEncodeTLCP on every text |
| `Percent.EncodeIsSafe` | include/lightstreamer/client/requests/LightstreamerRequest.hpp:164-166 | no CR, LF, plus sign, ampersand or equals sign is in the output, and every % starts a triplet |
| `Percent.EncodeCharByChar` | include/lightstreamer/client/requests/LightstreamerRequest.hpp:126-138 | each character is written on its own: CR, LF, %, +, & and = as three characters, any other as it is |
| `Percent.FormReaderGetsText` | include/lightstreamer/client/requests/LightstreamerRequest.hpp:126-138 | a reader that turns plus signs into spaces before unquoting gets back every text |
| `Percent.EncodedPlus` | include/lightstreamer/client/requests/LightstreamerRequest.hpp:126-138 | a+b is written a%2Bb |
| `Percent.HexDigits` | include/lightstreamer/util/EncodingUtils.hpp:76-91 | the hexadecimal digits are those of both cases, with their values |
| `Percent.PercentEncodeTLCP` | include/lightstreamer/client/requests/LightstreamerRequest.hpp:126-138 | what unquote turns back into the input, free of CR, LF, plus signs, ampersands and equals signs |
| `Percent.UnquoteText` | include/lightstreamer/util/EncodingUtils.hpp:48-73 | a text exactly on well-formed input, and which of the failures otherwise |
| `UpdateLine.UpdateLineRoundTrip` | include/lightstreamer/client/protocol/TextProtocol.hpp:985-1046 | a printed line, for every grouping of unchanged fields and every percent encoding, is read back as the same table, item and fields, null being empty |
| `UpdateLine.EveryFieldListIsPrintable` | include/lightstreamer/client/protocol/TextProtocol.hpp:986-987 | every list of fields made of bytes has such a line |
| `UpdateLine.LoopCompletesIff` | include/lightstreamer/client/protocol/TextProtocol.hpp:1013-1046 | the loop gets through a line exactly when every piece is readable, and closes the session exactly on a misused # or $ |
| `UpdateLine.LoopEndsAtFirstUnreadable` | include/lightstreamer/client/protocol/TextProtocol.hpp:1013-1046 | the loop ends at the first unreadable piece, whose form says how; the session is closed exactly when a # or $ was misused before |
| `UpdateLine.HeaderByCommas` | include/lightstreamer/client/protocol/TextProtocol.hpp:985-1012 | the header is what stands between the commas of the line; a missing comma is illegal, and the line is counted exactly when table and item are numbers |
| `UpdateLine.ReadFields` | include/lightstreamer/client/protocol/TextProtocol.hpp:1013-1046 | the loop over fieldStart reads the pieces between the separators in order |
| `UpdateLine.ReadField` | include/lightstreamer/client/protocol/TextProtocol.hpp:1023-1044 | one turn of the loop adds what one piece stands for |
| `UpdateLine.ProcessUpdate` | include/lightstreamer/client/protocol/TextProtocol.hpp:985-1046 | header errors, the missing field part, and the fields |
| `Decimal.StoiOfToString` | include/lightstreamer/client/protocol/TextProtocol.hpp:1004-1005 | reading a printed number gives it back, up to the largest int |
| `Decimal.StoiReadsNumber` | include/lightstreamer/client/protocol/TextProtocol.hpp:1004-1005 | white space before a number and other text behind it do not matter, a sign does |
| `Decimal.StoiLimits` | include/lightstreamer/client/protocol/TextProtocol.hpp:1004-1005 | the largest and smallest int are read, the numbers next to them are not |
| `Strings.SplitOfJoin` | include/lightstreamer/client/protocol/TextProtocol.hpp:1017-1023 | splitting at a separator undoes joining |
| `DeltaState.DeltasRebuildTheServerTable` | include/lightstreamer/client/Subscription.hpp:1133-1146 | over any run of deltas the listener sees every server row in full, exactly when no value sent equals the marker; the stored rows are then the server's |
| `DeltaState.MergeIsServerRowIff` | include/lightstreamer/client/Subscription.hpp:1133-1146 | one update rebuilds the server's row exactly when it does not send the marker as a value |
| `UpdateStream.StreamShowsEveryRowIff` | include/lightstreamer/client/protocol/TextProtocol.hpp:985-1046 | over any run of rows, printed as update lines with any grouping and percent encoding, read and merged, there is one call for each line with the item and its whole row, exactly when no value sent is the text of the marker; the stored rows are then the server's |
| `RecoveredStream.RowsSurviveRecoveriesIff` | include/lightstreamer/client/protocol/TextProtocol.hpp:985-1226 | in every run of breaks, recoveries and rebinds over a stream of update lines, the listener has been told exactly the first dataNotificationCount rows, each once, in order and in full, and the stored rows are the server's, if and only if none of these lines sends the marker |
| `RecoveredStream.NoRowIsLostIff` | include/lightstreamer/client/protocol/TextProtocol.hpp:744-763 | from every resumable state so reached, finishing the sending and reading tells the listener every row, exactly when no line sends the marker |
| `RecoveredStream.NoRowIsLostInReach` | include/lightstreamer/client/session/Session.hpp:344-356 | every run whose recoveries resume in reach leaves the session resumable, so all its rows can arrive, exactly when no line sends the marker |
| `UpdateStream.EveryRowHasALine` | include/lightstreamer/client/protocol/TextProtocol.hpp:986-987 | every row of bytes, with any choice of positions sent, has such a line |
| `DeltaState.ChangedSetIsWhatWasSent` | include/lightstreamer/client/Subscription.hpp:1123-1131 | the changed set, which PrepareChangedSet computes, is the set of positions sent |
| `DeltaState.PrepareChangedSet` | include/lightstreamer/client/Subscription.hpp:1123-1131 | the changed set: the positions that do not hold the marker |
| `DeltaState.Values.UpdateStructure` | include/lightstreamer/client/Subscription.hpp:1133-1146 | args are rewritten in place to the merged row, and the stored row with them |
| `DeltaState.NeverSentIsEmpty` | include/lightstreamer/client/Subscription.hpp:1133-1146 | a position never sent reads as the empty text and is stored so |
| `DeltaState.OrganizeMPUpdate` | include/lightstreamer/client/Subscription.hpp:1148-1167 | the key of an update, read from the line or from the stored row |
| `DeltaState.KeyOutsideRowIff` | include/lightstreamer/client/Subscription.hpp:1148-1158 | there is no key exactly when key or command lie outside the row |
| `DeltaState.CommandRowsNeverClash` | include/lightstreamer/client/Subscription.hpp:1148-1167 | two updates share a key exactly when item and key field agree |
| `DeltaState.ExtendedKeyInjective` | include/lightstreamer/client/Subscription.hpp:1159-1164 | distinct pairs of item and key have distinct row keys |
| `WireFraming.BatchBodyRoundTrip` | include/lightstreamer/client/protocol/HttpRequestManager.hpp:437-446 | splitting a body on CR LF, & and = and unquoting gives back all parameters of all requests exactly when each request has one |
| `WireFraming.SameBodySameBatch` | include/lightstreamer/client/protocol/HttpRequestManager.hpp:437-446 | two batches of non-empty requests never share a body |
| `WireFraming.ReadBuffer` | include/lightstreamer/client/requests/LightstreamerRequest.hpp:76-78 | the parameters of one request are read back in order |
| `WireFraming.LightstreamerRequest.AddParameter` | include/lightstreamer/client/requests/LightstreamerRequest.hpp:76-78 | appends one encoded parameter |
| `WireFraming.LightstreamerRequest.GetTransportAwareQueryString` | include/lightstreamer/client/requests/LightstreamerRequest.hpp:93-107 | the session goes last unless it is the default one; the query is never empty |
| `WireFraming.SessionIsSentIff` | include/lightstreamer/client/requests/LightstreamerRequest.hpp:93-107 | the server reads the parameters and then LS_session, the latter if and only if there is a session other than the default one |
| `WireFraming.BatchedRequest.Add` | include/lightstreamer/client/protocol/HttpRequestManager.hpp:437-442 | appends a request after a separator |
| `Heartbeat.OneTaskAndNoLongGap` | include/lightstreamer/client/protocol/ReverseHeartbeatTimer.hpp:43-202 | after every run at most one live task, exactly one while bound, enabled and open; if tasks run on time, the start, a control request or a heartbeat lies no further back than the interval; the interval is within the maximum |
| `Heartbeat.StepKeepsInv` | include/lightstreamer/client/protocol/ReverseHeartbeatTimer.hpp:73-116 | each call and each task keeps the one live task and its deadline |
| `Heartbeat.StaleTaskIsHarmless` | include/lightstreamer/client/protocol/ReverseHeartbeatTimer.hpp:188-193 | a task of an earlier phase changes nothing |
| `Heartbeat.SilentAfterClose` | include/lightstreamer/client/protocol/ReverseHeartbeatTimer.hpp:95-107 | no heartbeat follows onClose, whatever happens later |
| `Heartbeat.HeartbeatsAreNeeded` | include/lightstreamer/client/protocol/ReverseHeartbeatTimer.hpp:104-116 | a heartbeat leaves only if the last control request is at least an interval old |
| `Heartbeat.HeartbeatsFollowSilence` | include/lightstreamer/client/protocol/ReverseHeartbeatTimer.hpp:90-116 | over every run a heartbeat leaves only when every control request and every bind sent as one lies at least the interval back |
| `Heartbeat.LastSentIsLatest` | include/lightstreamer/client/protocol/ReverseHeartbeatTimer.hpp:73-93 | the time kept is that of the latest control request or bind sent as one |
| `Heartbeat.WorksIff` | include/lightstreamer/client/protocol/ReverseHeartbeatTimer.hpp:73-107 | after every run the timer works, with its live task, if and only if a session was bound, none was closed, and heartbeats are wanted |
| `Heartbeat.IntervalIsAsAsked` | include/lightstreamer/client/protocol/ReverseHeartbeatTimer.hpp:155-175 | after every run the interval is the longest within what the user asked for last and the maximum |
| `Heartbeat.LimitedIsGreatestLowerBound` | include/lightstreamer/client/protocol/ReverseHeartbeatTimer.hpp:139-166 | the interval in use is the longest no longer than the user's and the maximum, 0 being infinite |
| `Heartbeat.ReverseHeartbeatTimer.constructor` | include/lightstreamer/client/protocol/ReverseHeartbeatTimer.hpp:63-67 | starts with the maximum, unbound, without tasks |
| `Heartbeat.ReverseHeartbeatTimer.SetCurrentInterval` | include/lightstreamer/client/protocol/ReverseHeartbeatTimer.hpp:155-175 | a changed interval makes the pending task stale and schedules anew once bound |
| `Heartbeat.ReverseHeartbeatTimer.Schedule` | include/lightstreamer/client/protocol/ReverseHeartbeatTimer.hpp:104-126 | a heartbeat now or a task for the time left |
| `Heartbeat.ReverseHeartbeatTimer.OnBindSession` | include/lightstreamer/client/protocol/ReverseHeartbeatTimer.hpp:73-81 | the first bind starts the timer |
| `Heartbeat.ReverseHeartbeatTimer.TaskFired` | include/lightstreamer/client/protocol/ReverseHeartbeatTimer.hpp:178-202 | an overtaken task ends, the live one schedules |
| `SessionPhases.RunKeepsInv` | include/lightstreamer/client/session/SessionManager.hpp:190-196 | in every run statusPhase never decreases and neither ERROR nor END is entered; a timeout with the current phase finds a switch |
| `SessionPhases.OvertakenForGood` | include/lightstreamer/client/session/SessionManager.hpp:335-355 | a callback or timeout of an overtaken phase does nothing in any later state |
| `SessionPhases.FrozenTransportStays` | include/lightstreamer/client/session/SessionManager.hpp:228-264 | with the transport forced a run keeps it all through if and only if no event of it leaves it; none does in a run of senses, slow-downs, switches, timeouts, and retries outside a switch to WS |
| `SessionPhases.TransportChangesIff` | include/lightstreamer/client/session/SessionManager.hpp:426-558 | a step changes the transport exactly when it is one of the named events: a session of another transport, a closing without recovery, a sense of an unforced WS streaming or HTTP polling session, a retry or recovery during a switch to WS |
| `SessionPhases.TransportStaysIff` | include/lightstreamer/client/session/SessionManager.hpp:228-264 | over any run, forced or not, the transport stays the same all through if and only if no event is one of these |
| `SessionPhases.ForcedTransportIsLeft` | include/lightstreamer/client/session/SessionManager.hpp:453-462 | a forced WS session, closed for a recovery during a switch, is retried as HTTP polling |
| `SessionPhases.SenseChangesTransportIff` | include/lightstreamer/client/session/SessionManager.hpp:535-558 | sensing changes the transport exactly when it is not forced and WS streaming or HTTP polling fails |
| `SessionPhases.SensesGoRound` | include/lightstreamer/client/session/SessionManager.hpp:228-246 | unforced senses lead from WS streaming to HTTP streaming, HTTP polling and back |
| `SessionPhases.ForcedSensesEnd` | include/lightstreamer/client/session/SessionManager.hpp:228-246 | forced ones end in streaming over WS and in polling over HTTP |
| `SessionPhases.SwitchingIsReplacing` | include/lightstreamer/client/session/SessionManager.hpp:535-558 | a session switched by a sense is, once ready, of the type that replacing it gives |
| `SessionPhases.SlowEndsInPolling` | include/lightstreamer/client/session/SessionManager.hpp:252-266 | a slow session ends in polling over its transport if it streams or is switched over HTTP, and is left alone otherwise |
| `SessionPhases.RetryKeepsTransportIff` | include/lightstreamer/client/session/SessionManager.hpp:453-526 | retry and recovery keep the transport, forced or not, exactly when the status is not OFF nor a switch to WS |
| `SessionPhases.RecoveryKeepsType` | include/lightstreamer/client/session/SessionManager.hpp:453-526 | outside a switch retry and recovery keep polling and streaming too |
| `SessionPhases.ReplacedIsOvertaken` | include/lightstreamer/client/session/SessionManager.hpp:702-718 | a replaced session holds no current phase, neither its own nor the one its closing gives it |
| `SessionPhases.ClosingCountsIff` | include/lightstreamer/client/session/SessionManager.hpp:702-718 | a closing raises the phase if and only if there is a session and it holds the current one |
| `SessionPhases.SwitchEndsWhereMeant` | include/lightstreamer/client/session/SessionManager.hpp:823-879 | a switch ends in the type it was meant for, by a ready session, a timeout or a sense |
| `SessionPhases.SwitchHangsIff` | include/lightstreamer/client/session/SessionManager.hpp:426-434 | after any run a switch is under way with no timeout of its phase if and only if a request of createSession to a live session that did not answer at once, or the closing of a switching session for a recovery, was the last event to raise the phase |
| `SessionPhases.UnwatchedStepIff` | include/lightstreamer/client/session/SessionManager.hpp:702-718 | a step leaves a switch unwatched exactly when it is one of those events, or one was unwatched and the phase has not moved |
| `SessionPhases.HangingSwitches` | include/lightstreamer/client/session/SessionManager.hpp:426-444 | a switch by createSession and a watched switch whose session is closed for a recovery |
| `SessionManagement.SessionManager.CreateSession` | include/lightstreamer/client/session/SessionManager.hpp:426-444 | a live session is asked to switch, otherwise it is replaced |
| `SessionManagement.SessionManager.StreamSense` | include/lightstreamer/client/session/SessionManager.hpp:823-841 | phase check, next type, replacement |
| `SessionManagement.SessionManager.StreamSenseSwitch` | include/lightstreamer/client/session/SessionManager.hpp:535-558 | phase check, switch, timeout and the session's answer |
| `SessionManagement.SessionManager.OnSlowRequired` | include/lightstreamer/client/session/SessionManager.hpp:588-604 | phase check, slow switch and timeout |
| `SessionManagement.SessionManager.SwitchReady` | include/lightstreamer/client/session/SessionManager.hpp:850-868 | phase check and settling |
| `SessionManagement.SessionManager.SwitchTimeout` | include/lightstreamer/client/session/SessionManager.hpp:335-355 | phase check and a new session of the type meant |
| `SessionManagement.SessionManager.Retry` | include/lightstreamer/client/session/SessionManager.hpp:453-462 | phase check and a session of the type derived from the status |
| `SessionManagement.SessionManager.RecoverSession` | include/lightstreamer/client/session/SessionManager.hpp:505-526 | phase check and the status of the recovered session |
| `SessionManagement.SessionManager.OnSessionClose` | include/lightstreamer/client/session/SessionManager.hpp:702-718 | the phase moves on with every close |
| `SessionTimers.TimersActInTheirPhase` | include/lightstreamer/client/session/Session.hpp:540-553 | in every run a timeout is handled only in the phase its timer was launched in |
| `SessionTimers.OvertakenForGood` | include/lightstreamer/client/session/Session.hpp:799-803 | after one change of phase no earlier timer is ever handled, even if the phase comes back, and even if the change falls between the two tests |
| `SessionTimers.KeptIff` | include/lightstreamer/client/session/Session.hpp:227-246 | changePhaseType reports success exactly when nothing changed or those told of the change left the new phase alone; then the session is in it |
| `SessionTimers.LaunchedIsHandled` | include/lightstreamer/client/session/Session.hpp:540-553 | a launched timer that wakes and calls onTimeout in an unchanged phase is handled |
| `SessionTimers.LaunchesIff` | include/lightstreamer/client/session/Session.hpp:565-581 | a timer is launched, in the new phase, if and only if those told of the change left it alone |
| `SessionTimers.Session.ChangePhaseType` | include/lightstreamer/client/session/Session.hpp:227-246 | the new phase, then what those told of it do, and whether the phase was kept |
| `SessionTimers.Session.LaunchTimeout` | include/lightstreamer/client/session/Session.hpp:540-553 | a sleeping timer with the current count |
| `SessionTimers.Session.TimeoutFor` | include/lightstreamer/client/session/Session.hpp:565-581 | a timer only for a change that was kept |
| `SessionTimers.Session.HandleTimeout` | include/lightstreamer/client/session/Session.hpp:799-803 | an overtaken timer is dropped, any other is handled |
| `Listeners.TraceOfRegistration` | include/lightstreamer/client/events/EventDispatcher.hpp:67-125 | in every interleaving a registration gets its start, the events reached before its removal in order of dispatch, and its end; all of it once the queue is worked off, and then one still alive has got every event dispatched to it |
| `Listeners.HistoryRecords` | include/lightstreamer/client/events/EventDispatcher.hpp:91-96 | a dispatch reaches every live registration once; a removal ends one; an event passes exactly when the worker looks at a dispatched one while the registration is alive |
| `Listeners.WorkerCatchesUp` | include/lightstreamer/client/events/EventsThread.hpp:48-60 | left alone the worker empties the queue, and a removed listener has got all it is owed |
| `Listeners.NewStartAfterOldEnd` | include/lightstreamer/client/events/EventDispatcher.hpp:67-89 | a listener that is added again sees nothing of the new registration before the old one is over |
| `Listeners.StepKeepsInv` | include/lightstreamer/client/events/EventDispatcher.hpp:115-125 | each call and each worker step keeps queue, worker and trace in agreement with what every registration is owed |
| `EventDispatching.EventDispatcher.AddListener` | include/lightstreamer/client/events/EventDispatcher.hpp:67-76 | one registration at a time for each listener, its start queued |
| `EventDispatching.EventDispatcher.RemoveListener` | include/lightstreamer/client/events/EventDispatcher.hpp:78-89 | the wrapper is no longer alive and its end is queued |
| `EventDispatching.EventDispatcher.DispatchEvent` | include/lightstreamer/client/events/EventDispatcher.hpp:91-96 | one task for each listener |
| `EventDispatching.EventDispatcher.WorkerLooks` | include/lightstreamer/client/events/EventDispatcher.hpp:115-118 | the event applies if it is forced or the wrapper is alive now |
| `Listeners.AppliedInQueueOrder` | include/lightstreamer/client/events/EventsThread.hpp:48-77 | the queue is first in, first out for all listeners together: what has been handed over is a subsequence of what was queued, and the rest of the queue comes after all of it |
| `Backoff.ClosedForm` | include/lightstreamer/client/session/RetryDelayCounter.hpp:70-82 | n increases, one by one, lead to min(max(60000, d), d times two to the max(0, n - 9)), for every delay d |
| `Backoff.DelayGrowsToMaximum` | include/lightstreamer/client/session/RetryDelayCounter.hpp:44-48 | delays never shrink, stay within max(60000, d), and reach it after 25 increases at the latest |
| `Backoff.FirstDelays` | include/lightstreamer/client/session/RetryDelayCounter.hpp:70-82 | nine increases leave a short delay alone, the tenth and eleventh double it, and a minute is the longest |
| `Backoff.RetryDelayCounter.Increase` | include/lightstreamer/client/session/RetryDelayCounter.hpp:70-82 | the field holds the closed form of the attempts made, and one more increase that of one attempt more |
| `Backoff.RetryDelayCounter.constructor` | include/lightstreamer/client/session/RetryDelayCounter.hpp:56-58 | starts at the closed form for 0 |
| `Backoff.TimeoutsDouble` | include/lightstreamer/client/requests/RequestTutor.hpp:55-118 | the k-th timeout of a request that is no forced rebind is 4000 times two to the k along any mixture of rescheduled and re-created tutors; each at least twice the one before if sendings fail too |
| `Backoff.TimeoutsDoubleIff` | include/lightstreamer/client/session/Session.hpp:1231-1263 | without failed sendings, the k-th timeout is 4000 times two to the k all along if and only if the request is no forced rebind or has started one timeout at most |
| `Backoff.RebindTimeoutsStay` | include/lightstreamer/client/session/Session.hpp:621-628 | every timeout of a forced rebind is 4000, whatever fails or expires |
| `Backoff.SecondTimeout` | include/lightstreamer/client/requests/RequestTutor.hpp:96-118 | when the first timeout expires, a forced rebind waits 4000 again and any other request 8000, whether a new tutor takes over or not |
| `Backoff.FailedFirst` | include/lightstreamer/client/requests/RequestTutor.hpp:74-80 | a failed first sending makes the first timeout 8000, for a forced rebind 4000 |
| `Backoff.NextTimeoutStartsIff` | include/lightstreamer/client/requests/RequestTutor.hpp:96-118 | after a timeout the next starts at once if and only if the same tutor goes on; otherwise with the next sending |
| `Backoff.StoppedForGood` | include/lightstreamer/client/requests/RequestTutor.hpp:96-118 | after success or with its session closed no timeout of a request starts again |
| `Backoff.RequestTutor.OnTimeout` | include/lightstreamer/client/requests/RequestTutor.hpp:96-118 | stop, hand over to a new tutor, which for a forced rebind always happens and starts afresh, or reschedule with twice the timeout |
| `Backoff.RequestTutor.NotifySender` | include/lightstreamer/client/requests/RequestTutor.hpp:74-80 | a failed sending is recovered at once under a new tutor, with twice the timeout or, for a forced rebind, the first one; any other starts the timeout |
| `Backoff.RequestTutor.StartTimeout` | include/lightstreamer/client/requests/RequestTutor.hpp:84-89 | one pending timeout at most |
| `Bandwidth.BandwidthRetransmissionMonitor.CanSend` | include/lightstreamer/client/session/Session.hpp:678-686 | a request is allowed exactly when the log of allowed and answered requests stays in order with it |
| `Bandwidth.BandwidthRetransmissionMonitor.OnReceivedResponse` | include/lightstreamer/client/session/Session.hpp:689-695 | an answer is recorded; older ones do not move the newest back |
| `Bandwidth.LogOrder` | include/lightstreamer/client/session/Session.hpp:678-695 | the test on the two newest ids decides for the whole history: allowed ids never decrease and none is at or below an answered one |

## Left out

- Sockets, HTTP and WebSocket transports, cookies, TLS, proxies: foreign calls; a send is an entry in a log.
- Threads, mutexes and real clocks: steps over pending tasks and a clock that only steps move.
- Exceptions thrown by listeners, tutors or the logger: the model takes the path on which they return.
- Regular expressions: matched messages are events, except for the hand-written update loop.
- Integer widths: counters, phases and delays are unbounded, apart from std::stoi, which keeps the range of int.
- The phase graph of Session: nothing in the port enters RECEIVING or PAUSE; of Session only the counters, the guards of its timers and the bandwidth monitor are modelled, with phase changes left open.
- TextProtocol::setStatus and the choice of the active listener: only easy members.
- MessageManager, MPN callbacks, SessionWS, ItemUpdate: stubs or placeholders.
- Second-level subscriptions: their pause and clean-up code is missing in the port.
- The query override and LS_msg_prog of MessageRequest: framing covers the parameters, the batch only the lengths; a request carries the length of its text in a batch and the length announced by getNextRequestLength, which may be larger.
- The answers to the requests of one batch: BatchedListener's dispatch is left out, and each batch is closed or broken once.
- HttpRequests.HttpRequestManager.CopyTo: the emptied shell that a moved request leaves in a vector or map when the hand-over throws is modelled as gone; the two managers share no queue.
- DeltaState.OrganizeMPUpdate: positions of key and command are at least 1, as a server sends them.
- WireFraming.BatchBodyRoundTrip: parameter names are plain, as all names in the library are literals without separators.
- Subscriptions.CollectionsStayApart: assumes that the server names ids it was told of; ApartForGoodIff says what happens otherwise.
- SubscriptionTutors.WaitingIsAttended: for runs in which the server speaks only during a session and of ids it was told of, sessions do not overlap, a tutor finds its server session closed only when that is over or while it serves a change, a request replaced in the queue is not sent, and a subscribe request is aborted only if it was replaced there or its tutor no longer wants it sent.
- Heartbeat.OneTaskAndNoLongGap: the bound on the gap is for tasks that run when they are due.
- Fixed timeouts of RequestTutor: SubscriptionManager reads a fixedTimeout that it does not declare; ForceRebindTutor overrides timeoutFixed and fixedTimeout, but is made without asking for a fixed timeout and is never rescheduled, so neither is consulted.
- VoidTutor: it is satisfied at its first timeout and recovers nothing.
- Option setters, builders and the LightstreamerClient facade: plain forwarding.
