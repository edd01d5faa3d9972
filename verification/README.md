# sukko-py: verified model of recovery, delivery, auth and reconnect

This project models the stateful core of the sukko-py client in Dafny and proves what the
code promises about whole runs. `dafny verify dfyconfig.toml` checks all of it.

## What is modelled

| file | models |
|---|---|
| RecoverySpec, RecoveryEngine | the gap-recovery engine: as a transition function `Apply`, and as a class over mutable channel records whose every method is proved equal to it |
| RecoveryRuns | runs of the engine, its invariant, and the share of one channel in a call |
| RecoveryGaps | which gaps are open, what settles them, the conservative anchor, the replay floor, the reconnect payload |
| RecoveryCalls | exactly when a call sends a replay, reports a loss or a timeout, and opens or closes a history request, read off the calls and the returned actions |
| RecoveryTimers, RecoveryProgress | `due` against `next_deadline`, no false alarm, bounded detection, progress of floor waits |
| DeliveryQueue | the bounded queue in its three modes, with exact accounting over all interleavings of puts and gets |
| RecoveryActions | the client's execution of returned actions, and which of them are lost when a send or a put fails |
| Pump | the read pump, the consumer, the timer and outside callers interleaved over one engine and one queue |
| Auth | refresh and escalation as callers with a program counter, interleaved at their suspensions |
| Supervisor | full-jitter backoff and the reconnect loop, driven by a script of the environment |
| Sse | the SSE line parser, printing, and resuming after a broken stream |
| Heartbeat | the heartbeat loop |

How to read it:

- State that the source changes in place is a class. Its methods are proved against a
  specification function on values, and the theorems are about that function over all runs.
- A run is a sequence of calls with clock readings that never decrease, together with what each
  call returned. A gap is identified by its index in the run, so gaps with equal positions stay
  distinct. A gap is *open* until a call on its channel sends a replay, reports a loss or degrades
  to Direct; this is read off the calls and the returned actions, not off the engine's fields.
- Coroutines are interleaved at their suspension points only. A move that is not enabled changes
  nothing, so every list of moves is a legal schedule.
- Awaiting a settled future does not suspend, and the callers that wait for one future wake in the
  order in which they began to wait, as in asyncio. A coroutine that loops without suspending hangs
  the event loop: the state is marked stuck and no move changes it.
- What a call returns is compared as a list: the part about one channel is exactly what that
  channel's step asks for, and sends are counted one by one over the flattened run.
- Time is `real`, the source's `-inf` is `None`, a Python dictionary keeps its insertion order.
  The clock, the random draw, the fetched token, the lines of a stream and the behaviour of the
  network are parameters. The client id is given, not generated.
- Interruption reasons are constructors instead of strings, so a failure code never collides with
  a timeout text. An `asyncio.Queue` of size zero or less is unbounded, as in asyncio.

## Findings

Places where the code does not do what its comments say, or does it only under a condition. Each
is proved.

- A non-positive `recovery_deadline` makes the timer loop spin (`TimersAgreeIffDeadlinePositive`).
- `sse.py:161-162` moves the cursor when it reads an id line, before the event is dispatched. If
  the stream breaks between the id line and the blank line, the resume skips that event
  (`ResumeLosesOnlyAnIdentifiedEvent`; one event in `BreakAfterIdLosesTheEvent`).
- `backpressure.py:91-94` says that an Overflow marker is surfaced first. A get that was suspended
  on an empty queue and wakes after an eviction delivers an item ahead of the marker
  (`SuspendedGetOvertakesMarker`, and the exact condition in `MarkersAccountForEverySkip`).
- `close` on a full queue evicts an item that no marker counts (`CloseEndsTheStream`; one item in
  `CloseLosesAnItem`).
- `escalate` waits for an in-flight refresh in a loop around `await` (`auth.py:156-163`). If it comes
  round while the slot is taken by a claim whose future is settled by an ack or a rejection, the
  `await` does not suspend, and the loop never ends: the event loop hangs. A connected call can end
  that way if and only if it finds the slot taken by a claim that is open or so settled
  (`EscalateSpinsIff`). It hangs on the claim it finds when it began before that refresh was waiting
  for its ack, because waiters wake in the order in which they began to wait
  (`OrdinaryRefreshHangsEscalation`); otherwise it can still hang on a later refresh that takes the
  slot before it wakes (`LaterRefreshHangsEscalation`).
- `client.py:692-709` executes the actions of one call in order and stops at the first send that
  fails. A loss report behind a send is then dropped, and the channel is idle by then, so the
  disconnect does not report it either (`ReportCanBeLostIff`, `LostTimeoutIsNotRepeated`,
  `FailedSendHidesATimeout`).

## Model

| member | source | states |
|---|---|---|
| RecoveryObject.RecoveryEngine.constructor | src/sukko/recovery.py:91-115 | a new engine has empty tables, is not paused and satisfies the invariant |
| RecoveryObject.RecoveryEngine.NotePos | src/sukko/recovery.py:119-123 | records the last position of a channel; a missing position changes nothing |
| RecoveryObject.RecoveryEngine.GetChannel | src/sukko/recovery.py:129-134 | returns the record of a channel, creating a fresh one on first use and disturbing no other |
| RecoveryObject.RecoveryEngine.BeginReplay | src/sukko/recovery.py:158-165 | puts the record in flight: no anchor, floor stamp now, deadline one window ahead, current pause count |
| RecoveryObject.RecoveryEngine.HandleGap | src/sukko/recovery.py:138-156 | in-place coalescing of a gap is exactly the specified transition, actions included, and keeps the invariant |
| RecoveryObject.RecoveryEngine.HandleReplayComplete | src/sukko/recovery.py:184-203 | completion returns to idle or starts the floor-gated follow-up cycle, exactly as specified |
| RecoveryObject.RecoveryEngine.NoteBackpressure | src/sukko/recovery.py:167-176 | sets the pause flag and opens an episode on a False-to-True edge only |
| RecoveryObject.RecoveryEngine.NoteReplayMessage | src/sukko/recovery.py:205-212 | re-arms the silence deadline of a channel in mid-replay and of no other |
| RecoveryObject.RecoveryEngine.Due | src/sukko/recovery.py:216-255 | the two loops over the mutable tables, with deletion while iterating, compute exactly the specified state and action list, in dictionary order |
| RecoveryObject.RecoveryEngine.NextDeadline | src/sukko/recovery.py:257-266 | the minimum of all floor wakes and deadlines, or none |
| RecoveryObject.RecoveryEngine.NoteHistoryRequest | src/sukko/recovery.py:270-275 | arms the history deadline |
| RecoveryObject.RecoveryEngine.NoteHistoryMessage | src/sukko/recovery.py:277-284 | re-arms the history deadline only if a request is in flight |
| RecoveryObject.RecoveryEngine.HandleHistoryComplete | src/sukko/recovery.py:286-287 | drops the history deadline, if any |
| RecoveryObject.RecoveryEngine.BuildReconnect | src/sukko/recovery.py:291-304 | resume from stored positions, probe once connected before, or nothing |
| RecoveryObject.RecoveryEngine.MarkConnected | src/sukko/recovery.py:306-310 | sets the connected-once flag and nothing else |
| RecoveryObject.RecoveryEngine.HandleNotAvailable | src/sukko/recovery.py:312-318 | degrades to Direct, wipes positions and records, announces one possible gap per resubscribed channel |
| RecoveryObject.RecoveryEngine.HandleRecoveryFailure | src/sukko/recovery.py:320-328 | resets the channel and reports the failure |
| RecoveryObject.RecoveryEngine.HandleDisconnect | src/sukko/recovery.py:330-342 | reports every truncated recovery and history request, in order, and clears both tables |
| RecoveryRuns.ApplyKeepsInv | src/sukko/recovery.py:138-342 | every call keeps: a deadline exists exactly while replaying, a floor wait has an anchor and wakes at last replay + floor, a follow-up exists only while replaying |
| RecoveryRuns.Reachable | src/sukko/recovery.py:91-342 | the invariant holds in every state of every run, and the configuration never changes |
| RecoveryRuns.Projection | src/sukko/recovery.py:138-342 | the subsequence of returned actions about a channel's recovery is exactly that channel's own outcome, each action once, whatever else the call does |
| RecoveryRuns.HistoryProjection | src/sukko/recovery.py:243-342 | the same for the history request of a channel: its timeout and its disconnect are reported once |
| RecoveryRuns.DisconnectReportsHistory | src/sukko/recovery.py:339-342 | a disconnect reports a channel's history request if and only if one was open |
| RecoveryRuns.EpisodesGrow | src/sukko/recovery.py:167-176 | the episode counter never decreases, and while it stands still after an unpaused moment the engine stays unpaused |
| RecoveryGaps.AnchorIsFirstOpenGap | src/sukko/recovery.py:138-203 | in every run the stored anchor is the position of the oldest open gap of the channel, and there is none if and only if no gap is open |
| RecoveryGaps.ReplayStartsAtOldestOpenGap | src/sukko/recovery.py:138-242 | every replay ever sent starts at the position of the oldest gap then open |
| RecoveryGaps.SentPositionsAreGapPositions | src/sukko/recovery.py:138-242 | in every run the flattened list of positions sent on a channel is read off strictly increasing gaps, each the oldest gap open at its send: no gap is used twice, by one call or by two |
| RecoveryGaps.EveryGapIsAccountedFor | src/sukko/recovery.py:138-342 | each gap is open or settled by one call, by the meaning of the words; about the engine it says that an open gap has a stored anchor, and that the settling call is exactly one of: a replay, a reported loss, the Direct degrade |
| RecoveryGaps.WipedGapIsSignalled | src/sukko/recovery.py:312-318 | a gap wiped by the Direct degrade is announced to the consumer if and only if its channel is resubscribed; the degrade returns one possible gap per resubscribed channel, in order, and nothing else |
| RecoveryGaps.ReplayingIffUnended | src/sukko/recovery.py:158-203 | in every run a channel is in mid-replay if and only if some replay it sent has neither completed nor been reported nor been wiped |
| RecoveryGaps.EveryReplayIsAccountedFor | src/sukko/recovery.py:158-342 | each replay sent is still in flight, or was ended by exactly one of completion, report and Direct degrade; the degrade announces a possible gap for it if and only if its channel is resubscribed, and is otherwise silent |
| RecoveryGaps.LostRecordsAreCovered | src/sukko/recovery.py:14-19 | given a server whose gap positions never decrease, the replay that settles a gap redelivers everything the gap lost, although positions are never compared |
| RecoveryGaps.ReplaysRespectTheFloor | src/sukko/recovery.py:143-165 | any two entries of the list of sends of a channel without a wipe between them are at least the floor apart |
| RecoveryGaps.ReplayRateIsBounded | src/sukko/recovery.py:143-228 | all the sends of a channel in a window of length L without a wipe are at most floor(L / replay_floor) + 1 |
| RecoveryGaps.PositionsAreTheLastNoted | src/sukko/recovery.py:119-134 | stored positions are the last ones noted since the last degrade; the Direct and connected flags record exactly their events |
| RecoveryGaps.ReconnectResumesFromLastNoted | src/sukko/recovery.py:291-318 | a reconnect names exactly the noted channels with their last positions, probes only after a connection, and is never sent after a degrade |
| RecoveryCalls.ReplaySentExactlyWhen | src/sukko/recovery.py:138-228 | in every run a call sends a replay on a channel if and only if no replay sent there since the last wipe is younger than the floor and the call is a gap on a quiet channel, the completion of a replay with a gap open behind it, or due with a gap waiting |
| RecoveryCalls.GapIsReplayedAtOnceIff | src/sukko/recovery.py:138-156 | a gap that finds neither a replay in flight nor an open gap is replayed by that very call, from its own position, if and only if the floor is clear |
| RecoveryCalls.CompletionFollowsUpIff | src/sukko/recovery.py:184-203 | the completion of a replay starts the next one in that very call, from the oldest open gap, if and only if a gap is open and the floor is clear |
| RecoveryCalls.LossReportedExactlyWhen | src/sukko/recovery.py:320-342 | a disconnect reports a channel if and only if a replay is in flight or a gap is open there; a failure is reported with its code always and only then |
| RecoveryCalls.TimeoutIffGenuineSilence | src/sukko/recovery.py:216-255 | a call reports a timeout if and only if it is due and a full window of genuine silence has passed since the request was last armed |
| RecoveryCalls.HistoryOpenIffUnended | src/sukko/recovery.py:270-287 | in every run a history deadline stands if and only if some request has neither completed nor timed out nor been cut off |
| RecoveryCalls.DueKeepsTableOrder | src/sukko/recovery.py:216-255 | due returns what concerns the channel records and then the history timeouts, each in the order in which the channels entered its table, none twice |
| RecoveryTimers.NextDeadlineIsExact | src/sukko/recovery.py:257-266 | next_deadline is none or later than t if and only if no timer of any channel or request has expired at t |
| RecoveryTimers.DueIsIdleWhenNothingDue | src/sukko/recovery.py:216-255 | due changes nothing and returns nothing while nothing has expired |
| RecoveryTimers.NothingDueAfterDue | src/sukko/recovery.py:216-255 | with a positive deadline, nothing has expired once due has been called |
| RecoveryTimers.TimersAgreeAndMoveOn | src/sukko/recovery.py:216-266 | due is idle at t if and only if next_deadline is none or later than t, and after due the next deadline is strictly later |
| RecoveryTimers.NonPositiveDeadlineSpins | src/sukko/client.py:723-730 | with a deadline that is not positive, a request made while paused makes the timer loop spin: a concrete run |
| RecoveryTimers.TimersAgreeIffDeadlinePositive | src/sukko/client.py:723-730 | agreement in all runs, and progress of the timer loop in all runs, hold if and only if the configured deadline is positive |
| RecoveryTimers.EveryDeadlineWasArmed | src/sukko/recovery.py:158-212 | every standing deadline was armed by one call, and neither a frame nor a change came since |
| RecoveryTimers.NoFalseAlarm | src/sukko/recovery.py:167-255 | a reported timeout has an arming call a full window earlier, no frame since, no pause now, no pause opened since; if unpaused at the arming, unpaused throughout |
| RecoveryTimers.ReportedAtExactlyOneDeadline | src/sukko/recovery.py:216-266 | with due called at every next deadline, any timeout that is reported comes exactly one window after its last arming |
| RecoveryTimers.SilenceIsReportedAtOneDeadline | src/sukko/recovery.py:216-266 | with due called at every next deadline, a request that stays silent with no pause since its arming is reported, exactly one window after the arming |
| RecoveryTimers.SilenceIsReportedInTime | src/sukko/recovery.py:216-266 | after the last frame and the last pause an open request is reported within two windows |
| RecoveryProgress.TwoDeadlinesAreAttained | src/sukko/recovery.py:229-254 | the bound of two windows is attained: a concrete prompt run |
| RecoveryProgress.FloorWaitEndsOnTime | src/sukko/recovery.py:146-150 | a channel waiting out its floor is settled by the time the floor opens |
| RecoveryProgress.GapIsSettledWithinOneFloor | src/sukko/recovery.py:138-156 | a gap that arrives with no replay in flight is replayed, reported or wiped within one floor |
| RecoveryProgress.OneFloorIsAttained | src/sukko/recovery.py:143-165 | both floor bounds are attained: a concrete prompt run in which a gap waits a full floor and two replays are exactly one floor apart |
| DeliverySpec.DropOldestConserves | src/sukko/backpressure.py:76-99 | before close, under every interleaving: the buffer is the put sequence from index delivered + signalled + pending on |
| DeliverySpec.DeliveredPosition | src/sukko/backpressure.py:91-99 | the next item delivered is the one at position marked + pending; a get that finds something delivers it with nothing pending |
| DeliverySpec.GetSuspendsIffNothingToSay | src/sukko/backpressure.py:91-99 | a get suspends if and only if nothing is buffered and no loss is pending; a pending loss is returned as one marker for all of it, and nothing is taken from the buffer |
| DeliverySpec.MarkersAccountForEverySkip | src/sukko/backpressure.py:83-99 | each delivered item is the one at its recorded place; markers between delivered items sum to exactly the places skipped there, if and only if no suspended get took an item while a loss was pending |
| DeliverySpec.SuspendedGetOvertakesMarker | src/sukko/backpressure.py:91-99 | a concrete interleaving in which an item is delivered ahead of the marker for the loss before it |
| DeliverySpec.PausableIsLossless | src/sukko/backpressure.py:79-81 | on a pausable transport the put sequence is the delivered items followed by the buffer, and no marker appears |
| DeliverySpec.DropNewestKeepsOrder | src/sukko/backpressure.py:82-99 | what is delivered or buffered is an ordered subsequence of what was put, and the rest is counted exactly |
| DeliverySpec.NeverOverCapacity | src/sukko/backpressure.py:58-89 | the buffer never exceeds a positive capacity |
| DeliverySpec.FullIffPutSuspends | src/sukko/backpressure.py:70-81 | is_full says exactly that a put would suspend |
| DeliverySpec.BurstFits | src/sukko/backpressure.py:15-18 | items up to the free room, any number on an unbounded queue, are all admitted without suspending, appended in order with nothing evicted or counted |
| DeliverySpec.CloseEndsTheStream | src/sukko/backpressure.py:101-110 | after close the consumer receives the pending marker, the remaining items and the end; a full queue gives up its oldest item, uncounted |
| DeliverySpec.CloseLosesAnItem | src/sukko/backpressure.py:101-110 | a concrete full queue whose only item close drops without a marker |
| DeliveryObject.DeliveryQueue.constructor | src/sukko/backpressure.py:58-61 | a new queue is empty with no pending loss |
| DeliveryObject.DeliveryQueue.Put | src/sukko/backpressure.py:76-89 | admits, suspends, evicts or discards exactly as specified |
| DeliveryObject.DeliveryQueue.Get | src/sukko/backpressure.py:91-99 | marker first, else the head, else suspends |
| DeliveryObject.DeliveryQueue.Take | src/sukko/backpressure.py:99 | a woken get takes the head and leaves the loss count alone |
| DeliveryObject.DeliveryQueue.Close | src/sukko/backpressure.py:101-110 | the sentinel always lands |
| DeliveryObject.NewDeliveryQueue | src/sukko/backpressure.py:41-61 | construction is refused if and only if the size is below the floor; otherwise any history-plus-replay burst fits |
| PumpSpec.PausedExactlyWhileBlocked | src/sukko/client.py:675-690 | over all interleavings of pump, consumer, timer and cancellation: the engine is paused exactly while a put is suspended, one episode per suspended put, and delivery is lossless |
| PumpSpec.FramesAreCarriedOut | src/sukko/client.py:581-668 | in every run the items put, followed by those the current frame still owes, are exactly what the received frames owe the consumer, in order, less what a cancellation cut off; likewise the engine calls the pump makes; a message is put only after the engine was told all its frame calls for |
| PumpSpec.PutSuspendsIffFull | src/sukko/client.py:683-690 | a put on the not-full branch completes at once without a call on the engine; on the other branch it suspends and is announced |
| PumpSpec.NoTimeoutWhileBlocked | src/sukko/recovery.py:229-254 | while the pump is suspended, due reports no timeout on any channel |
| PumpSpec.TimeoutIsNeverTheConsumersFault | src/sukko/recovery.py:167-182 | every timeout covers a window in which no put began to suspend; if the pump was not suspended at the arming it never was in the window |
| PumpSpec.GapsAreDeliveredFirst | src/sukko/client.py:614-619 | in every run, cancellations included, the gaps queued for the consumer are exactly the gaps the engine has heard of, in order, followed by the one it is about to hear of |
| PumpSpec.DueDeliversNothing | src/sukko/client.py:675-682 | the timer never produces a delivery, so the pump is the only producer |
| PumpObject.DeliveryPump.BeginPut | src/sukko/client.py:683-690 | up to the suspension point: delivered at once or announced as a stall |
| PumpObject.DeliveryPump.FinishPut | src/sukko/client.py:684-688 | after the suspension: still no room, or delivered and resumed |
| PumpObject.DeliveryPump.RunTimer | src/sukko/client.py:723-730 | the guarded timer loop calls due exactly as often as it turns; with a positive deadline it turns at most once, is as good as one unconditional call of due, and then waits a positive time up to the next deadline |
| RecoveryActions.ExecutedIsPrefix | src/sukko/client.py:692-709 | the returned actions that take effect are a prefix of the list, up to the first send or put that does not complete |
| RecoveryActions.ReportCanBeLostIff | src/sukko/client.py:692-709 | a loss report can be dropped if and only if a send or a put stands before it in the returned list |
| RecoveryActions.DisconnectLosesNoReport | src/sukko/recovery.py:320-342 | the reports of a disconnect and of a recovery failure always take effect |
| RecoveryActions.LostTimeoutIsNotRepeated | src/sukko/recovery.py:235-242 | a replay timeout that was returned and dropped is not reported again by a disconnect that follows |
| RecoveryActions.FailedSendHidesATimeout | src/sukko/client.py:723-730 | a concrete run: one call of due returns a replay and a timeout, the send fails, the connection goes down, and the timeout reaches nobody |
| RecoveryActions.ActionRunner.RunActions | src/sukko/client.py:692-709 | the loop executes exactly that prefix and raises if and only if something was dropped |
| AuthSpec.NextKeepsInv | src/sukko/auth.py:85-191 | every atomic segment of every caller, hook and teardown keeps claims, frames, escalations and spacing consistent |
| AuthSpec.SingleFlight | src/sukko/auth.py:85-106 | in every interleaving the slot is taken exactly while one caller is between claim and release; any other awaited future is settled; a claim sends at most one frame |
| AuthSpec.ClaimEndsOnlyWithItsOwner | src/sukko/auth.py:99-106 | a claim ends only by a move of its owner, which finishes with the future settled; nobody clears another's claim |
| AuthSpec.FuturesAreFinal | src/sukko/auth.py:175-191 | a settled future never changes, and only an ack acknowledges one |
| AuthSpec.HooksSettleTheClaim | src/sukko/auth.py:175-217 | an ack, an error and a close settle an open claim as acknowledged, rejected and not connected, and nothing else |
| AuthSpec.WaitersSeeTheOutcome | src/sukko/auth.py:90-104 | whoever waits for an acknowledged future returns, and whoever waits for a failed one raises the same failure |
| AuthSpec.FailedSendFailsTheClaim | src/sukko/auth.py:95-106 | a failed send fails the shared future with its failure, which its owner raises, and frees the slot |
| AuthSpec.EscalationIsNeverCoalesced | src/sukko/auth.py:142-171 | an escalation that returns True sent exactly one frame, for its own acknowledged claim and with its own token; one that returns False sent nothing |
| AuthSpec.DeferredEscalationIsStored | src/sukko/auth.py:149-161 | at the moment an escalation returns False the stored token is its own |
| AuthSpec.OfflineEscalationDefers | src/sukko/auth.py:149-161 | an escalation without a connection, or one whose awaited refresh a close cuts off, returns False with its token stored and leaves the slot, the futures and the wire alone |
| AuthSpec.FreeSlotEscalatesAtOnce | src/sukko/auth.py:156-171 | an escalation that finds the slot free, at the call or after an acknowledged or a rejected refresh, claims it, stores its token and sends it in the same segment |
| AuthSpec.RejectedRefreshNeverAborts | src/sukko/auth.py:142-163 | an escalation that holds no claim raises only by its own cancellation, its own refused send, or a future ended by a cancellation or a foreign exception: never by a rejected refresh or a close |
| AuthSpec.EscalateSpinsIff | src/sukko/auth.py:142-163 | in every run, a connected call of escalate can hang the event loop under some continuation, on the claim it finds or on a later one, if and only if it finds the slot taken by a claim that is open or settled by an ack or a rejection |
| AuthSpec.WaitingEscalationEverSpinsIff | src/sukko/auth.py:156-163 | the same for an escalation that is already waiting, in terms of the future it waits for |
| AuthSpec.EscalateSpinsOnFoundClaimIff | src/sukko/auth.py:142-163 | the hang on the very claim found at the call: possible if and only if that claim is settled by an ack or a rejection, or is open while its owner is still sleeping, fetching or sending |
| AuthSpec.WaitingEscalationSpinsIff | src/sukko/auth.py:156-163 | the hang on the very claim an escalation waits for: possible if and only if the claim is held, open or so settled, and its owner did not begin to wait before the escalation |
| AuthSpec.OrdinaryRefreshHangsEscalation | src/sukko/auth.py:156-163 | a concrete run: escalate begins while a refresh fetches its token, the refresh is sent and acked, and nothing runs any more |
| AuthSpec.LaterRefreshHangsEscalation | src/sukko/auth.py:156-163 | a concrete run in which the owner found waits ahead and leaves in time, another refresh takes the slot before the escalation wakes, and the escalation hangs on that one |
| AuthSpec.RefreshesAreSpaced | src/sukko/auth.py:108-132 | any two refresh frames are at least the effective interval apart, hence at least min(300, min_interval) |
| AuthSpec.FailuresAreErrorsSinceAck | src/sukko/auth.py:175-191 | while the event loop is not hung, the failure count is the number of auth errors since the last ack |
| AuthSpec.RefreshBacksOffPerError | src/sukko/auth.py:108-132 | a refresh frame leaves at least min(300, min_interval * 2^errors) after every earlier one, for the errors that stood, with no ack since, when its caller took the slot; at least min_interval if there were none |
| AuthSpec.RefreshSleepsToTheFloor | src/sukko/auth.py:108-121 | in every run a refresh that sleeps wakes exactly at the last refresh plus that interval, not later |
| AuthSpec.RefreshSendsTheRightToken | src/sukko/auth.py:122-132 | a refresh sends the fetched token with get_token and the stored one without; with neither it fails, its claim is released and nothing is sent |
| AuthSpec.UpdatedTokenIsSent | src/sukko/auth.py:77-81 | a token handed over before the send is the one that a refresh without get_token sends |
| AuthSpec.FrameCarriesTheStoredToken | src/sukko/auth.py:95-130 | whatever frame leaves carries the stored token for the claim that holds the slot; a refresh is stamped with its time |
| AuthSpec.UnsolicitedIffNothingInFlight | src/sukko/auth.py:183-191 | an auth error asks for a refresh if and only if no claimed future is open |
| AuthObject.AuthManager.constructor | src/sukko/auth.py:56-66 | no claim, no failures, the first refresh unfloored |
| AuthObject.AuthManager.UpdateToken | src/sukko/auth.py:77-81 | sets the token and nothing else |
| AuthObject.AuthManager.TryClaim | src/sukko/auth.py:90-94 | takes the slot if it is free, with a new open future |
| AuthObject.AuthManager.SettlePending | src/sukko/auth.py:102-103 | settles the claimed future once |
| AuthObject.AuthManager.Leave | src/sukko/auth.py:99-106 | settles on failure and releases the claim |
| AuthObject.AuthManager.FloorSleep | src/sukko/auth.py:108-121 | none before the first refresh; then the rest of min_interval, or of min(300, min_interval * 2^failures) after failures, since the last refresh |
| AuthObject.AuthManager.StampRefresh | src/sukko/auth.py:128-129 | stores the token and stamps the refresh |
| AuthObject.AuthManager.OnAuthAck | src/sukko/auth.py:175-180 | resets the failures and resolves an open claim |
| AuthObject.AuthManager.OnAuthError | src/sukko/auth.py:183-191 | counts the failure, fails an open claim, and says whether the error was unsolicited |
| AuthObject.AuthManager.Close | src/sukko/auth.py:211-217 | fails an open claim so that nobody hangs across a disconnect |
| Backoff.DelayWithinCeiling | src/sukko/_clock.py:77-94 | exactly the negative attempts are refused; the delay lies in [0, ceiling) for a positive ceiling min(cap, base * 2**attempt), is 0 for a zero one, and in (ceiling, 0] for a negative one |
| Backoff.DelayIsDrawnShare | src/sukko/_clock.py:86-94 | the delay is the drawn share of min(cap, base * 2^attempt), the powers given by their law: 1 at 0, doubling at each step |
| Backoff.HalfOpenIffCeilingPositive | src/sukko/_clock.py:86-88 | the documented interval [0, ceiling) holds for every draw if and only if the ceiling is positive |
| Backoff.CeilingGrows | src/sukko/_clock.py:93 | the ceiling never exceeds the cap; it never decreases with the attempt for a base that is not negative, and is not negative if the cap is not either |
| SupervisorSpec.AtMostNBackoffsBetweenOpens | src/sukko/client.py:388-500 | with N attempts the counter is the number of backoffs since the last open, at most N, for attempts 0, 1, 2, ..., sleeping at most the sum of the first N ceilings |
| SupervisorSpec.FailingOpensEndInError | src/sukko/client.py:400-412 | if opens keep failing, a client at attempt a is still trying after N - a failures and ends in ERROR with the next one |
| SupervisorSpec.UnlimitedNeverGivesUp | src/sukko/client.py:488-494 | with attempts = 0 no number of failing opens stops the loop |
| SupervisorSpec.ErrorMeansRetriesExhausted | src/sukko/client.py:402-412 | ERROR is entered if and only if an open fails while running with no retry left |
| SupervisorSpec.EndedForGood | src/sukko/client.py:455-457 | a terminal error or a stop ends the run: no later sleep or dial whatever follows |
| SupervisorSpec.NoReconnectFollowsOnlyBounces | src/sukko/client.py:459-482 | with reconnect disabled, a run goes on only past deliberate closes, and never sleeps |
| SupervisorSpec.BounceNeverBacksOff | src/sukko/client.py:464-478 | a bounce, or an SSE connection left without channels, appends its dial and open and no sleep, and ends at attempt 0; SSE leaves the park only with channels, and any other redials with the set it ended with |
| SupervisorSpec.StrayWakesStayParked | src/sukko/client.py:472-477 | any number of stray wakes stays parked; the first wake with channels redials |
| SupervisorSpec.StoppedWakeEndsTheRun | src/sukko/client.py:472-477 | a wake that finds the client stopped ends the parked run, whatever the channel set |
| SupervisorSpec.LostConnectionBacksOff | src/sukko/client.py:480-485 | a connection that is lost while wanted appends its dial, its open and exactly one sleep, of attempt 0 and the drawn share of min(cap, base), and leaves attempt 1 |
| SupervisorSpec.FailedOpenBacksOff | src/sukko/client.py:400-409 | an open that fails with a retry left appends its dial and exactly one sleep, of the current attempt and the drawn share of min(cap, base * 2^attempt), and counts it |
| SupervisorSpec.EndsWithoutASleep | src/sukko/client.py:402-482 | an open that fails after a stop ends the run with its state as it was; a lost connection with reconnect disabled ends it disconnected; neither sleeps |
| SupervisorSpec.RedialsAreSpacedBySleeps | src/sukko/client.py:388-486 | in every run a dial follows another with no sleep between them only if the connection between was bounced or, on SSE, left without channels |
| SupervisorSpec.CursorIsLastIdEverRead | src/sukko/client.py:448-450 | the cursor is the last id in all lines consumed by all earlier epochs |
| SupervisorSpec.DialCarriesLastId | src/sukko/client.py:397-399 | every dial carries that cursor |
| SupervisorObject.Client.Run | src/sukko/client.py:388-486 | the loop over the client's fields does exactly what the specification says, for every script of the environment |
| SupervisorObject.Client.RunEpoch | src/sukko/client.py:397-485 | one iteration |
| SupervisorObject.Client.ParkWhileEmpty | src/sukko/client.py:472-477 | the parking loop |
| SupervisorObject.Client.ReadEpoch | src/sukko/client.py:560-562 | reading an epoch through recv to its end delivers all payloads and harvests the last id |
| SseSpec.CallByCallIsOnePass | src/sukko/transport/sse.py:135-162 | calling recv until the end gives the payloads and cursor of parsing the stream in one pass |
| SseSpec.CursorIsLastId | src/sukko/transport/sse.py:154-162 | the cursor is the value of the last id line consumed |
| SseSpec.PrintedEventParses | src/sukko/transport/sse.py:141-162 | a printed event, with or without data lines, parses to its payload if it is a non-empty message and to nothing otherwise, moves the cursor to its id, and leaves a fresh parser |
| SseSpec.RoundTrip | src/sukko/transport/sse.py:141-162 | repeated recv on any printed list of events, blocks of comments, ids and kinds alone included, returns exactly the non-empty message payloads in order |
| SseSpec.BlockParses | src/sukko/transport/sse.py:144-162 | a block of fields in any order and form, unspaced, bare, unknown or comments, delivers its data values joined by newlines if they make a non-empty message, moves the cursor to its last id and leaves a fresh parser |
| SseSpec.RecvNeverReturnsEmpty | src/sukko/transport/sse.py:145-151 | whatever the lines are, no call of recv returns an empty payload |
| SseSpec.KeepaliveIsConsumed | src/sukko/transport/sse.py:152-153 | a keepalive block delivers nothing and leaves parser and cursor as they were |
| SseSpec.ResumeLosesOnlyAnIdentifiedEvent | src/sukko/transport/sse.py:145-162 | across a break and a resume from the cursor, with ids on any of the events, every payload is delivered exactly once if and only if the break neither fell between the id line and the blank line of a delivering event (which loses it) nor came after a delivery with no id since (which repeats it) |
| SseSpec.BreakAfterIdLosesTheEvent | src/sukko/transport/sse.py:161-162 | a concrete event with an id, lost by a break after its id line |
| SseObject.SseTransport.constructor | src/sukko/transport/sse.py:56-61 | a new transport is not open and holds the given cursor |
| SseObject.SseTransport.Recv | src/sukko/transport/sse.py:135-172 | the line loop consumes up to one payload or to the end, updating the cursor; on a closed transport it changes nothing |
| Heartbeat.SilentIffNothingRead | src/sukko/client.py:713-721 | a check closes if and only if no frame was read between its heartbeat and it |
| Heartbeat.ClosedInTime | src/sukko/client.py:713-721 | the close comes more than one timeout and at most interval + 2 * timeout after the last frame read |
| Heartbeat.SilenceIsNoticed | src/sukko/client.py:713-721 | every connection that hears no more frames fails some check |
| Heartbeat.Run | src/sukko/client.py:713-721 | the loop ends at the first silent check, within that bound |

## Left out

- RecoveryGaps.ReplaysRespectTheFloor: claimed between wipes only, because a disconnect and the Direct degrade clear the channel table and with it the floor.
- RecoveryTimers.SilenceIsReportedInTime: assumes that `due` is called at each time `next_deadline` names; the replay_complete branch (client.py:620-623) does not wake the timer.
- RecoveryTimers.NoFalseAlarm: does not claim a full unpaused window, because `due` may re-arm while the engine is still paused; the pause at the arming is a case of the statement.
- RecoveryGaps.LostRecordsAreCovered: the order of gap positions and the reach of a replay are assumptions about the server.
- PumpSpec.FramesAreCarriedOut: frames that concern neither delivery nor recovery are one kind of frame that owes nothing; the handlers they reach (subscriptions, errors, acks) are not modelled.
- PumpObject.DeliveryPump.FinishPut: the wake order of several suspended producers is not modelled, since the pump is the only one.
- PumpObject.DeliveryPump.RunTimer: the loop is taken at one clock reading and cut off after a given number of turns, since with a deadline that is not positive it need not end; the interruptible wait after it is not modelled.
- SupervisorSpec.BounceNeverBacksOff: SSE is never dialled without channels out of the park only; during a backoff or a failed open the set can become empty.
- SupervisorObject.Client.Run: how open, the pumps and on_connected fail is the script's choice; exception groups and logging are not modelled.
- SseSpec.ResumeLosesOnlyAnIdentifiedEvent: assumes of the server that an id names one event, that a cursor resumes after that event, and that a request without a cursor is served from the beginning.
- AuthSpec.EscalateSpinsIff: the order of wake-ups is modelled among the waiters of one future; other tasks may run between them in any order.
- AuthSpec.RefreshesAreSpaced: other moves may run between a claim and its send even without `get_token` and without a floor sleep, where the code does not suspend; the model allows more schedules than the code there.
- PumpSpec.GapsAreDeliveredFirst: a cancellation takes effect where the pump suspends inside a put; the sends that follow a call on the engine belong to RecoveryActions.
- The methods of AuthObject.AuthManager are the synchronous segments; the coroutines between them exist in the interleaving model only.
- Heartbeat.ClosedInTime: sleeps are exact, sends take no time, and interval and timeout are not negative.
- Backoff.DelayWithinCeiling: over reals; floating-point rounding and the overflow of `2.0**attempt` are not modelled.
- The overflow modes inside the client: the client builds its queue pausable (client.py:188-193), so the overflow results are about the queue on its own.
- The proactive timer's delay and cancellation: a refresh may start at any time, which includes every time the timer could choose.
- `drain_nowait`: nothing in the client calls it.
- Splitting a byte stream into lines, JSON decoding and UTF-8 encoding of payloads: parsing starts from lines.
- The `retry` field, CR handling and byte-order mark of section 9.2.6 of the WHATWG HTML Living Standard, which the code ignores.
- The order of positions against delivery: `note_pos` comes before the put, so a noted position may run ahead of what the consumer has seen.
- REST, push, the synchronous wrapper, subscriptions and channel patterns, error maps, redaction and logging: stateless translation or I/O outside the protocols above.
