# The outbox relay, modelled and proved

`django-celery-outbox` stores Celery tasks in an outbox table inside the caller's transaction; relays
claim rows in one transaction, send them, and record the outcome in a second one. This project models
that protocol and proves what it keeps.

* `Types`, `Backoff`, `Policy`: rows, settings, retry delays, the outage breaker and its histories.
* `Engine`, `Serial`, `Parallel` (with `ParallelTail`, `ParallelBreaker`, `Refinement`): one batch, by the serial
  loop and by the sliding window, for every order in which sends may finish.
* `Mutations`, `Selector`, `Replay`: the table changes, as bulk statements and as the classes that issue them.
* `RelayLoops`: the relay's own methods and loops, each proved to compute what the batch specifications say.
  `Cycle` and `Lifetime`: its turns and its whole life. `Spacing` and `OpenGate`: how outages are spaced and when the
  gate opens, over lives; `Shutdown`, `LateSends`: how a life ends.
* `Protocol`: several relays, crashes, operators, as a step system over runs; `NoLoss`, `RetryBound`,
  `RetryBoundReached`, `ExclusiveClaim`, `NoStuck`, `Waits`, `SingleRelay`: what holds in every run. `Turns`: a relay's turn is a
  run of that system; `Fleet`: so are the lives of several relays, interleaved at every transaction.
* `Serialization`, `RoundTrip`, `NamedOptions`: task options to the row and back. `Redaction`: nested signatures.
  `Glob`, `Purging`: the dead-letter purge.

The source's loops and objects are methods and classes here; each is proved equal to a specification function, and
the lemmas are about that function. A batch runs against a `World`: the readings of the monotonic clock, the signals
handled before each reading, how each attempt ends, and which sends each drain finds finished. All of these are
arbitrary, so a lemma about every world is about every schedule. Times are real seconds; a transaction is one step
at one database time; `random.uniform` answers are arbitrary numbers in its range.

## Where the code does less than one might expect

* *Some rows reach no result list.* After an outage that does not trip the breaker, a drain may empty the window
  with the wait flag up; the loop then ends with messages left over. `Parallel.TailIff` says exactly when in a
  given world, `ParallelTail.AlwaysClassifiedIff` exactly for which batches it can happen in some world. The rows stay stamped in the outbox.
* *The last outage need not keep batches away for a cooldown.* A send already in flight may succeed after the trip
  and restart the streak: `OpenGate.LastOutageNeedNotHoldTheGate` gives such a life. `Policy.LastOutageHoldsTheGateIff` gives the
  condition; what always holds is `Policy.GateSkipsExactlyWhileCooling`.
* *Three outages.* A third outage may follow the second of any three at once, in a life of every serial relay
  (`Spacing.ThirdOutageMayFollowTheSecond`). A full cooldown passes before the next outage exactly when the last one
  opened the breaker (`Policy.NextOutageWaitsIff`, and over lives `Spacing.SerialThirdOutageIff`); of any three, one of
  the two gaps is at least a cooldown.
* *The claim does not clear `retry_after`*, so a claimed retry is still eligible to others
  (`ExclusiveClaim.ClaimShieldsIff`).
* *Retries can pass the limit* when stale copies are reported, by `k - 2` with `k` relays and no more; for a limit of at
  least two that many are reached (`RetryBoundReached.BoundIsReached`).
* *Sending the returned options again* stores the same row only if no `timeout` was given
  (`RoundTrip.SentAgainStoresTheSame`).
* *At a window of one the parallel loop is the serial loop only without a deadline*: it reads the clock once more
  before each send (`Refinement.SameAsSerialIff`).
* *A second signal moves the shutdown deadline*, so what a deadline check saw ends the life only if no signal comes
  after that check (`Shutdown.CutOffEndsTheLife`).

## Model

| member | source | states |
|---|---|---|
| NoLoss.NoTaskIsLost | django_celery_outbox/relay/_relay.py:183-282 | In every run of any number of relays, with crashes, rolled-back second transactions, stale claims, resets, replays and purges, every enqueued task is in the outbox, dead-lettered, accepted by the broker or purged, and every stored or held copy has the payload that was enqueued. |
| NoLoss.CommitStores | django_celery_outbox/relay/_relay.py:222-237 | A second transaction over rows that others may have changed or deleted leaves each task it touches stored, unless the broker took it. |
| RetryBound.RetriesNeverExceed | django_celery_outbox/relay/_mutations.py:37-41 | With k relays no outbox row in any reachable state has more than max_retries + k - 2 retries. |
| RetryBound.StepBounded | django_celery_outbox/relay/_relay.py:552-574 | Every action keeps, for each row, retries plus copies that may still raise them within the bound. |
| RetryBoundReached.BoundIsReached | django_celery_outbox/relay/_mutations.py:37-41 | For every k and every limit of at least two some run takes a row to max_retries + k - 2. |
| ExclusiveClaim.FirstClaimIsExclusive | django_celery_outbox/relay/_message_selector.py:21-35 | When relays end within the stale timeout of their stamp and nobody resets rows, a row claimed with retry_after NULL is held by one relay only. |
| ExclusiveClaim.ClaimShieldsIff | django_celery_outbox/_pending.py:11-15 | Until its stamp is stale, a claimed row is hidden from the filter if and only if its retry_after is NULL. |
| ExclusiveClaim.RetryAfterStays | django_celery_outbox/relay/_mutations.py:15-54 | Nothing but an admin reset clears a retry_after once set. |
| SingleRelay.OneRelayIsExact | django_celery_outbox/relay/_relay.py:552-574 | One undisturbed relay: each task accepted at most once; a dead letter was refused exactly max_retries times, never accepted, and stores max_retries - 1; no claimed row is past its retries. |
| NoStuck.NoRowIsStuck | django_celery_outbox/_pending.py:11-15 | In every reachable state a supported row never touched is eligible now, and any other is eligible from updated_at + max(max_backoff, cooldown, stale_timeout) on. |
| Protocol.StepHasEffect | django_celery_outbox/relay/_relay.py:222-237 | Each action, row by row: what claim, commit, replay, reset, purge and enqueue change and what they leave. |
| Protocol.RunConsistent | django_celery_outbox/relay/_message_selector.py:16-35 | In every run every held copy keeps the payload of its row while the row exists; an outbox id once used means one row for good: a row that is gone never comes back under its id, and one that stays keeps its payload. |
| Turns.TurnIsAProtocolRun | django_celery_outbox/relay/_relay.py:216-237 | A relay's turn, whatever others do between its transactions, is the protocol's claim, its sends and its commit, and leaves the same tables. |
| Turns.FailedTurnIsACrash | django_celery_outbox/relay/_relay.py:109-121 | A turn whose second transaction fails is the protocol's claim, its sends and a crash: nothing of the batch reaches the tables. |
| Fleet.FleetIsAProtocolRun | django_celery_outbox/relay/_relay.py:106-237 | Any number of relays living their lives, their turns interleaved between any transactions with each other, with kills and restarts and with operators, make a run of the protocol with the same tables. |
| Fleet.EveryoneLives | django_celery_outbox/relay/_relay.py:106-121 | In such an interleaving every relay's life is one its own main loop lives by its own script. |
| Fleet.NoTaskIsLostByFleet | django_celery_outbox/relay/_relay.py:183-282 | So no task enqueued is lost by relays running their own loops: it is in a table with its payload, taken by the broker, or purged. |
| Fleet.FleetRetriesNeverExceed | django_celery_outbox/relay/_mutations.py:37-41 | Nor is a row of theirs retried more than max_retries + k - 2 times. |
| Engine.OneList | django_celery_outbox/relay/_relay.py:222-235 | In a lawful account no id is in two of the five lists, and every id is one of the batch. |
| Engine.LawfulReadsBack | django_celery_outbox/relay/_relay.py:552-583 | What each list says about a message's attempt and its retries. |
| Engine.LawfulFailedRetries | django_celery_outbox/relay/_relay.py:574 | A failed entry carries the retry count of the relay's own copy, on which its delay depends. |
| Cycle.OutcomeIsLawful | django_celery_outbox/relay/_relay.py:280-287 | Whichever loop ran, for every world, the five lists account lawfully for the attempts made: nothing sent is reported unsent or twice, nothing unsent as sent. |
| Serial.SerialPartitions | django_celery_outbox/relay/_relay.py:289-340 | The five lists of a serial batch hold every message exactly once. |
| Serial.SerialListsInBatchOrder | django_celery_outbox/relay/_relay.py:289-340 | Each of the five lists is in batch order. |
| Serial.AbortedIsASuffix | django_celery_outbox/relay/_relay.py:303-306 | What the deadline cuts off is the end of the batch, all of it and nothing else. |
| Serial.SerialIsLawful | django_celery_outbox/relay/_relay.py:308-338 | A serial batch puts each message where its attempt and its retries say. |
| Serial.SerialPolicyIsHistory | django_celery_outbox/relay/_relay.py:321-338 | A serial batch leaves the policy where the history of its calls puts it. |
| Serial.FinalIsFates | django_celery_outbox/relay/_relay.py:301-338 | The loop's running lists come to the lists of the message-by-message specification. |
| RelayLoops.Relay.ProcessMessagesSerial | django_celery_outbox/relay/_relay.py:289-340 | The loop returns exactly the specified lists and leaves exactly the specified policy. |
| RelayLoops.Relay.TakeMessage | django_celery_outbox/relay/_relay.py:302-338 | One turn of that loop. |
| RelayLoops.Relay.ClassifyBreakerRemaining | django_celery_outbox/relay/_relay.py:626-637 | Messages after the trip are given up past their last retry and put off otherwise, in order. |
| Parallel.ParallelPartitions | django_celery_outbox/relay/_relay.py:342-398 | For every completion order the five lists plus the leftover tail hold every message exactly once; the tail is a suffix of the batch. |
| Parallel.ParallelIsLawful | django_celery_outbox/relay/_relay.py:342-513 | For every completion order the lists account lawfully for the attempts. |
| Parallel.LoopSound | django_celery_outbox/relay/_relay.py:366-388 | The loop ends with every message settled or remaining, only once, every settled one where its attempt and its retries put it, and a breaker stop with its exception. |
| ParallelTail.DrainPointsSound | django_celery_outbox/relay/_relay.py:366-388 | At every iteration, where it drains: at most publish_concurrency in flight, a breaker stop with its exception, and every message settled, in flight or remaining, only once. |
| Parallel.LoopEnds | django_celery_outbox/relay/_relay.py:366-388 | The loop ends with nothing in flight; a stop reason never changes and nothing is taken after it; messages remain without one only when it was waiting. |
| Parallel.TailIff | django_celery_outbox/relay/_relay.py:413-414 | A tail outside the five lists exists exactly when some drain ends with the wait flag up, nothing in flight, no stop reason and messages remaining. |
| Parallel.WaitMeansOutage | django_celery_outbox/relay/_relay.py:443-485 | A drain that ends with the wait flag up took one of two or more sends in flight to be an outage; unless it stopped the loop, none of its outages opened the breaker. |
| ParallelTail.TailNeeds | django_celery_outbox/relay/_relay.py:413-414 | A tail needs a window of two or more, an outage, and before the last message as many rows with retries left as the window holds (three for a window of two when the streak was running). |
| ParallelTail.AlwaysClassifiedIff | django_celery_outbox/relay/_relay.py:342-398 | For every policy state and every batch: all worlds classify the batch in full if and only if the window is one or too few rows before the last one have retries left, the number depending on the window and on whether the streak was running. |
| ParallelBreaker.AtMostWindowMinusOneAfterTrip | django_celery_outbox/relay/_relay.py:487-512 | After the first trip of a batch, also of one a shutdown has stopped already, at most publish_concurrency - 1 sends still complete. |
| ParallelBreaker.TripsAreCounted | django_celery_outbox/relay/_relay.py:508-512 | The exception from which that count starts is there exactly when an outage of the batch found the streak running. |
| ParallelBreaker.NothingSubmittedAfterStop | django_celery_outbox/relay/_relay.py:416-441 | After any stop reason no message is attempted: what was in flight settles, the rest is only classified. |
| ParallelBreaker.ParallelPolicyIsHistory | django_celery_outbox/relay/_relay.py:585-598 | A parallel batch leaves the policy where the history of its calls puts it. |
| Refinement.ParallelRefinesSerial | django_celery_outbox/relay/_relay.py:342-512 | With no outage and no shutdown any window and any completion order give the serial loop's published, failed and exceeded multisets, and no tail. |
| Refinement.WindowOfOneIsSerial | django_celery_outbox/relay/_relay.py:342-441 | At a window of one, outages included, the parallel loop gives exactly the serial lists and final streak. |
| Refinement.SameAsSerialIff | django_celery_outbox/relay/_relay.py:367-417 | At a window of one the two loops come to the same lists and streak in every world without a new signal if and only if no shutdown deadline is set yet or the batch is empty. |
| RelayLoops.Relay.FillParallelWindow | django_celery_outbox/relay/_relay.py:400-441 | The fill loop, or nothing while waiting, as specified. |
| RelayLoops.Relay.TakeNext | django_celery_outbox/relay/_relay.py:420-439 | One fill: given up unsent, failed while being prepared, or submitted. |
| RelayLoops.Relay.DrainParallelCompletions | django_celery_outbox/relay/_relay.py:443-485 | One completion is awaited, then the others found done are taken; the wait flag is the OR over them. |
| RelayLoops.Relay.ConsumeParallelFuture | django_celery_outbox/relay/_relay.py:487-512 | A completion's effect on lists, policy, stop reason and wait flag. |
| RelayLoops.Relay.ClassifyParallelPublishException | django_celery_outbox/relay/_relay.py:585-598 | A failed attempt's effect; true exactly when an outage found the streak running. |
| RelayLoops.Relay.RunParallelWindow | django_celery_outbox/relay/_relay.py:365-388 | The window loop as specified; it terminates because 2 * remaining + in flight decreases. |
| RelayLoops.Relay.ProcessMessagesParallel | django_celery_outbox/relay/_relay.py:342-398 | The lists and policy of a whole parallel batch, the messages remaining at a stop included. |
| RelayLoops.Relay.ProcessMessages | django_celery_outbox/relay/_relay.py:280-287 | Chooses the loop by publish_concurrency and returns its lists. |
| RelayLoops.Relay.Processing | django_celery_outbox/relay/_relay.py:183-237 | One turn: gate, claim, batch, second transaction; the tables, the policy and the clock readings it leaves, faults in either transaction included. |
| RelayLoops.Relay.ShouldContinueDraining | django_celery_outbox/relay/_relay.py:145-152 | After a shutdown request goes on exactly while the deadline is ahead and some row is pending. |
| RelayLoops.Relay.Start | django_celery_outbox/relay/_relay.py:106-121 | The main loop leaves the tables and the policy its specified life ends with. |
| RelayLoops.Relay.HandleSignal | django_celery_outbox/relay/_relay.py:140-143 | A signal at a time sets the deadline to that time plus the shutdown timeout, leaves the breaker alone and clears the running flag. |
| Lifetime.NoBatchWhileCooling | django_celery_outbox/relay/_relay.py:106-214 | In any life the next turn, after its guard and the guard's own clock reading, works on no batch exactly while some trip is less than a cooldown old. |
| Lifetime.LifeRemembers | django_celery_outbox/relay/_policy.py:34-70 | At every moment of a life the policy is what its whole history makes it. |
| Lifetime.SerialLifeIsClosed | django_celery_outbox/relay/_relay.py:321-333 | A serial relay never sends with the breaker open, over its whole life. |
| Lifetime.SerialOutagesAreSpaced | django_celery_outbox/relay/_policy.py:48-56 | Over any sequence of serial batches, of three outages with no success between, two neighbours are a cooldown apart. |
| Shutdown.CutOffSawDeadline | django_celery_outbox/relay/_relay.py:303-306 | Messages are cut off only by a deadline check, at a named clock reading by which the last signal the policy was told of is a full shutdown timeout old (or the deadline it began with is past); what was not taken by then, the end of the batch, is all cut off and none of it attempted. |
| Shutdown.ParallelBatchSighted | django_celery_outbox/relay/_relay.py:367-417 | The window loop stops for a shutdown exactly by such a check, be anything left over or not. |
| Shutdown.SerialBatchSighted | django_celery_outbox/relay/_relay.py:302-306 | A serial batch has such a check exactly if something is cut off, and then exactly the messages from that check on are. |
| Shutdown.CutOffEndsTheLife | django_celery_outbox/relay/_relay.py:106-152 | When such a check stops a batch, the last signal of the life before it is a full shutdown timeout old at its reading, and with no signal after that very reading the main loop stops and no batch is worked on again. |
| LateSends.NothingSentPastDeadline | django_celery_outbox/relay/_relay.py:302-417 | Whichever loop runs: once the deadline has passed from some clock reading on, no message is attempted whose turn could only come at or after that reading, whatever happens to the others. |
| Policy.DeadlineIsLastSignal | django_celery_outbox/relay/_policy.py:58-70 | For every history the deadline has passed exactly when the last signal plus the shutdown timeout is not later than now (or there was none and it had passed before). |
| Lifetime.DrainsIff | django_celery_outbox/relay/_relay.py:106-152 | After a shutdown request the main loop goes on exactly while the last signal is less than a shutdown timeout old and some stored row may be claimed by the filter's own terms. |
| Policy.GateSkipsExactlyWhileCooling | django_celery_outbox/relay/_policy.py:34-41 | For every history, batches are skipped exactly while some trip is less than a cooldown old. |
| OpenGate.LastOutageNeedNotHoldTheGate | django_celery_outbox/relay/_relay.py:487-512 | A relay with a window of four has a life whose last event is an outage and whose next turn claims a batch less than a cooldown later. |
| Policy.LastOutageHoldsTheGateIff | django_celery_outbox/relay/_policy.py:51-56 | The last outage closes the gate for its whole cooldown if and only if the streak was running when it came, or an equal trip stood already. |
| Policy.ThreeOutagesSpanACooldown | django_celery_outbox/relay/_policy.py:48-56 | In a history that sends only with the breaker closed, three outages with no success between span a cooldown in one of the gaps. |
| Policy.NextOutageWaitsIff | django_celery_outbox/relay/_policy.py:48-56 | In histories that send only with the breaker closed, a cooldown passes between an outage and the next one no success precedes, however the history goes on, if and only if the outage found the streak running. |
| Spacing.ThirdOutageMayFollowTheSecond | django_celery_outbox/relay/_policy.py:34-56 | Every serial relay has a life with three outages, no success between, the third less than a cooldown after the second. |
| Spacing.SerialOutageAfterTripWaits | django_celery_outbox/relay/_policy.py:48-56 | In a serial life an outage that opened the breaker keeps the next one, without a success between, a full cooldown away. |
| Spacing.SerialThirdOutageIff | django_celery_outbox/relay/_relay.py:187-333 | However a serial relay that has just met an outage goes on, a full cooldown passes before the next outage no success precedes, if and only if that outage opened the breaker. |
| Policy.RelayPolicy.ShouldSkipBatch | django_celery_outbox/relay/_policy.py:34-41 | Its verdict, and the reset of breaker and streak when the cooldown is over. |
| Policy.RelayPolicy.RecordOutage | django_celery_outbox/relay/_policy.py:51-56 | True exactly from the second outage in a row on, which (re)opens the breaker. |
| Policy.RelayPolicy.SecondsUntilBatchRetry | django_celery_outbox/relay/_policy.py:43-46 | Exactly the wait: batches are skipped at every time before it is over, and no longer when it is. |
| Policy.TripsIffOutageCounts | django_celery_outbox/relay/_policy.py:34-56 | For every history, one more outage opens the breaker exactly when some outage came since the last success and since the breaker last closed. |
| Mutations.AnyOrderIsPointwise | django_celery_outbox/relay/_relay.py:231-237 | On disjoint lists the four bulk changes, any of them in any order, come to each row's own change. |
| Mutations.SettleIsPointwise | django_celery_outbox/relay/_relay.py:231-237 | The four statements together are one change per row. |
| Mutations.SettledIs | django_celery_outbox/relay/_mutations.py:15-87 | That change column by column: published and exceeded rows are gone; a deferred one has updated_at now, retry_after now plus the cooldown and the rest as it was; a failed one has one retry more, updated_at now and retry_after now plus the back-off time doubled once per failure before, its own jitter added, or the cap; all others are as they were. |
| Mutations.BuriedAre | django_celery_outbox/relay/_mutations.py:62-87 | The dead letters column by column: next free ids in order, the copy's creation time, retries and payload, dead now, with the reason. |
| Waits.DeferredRowWaits | django_celery_outbox/relay/_mutations.py:43-54 | In every run, unless it is reset or committed again, a deferred row is claimed by nobody within the cooldown and is eligible from then on. |
| Waits.FailedRowWaits | django_celery_outbox/relay/_mutations.py:22-41 | In every run, unless it is reset or committed again, a failed row is claimed by nobody within its own delay and is eligible from then on. |
| Waits.NoClaimBeforeRetryTime | django_celery_outbox/_pending.py:12 | In every reachable state no claim takes a row before its retry_after. |
| Mutations.CaseDelayIsOwn | django_celery_outbox/relay/_mutations.py:22-40 | Each failed row gets the delay of its own retries and its own jitter. |
| Mutations.AbortedRowsKept | django_celery_outbox/relay/_relay.py:303-306 | Rows cut off by a shutdown go through the second transaction unchanged. |
| Mutations.RelayMutations.UpdateFailed | django_celery_outbox/relay/_mutations.py:15-41 | The loop over the failed messages and the bulk update it builds. |
| Mutations.RelayMutations.DeferDueToOutage | django_celery_outbox/relay/_mutations.py:43-54 | The listed rows get updated_at now and retry_after now plus the cooldown; nothing else changes. |
| Mutations.RelayMutations.DeletePublished | django_celery_outbox/relay/_mutations.py:56-60 | Exactly the listed rows go. |
| Mutations.RelayMutations.MoveExceededToDeadLetter | django_celery_outbox/relay/_mutations.py:62-87 | Each listed copy becomes a dead letter under a fresh id, with the copy's retries, and its row goes if it is still there. |
| Backoff.DelayInRange | django_celery_outbox/relay/_mutations.py:22-25 | 0 < delay <= max_backoff for every jitter. |
| Backoff.DelayIs | django_celery_outbox/relay/_mutations.py:22-25 | The delay is the back-off time doubled once for each failure before (`Backoff.PowersOfTwo`), plus the jitter, or the cap if that is less. |
| Backoff.DelayGrows | django_celery_outbox/relay/_mutations.py:22-25 | For any two jitters the next delay is no shorter, and longer while this one is below the cap. |
| Backoff.TotalWaitBound | django_celery_outbox/relay/_mutations.py:22-35 | All retries together wait at most (n-1) * max_backoff and at most b * (2^(n-1) - 1) + (n-1) * b / 10. |
| Selector.SelectedAreTheOldestFree | django_celery_outbox/relay/_message_selector.py:21-28 | The claim takes copies of rows that pass the filter, in id order, and passes over one only for a full batch of older ones. |
| Selector.ClaimedIffEligible | django_celery_outbox/_pending.py:11-15 | For every table, time and limit: a row is claimed, the limit permitting, exactly if nobody holds it, its version is 1, and it was never touched, or its retry_after is not later than now, or it has none and was touched at least the stale timeout ago. |
| Selector.MessageSelector.Run | django_celery_outbox/relay/_message_selector.py:16-35 | Returns the rows as they were before the stamp, each of them eligible by the filter's terms, and stamps updated_at of exactly those. |
| Replay.ReplayMoves | django_celery_outbox/replay.py:12-41 | A replay is a move: each dead letter stays or comes back as one fresh, never attempted row with its payload; nothing else changes or appears. |
| Replay.ChosenAreTheOldest | django_celery_outbox/replay.py:13-17 | It takes the dead letters asked for that exist, oldest first, and leaves one out only at the limit. |
| Replay.ReplayDeadLetters | django_celery_outbox/replay.py:9-41 | The tables after it, and the count returned is both the rows created and the dead letters gone. |
| Serialization.SignaturesToList | django_celery_outbox/serialization.py:61-88 | The signatures of a list in order, the rest dropped; a single one wrapped; none at all is no entry. |
| Serialization.SerializeOptions | django_celery_outbox/serialization.py:162-183 | The result, filled step by step, holds each key's entry and nothing else. |
| RoundTrip.DeserializeOptions | django_celery_outbox/serialization.py:207-235 | Versions outside the supported range and unreadable entries fail, at the first one met; otherwise each entry is read back. |
| RoundTrip.OnlyVersionOne | django_celery_outbox/serialization.py:228-235 | Version 1 is the one version that can be read. |
| RoundTrip.FirstUnreadable | django_celery_outbox/serialization.py:194-220 | Of the entries that cannot be read back the first in the order eta, expires, link, link_error, chain is reported, and without any the options can be read. |
| RoundTrip.PreparePublishCall | django_celery_outbox/relay/_publisher.py:37-51 | Headers and timeout are taken out, and the Sentry headers put in. |
| RoundTrip.OptionsComeBack | django_celery_outbox/relay/_publisher.py:37-51 | Options with moments for their times come back as given, but for transient, None and timeout entries, single signatures wrapped, non-signatures dropped in order, broker objects named, countdown made absolute. |
| RoundTrip.PublishableIffTimesReadable | django_celery_outbox/serialization.py:210-216 | Whatever the options, the stored row can be prepared if and only if its eta and expires can be read back. |
| RoundTrip.SentAgainStoresTheSame | django_celery_outbox/serialization.py:162-220 | Serializing the returned options stores the row again less its timeout entry, so the same row if and only if there was none. |
| RoundTrip.OnlySentryHeaders | django_celery_outbox/relay/_publisher.py:29-41 | The headers of a published task are its Sentry trace and baggage, each exactly when the row has one; the caller's own headers are gone. |
| NamedOptions.NamedOptionsComeBack | django_celery_outbox/serialization.py:24-220 | By literal name: link, link_error and chain are published as lists of the signatures given, chord as its signature, queue, exchange and routing_key as text, eta and expires as the moments meant, the 18 transient names, timeout and countdown never, and every other name exactly if it was given and is not None, as it was. |
| NamedOptions.NamesComeBack | django_celery_outbox/serialization.py:104-117 | The model's keys lose no option name and mix none up. |
| RoundTrip.HeadersOfTheRow | django_celery_outbox/relay/_publisher.py:37-41 | A row that carries headers is published with them, its Sentry values on top; absent headers and what Python takes for false are none. |
| RoundTrip.DictsComeBack | django_celery_outbox/serialization.py:194-204 | A stored list of signature dicts is read back as the caller's signatures. |
| Redaction.EveryPlaceRedacted | django_celery_outbox/app.py:70-100 | The same places hold a signature before and after, at any depth under the lists link, link_error and chain and under chord; each has the redactor's answer for its own list and dict (empty ones when absent), asked under its own task name, or that of the nearest signature around it that has one, or else the outer task's; everything else in it is kept, its own options too but for the signatures nested there. |
| Redaction.RestOfOptionsKept | django_celery_outbox/app.py:90-100 | Outside nested signatures the options are as they were. |
| Redaction.ShownUnredactedIff | django_celery_outbox/app.py:103-118 | The options are shown unredacted if and only if there is no redactor or, at some such place, the arguments cannot be handed over or the redactor raises. |
| Redaction.RedactSignatureOptions | django_celery_outbox/app.py:90-100 | The copy, rewritten key by key, is the redacted options; it terminates on every signature tree. |
| Redaction.RedactSerializedSignature | django_celery_outbox/app.py:70-87 | One signature with the redactor's answer under its own task name, else the given one, and its nested options redacted; or the exception. |
| Redaction.RedactOptionsForInspection | django_celery_outbox/app.py:103-118 | No redactor, or one that raises, shows the options as they are. |
| Glob.RegexMeansTheGlob | django_celery_outbox/purge.py:30-35 | For every pattern the text is a regular expression that accepts a one-line name exactly when the name can be cut into pieces fitting the pattern's characters. |
| Glob.EditsAreCharacterwise | django_celery_outbox/purge.py:31-33 | The two textual replacements never split another character's escape: each pattern character becomes its own token. |
| Purging.DeleteInChunks | django_celery_outbox/purge.py:111-126 | For every chunk size and order exactly the matching rows are deleted and counted by task. |
| Purging.PurgeDeadLetter | django_celery_outbox/purge.py:38-108 | Without an age it fails; dry or not it reports the same, and only the real purge deletes. |
| Purging.ReportAddsUp | django_celery_outbox/purge.py:103-106 | The counts by task add up to the number of rows, name exactly the tasks that have matching rows, and each is the number of its task's matching rows. |
| Purging.PurgesExactly | django_celery_outbox/purge.py:50-60 | A purge takes exactly the dead letters that died and were created longer ago than asked for and whose one-line task name the glob matches. |
| Purging.Sum | django_celery_outbox/purge.py:106 | The dry run's sum, in whatever order it is taken. |

## Left out

- Celery, kombu and the broker: an attempt is accepted, an outage, or another failure, and fails while the call is prepared or while it is sent; which exception classes count as outages is not modelled, nor a send the broker takes although the client sees an error.
- A `BaseException` from a future: it ends the process, which is the protocol's crash.
- Sleeps, the liveness file, metrics, logging, Sentry spans, Django signals and the queue snapshot: no effect on the protocol's state. The clock readings taken only for them (`start_time`, the sleep before a skipped batch, the check after a failed turn) are left out; a signal that comes then is handled at the next reading.
- SQL, indexes, migrations and database aliases: tables are maps, a transaction is one step at one time, ids grow. Rows an admin deletes by hand are not modelled.
- SmallInteger overflow and float rounding: counts are unbounded and times are reals.
- Settings loading: only the checks of `RelayConfig.init` appear, as preconditions on the settings.
- `_collect_options` and the excluded tasks of `send_task`, the stored redacted arguments of a row: a row's JSON columns are text the protocol carries and never reads.
- A row whose stored headers are a list of pairs, of which Python could make a dict: taken as an error; no row stored here has headers.
- The structlog context of a publish call, and `Signature.from_dict` beyond keeping the dict: a signature is its dict, `isoformat` and `fromisoformat` are any pair of inverses, `str` any function that keeps strings.
- The JSON column: it stores what JSON can hold, gives tuples back as lists and signatures as dicts; number formats and text encoding are not modelled.
- Redaction's keys: those the code treats apart are constructors, all others carry their name.
- Redaction on values: the deep copy that protects the stored options, and what a redactor could do to shared parts of it, have no counterpart. `list` and `dict` of arguments that are neither lists nor objects are arbitrary functions that may fail.
- The database's regular-expression dialect beyond escaped characters, `.` and `.*`; names with line breaks; `parse_duration`. The columns a purge sorts by: its order is arbitrary.
- RelayLoops.Relay.Start: runs for as long as a finite script says what happens around it, because nothing in the source ends the loop but a signal.
- Refinement.WindowOfOneIsSerial: assumes no shutdown; `Refinement.SameAsSerialIff` shows that a deadline tells the loops apart. What a signal does that arrives during the batch is not compared.
- Glob.RegexMeansTheGlob: says nothing about names with line breaks, which `.` does not match.
