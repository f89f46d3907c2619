# Verified model of the in-memory Pub/Sub broker

A Dafny model of the broker in `src/memory.rs` and of what stands around it: the attribute filter
(`src/filter.rs`), the idempotent action gateway (`src/action_gateway.rs`), the log ring buffer
(`src/log_buffer.rs`) and pagination (`src/model.rs`).

The broker is modelled twice, and the two are tied together.

- `Broker` is a state machine: `World` is everything the write lock protects, plus, for every
  subscription, the history of its current epoch (the time since it was created or last sought).
  `Broker.Valid` is the invariant; `Broker.Run` shows by its contract that every sequence of calls,
  with whatever arguments and whatever elapsed times, keeps it. `Guarantees`, `PullLaws`, `Outcomes`, `Replies`,
  `Backlog`, `Continuity`, `Draining`, `Seeking`, `ActionGateway` and `ActionKeys` draw their theorems from it; `Scenarios`
  has runs from the empty broker that end in the states where a promise fails.
- `MemoryBackend.MemoryBackend` is the object, with its fields changed in place by methods that have the
  source's branches and loops. Every method's contract says that its new state and its reply are
  those of the machine's operation.

The centre is `Tracking`. A message under a subscription has a simple life (`Lifecycle`: fresh,
waiting, leased, done or lost), and a subscription has a cursor, a set, a map and a queue of log
indices, plus an attempt counter. `Tracking.Tracks` says that the containers are exactly the
phases. Every step of every operation, and every turn of the pull loop, is proved to be an allowed
step of one life that moves one index from one container to another. What is proved of histories
(spacing, settlement, attempts) and of containers (conservation, ordering, fencing) then holds in
every run.

What the operations compute is told a second time, without their functions, and proved equal:

- a filter by the grammar of its text (`FilterGrammar.Readable`, `FilterMeaning.FilterHolds`): which texts
  are accepted, and when one holds of a message's attributes;
- a pull by the history of the epoch (`Verdicts.JudgedAt`): what each examination must come to; and by
  a plan (`Schedule.Planned`): which messages are examined, in which order, and what stays queued;
- a publish by the fields of what it stores (`Publishing.StoredAs`), up to the delivery
  (`Continuity.DeliveredAsPublished`);
- acknowledgements and deadline changes of whole lists by sets of leases (`Outcomes`);
- every refusal, with its error, and the effect of every other operation (`Replies`);
- a request to the gateway by its answer and the message it stores (`ActionGateway.HandleOutcome`).

## Facts about the code that the proofs bring out

- A late acknowledgement under exactly-once takes the lease away and then fails
  (`src/memory.rs:711-717`). The message is then in no container until the next seek.
  `Guarantees.AckOutcome` gives the exact condition, `Guarantees.Conservation` shows that this is
  the only way to lose a message, and that without exactly-once none is lost.
  `Scenarios.ARunThatLoses` is such a run.
- Not every message is eventually settled. A message is stuck if it is lost, or if ordering is on and
  an earlier message of its key is lost or lies before the start of the epoch (the cursor when the
  subscription was created or last sought): such a predecessor is not in the acknowledged set and
  cannot get there. In particular an ordered subscription created after some message of a key never
  gets any message of that key (`Scenarios.ARunThatStallsFromCreation`), until a seek.
  `Guarantees.StuckNeverSettles` and `Seeking.StuckForGood` prove that a stuck message is not leased
  nor settled and stays stuck, whatever is called, until a seek; `Draining.EverythingDrains` proves that
  from every reachable state everything else is settled by a consumer that acknowledges in time.
  `Scenarios.ARunThatLoses` and `Scenarios.ARunThatStalls` reach the other kinds.
- The exactly-once acknowledgement ids of the epochs before and after a seek are the same texts. When
  such an id has an effect is said exactly by `Guarantees.EffectiveAck`; after a seek and a pull the
  old ids settle exactly the messages just delivered (`Seeking.OldIdsSettleNewLeases`,
  `Scenarios.ARunThatReusesAnId`). Within an epoch a stale id has no effect
  (`Guarantees.StaleIdsAreInert`).
- A snapshot records the cursor only. Messages behind it that were not acknowledged when the
  snapshot was taken are not replayed (`Seeking.SnapshotRestoresCursor`, `Scenarios.ARunThatSnapsShort`).
- A seek to a time that no message has reached yet replays whatever is published later, also before
  that time (`Seeking.SeekReplaysFromTime`, `Scenarios.ARunThatForesees`).
- Two messages can be stored under one id. The table of seen ids lists only ids that clients give
  (`src/memory.rs:515-528`), not generated ones: a message published without an id and then again under
  the id it was given is stored twice (`Guarantees.RepublishUnderGeneratedId`,
  `Scenarios.ARunThatStoresTwice`). A log has two messages under an id if and only if the id is in the
  table and was also generated into that log (`Guarantees.ClientIdsOnce`), and never more.
- The reported backlog counts the retry queue twice, and everything before the start of the epoch
  (`Backlog.BacklogIdentity`); it is never too low, and it is exact under exactly the condition in
  `Backlog.BacklogNeverUnderReports`.
- The test for acknowledged or leased indices inside the pull loop never fires
  (`PullSafety.TurnExamines`), nor does the branch for a stored filter that does not parse, and the
  lease test in `ordering_blocked` makes no difference (`MemoryBackend.OrderingBlocked`).
- The gateway's promise is one message per key as message id, unless the key is also the generated id
  of a message in the actions topic (`ActionGateway.AtMostOnce`). Two messages can carry the same
  `idempotency_key` attribute: when somebody else publishes it under another message id
  (`Scenarios.ARunThatDoublesAKey`), or when a dead letter lands in the actions topic
  (`ActionKeys.DeadLetterDoubles`). Without these two, one message per attribute holds as well
  (`ActionKeys.AtMostOnceByAttribute`).
- A request is answered OK with its own ids although the topic keeps another message under its key, if
  the key had been seen by the topic but no result is recorded (`ActionGateway.OwnMessageIffUnseen`,
  `Scenarios.ARunThatMisleads`): after a restart, after a publish that took effect but was reported as
  failed, or after somebody else published the key.

## Model

| member | source | states |
|---|---|---|
| Lifecycle.SettledIsFinal | src/memory.rs:599-603 | in a legal history a message that was acknowledged, dead-lettered, filtered out or lost has no further event: no second delivery, no second dead-letter copy |
| Lifecycle.AttemptCountsDeliveries | src/memory.rs:616-618 | the attempt number on a delivery is one more than the deliveries of that message earlier in the epoch |
| Lifecycle.DeadlineIsLastGrant | src/memory.rs:667-673 | the deadline of a lease is the one granted last, by its delivery or by an extension |
| Lifecycle.RedeliverySpacing | src/memory.rs:562-579 | between two consecutive deliveries of a message lies a nack, or a reclaim at or after the deadline last granted, and then the whole backoff for that attempt; the attempt goes up by one |
| Tracking.PutDown | src/memory.rs:586-679 | an index taken out of its container and put into the one its next phase calls for keeps containers and phases in agreement |
| Tracking.TracksConserves | src/memory.rs:45-66 | from that agreement: the indices examined since the epoch began split without overlap or repetition into acknowledged, leased, queued and lost |
| Consumer.ReclaimOneSound | src/memory.rs:570-578 | reclaiming one expired lease keeps the subscription's invariant and changes only that lease, the queue and the history |
| Consumer.AckAllSound | src/memory.rs:704-737 | acknowledging any list of ids, known, unknown, repeated or late, keeps the invariant |
| Consumer.ModifyAllSound | src/memory.rs:759-772 | so does changing deadlines or giving messages back |
| Model.BackoffIsCappedExponential | src/memory.rs:119-133 | for every attempt the saturating 32-bit computation yields min(maxB, minB * 2^min(attempt-1, 10)), with maxB the larger of the two bounds, between the bounds |
| Model.BackoffDoubles | src/memory.rs:119-133 | each attempt up to the eleventh doubles the delay of the one before, up to the larger of the two bounds (600 seconds without a policy) |
| Model.BackoffStartsAndStays | src/memory.rs:119-133 | the first delay is the smallest backoff, 10 seconds without a policy, and from the eleventh attempt on the delay stays the same |
| Model.BackoffMonotone | src/memory.rs:119-133 | the backoff never shrinks as attempts go up |
| Model.AckKeyInjective | src/memory.rs:661-663 | the text of an exactly-once acknowledgement id determines index and attempt |
| Model.ApplyMask | src/memory.rs:158-199 | the loop over the update mask gives every field the incoming value exactly if the mask is empty, has a star or has one of the two spellings of the field, whatever the order and repetition; name, topic and filter stay |
| Pulling.TurnLessens | src/memory.rs:586-603 | every turn of the pull loop lessens (messages ahead of the cursor + due retries not yet found blocked), also when dead letters go to the topic being read, so the loop ends |
| PullSafety.NewAckIdUnused | src/memory.rs:661-673 | the id of a new lease is not in use, in either mode and after changes of mode: the insert never overwrites a lease |
| PullSafety.TurnExamines | src/memory.rs:599-603 | the index a turn picks is in no container, so the test that skips it never fires |
| PullSafety.PullLoopSound | src/memory.rs:586-679 | the whole pull loop keeps the invariant, the spec, and all of the epoch but its history, and the log only grows |
| PullResults.ExamineDeliveries | src/memory.rs:661-678 | examining an index keeps the deliveries right: each is the logged message, of which the filter holds, under a new lease for the configured time between 10 and 600 seconds, with the current attempt, of distinct indices, none leased before |
| PullResults.BuryBurials | src/memory.rs:620-643 | burying a message changes only the dead-letter topic, by one more faithful copy |
| PullResults.CopyIsFaithful | src/memory.rs:622-640 | a dead-letter copy keeps data, ordering key and attributes and adds the two provenance attributes |
| PullResults.BlockedNow | src/memory.rs:606-614 | an index held back is recorded with an earlier message of its key that was not acknowledged at that moment |
| PullResults.PullLoopRight | src/memory.rs:586-679 | at most `limit` deliveries, all right; with fewer, the cursor is at the end and every due retry left was, when it was examined, behind an unacknowledged message of its key |
| Publishing.LeafIsLastPart | src/cloudevents.rs:15 | the name stamped on a message is the part of the topic after the last slash |
| Publishing.EnrichOnlyAdds | src/cloudevents.rs:14-64 | the attributes stored are those published, unchanged, and, where there is none of that name, the leaf name of the topic and what was found of the five context attributes; the deduplicating id stays |
| Publishing.AppendAnyTime | src/memory.rs:502-537 | the time of an append decides nothing but the times of the messages |
| Publishing.PublishConcat | src/memory.rs:504-537 | appending a batch and then another equals appending their concatenation |
| Publishing.AppendAllSound | src/memory.rs:504-537 | appending keeps the table of client ids exact, the log in time order and the old log a prefix, with one reply id per message |
| Publishing.PublishDeduplicates | src/memory.rs:504-537 | exactly the messages without a client id and the first bearers of an unseen one are appended, in order, each with the payload, ordering key and attributes published, the time of the publish and the id of its client or a generated one; the reply names every message |
| Publishing.NewOnesInOrder | src/memory.rs:505-520 | the messages listed as new are exactly those without a client id or with one neither in the table nor on an earlier message, in the order of the batch |
| Publishing.RepublishChangesNothing | src/memory.rs:515-520 | appending an all-client-id batch again, at any later time and to any table that has its ids, changes nothing and returns the same ids |
| Broker.PublishValid | src/memory.rs:464-540 | a publish, successful or not, keeps the invariant of the whole broker |
| Broker.PullValid | src/memory.rs:542-689 | so does a pull of any subscription |
| Broker.PerformValid | src/memory.rs:248-922 | every operation with any arguments keeps the invariant, also when it fails |
| Broker.Run | src/memory.rs:247-922 | every run from the empty broker ends in a valid world |
| Guarantees.Conservation | src/memory.rs:542-838 | in every reachable state acknowledged, leased, queued and lost indices partition what was examined; lost ones had a late exactly-once acknowledgement, and a subscription that never had exactly-once on has lost none |
| Guarantees.AckOutcome | src/memory.rs:711-735 | acknowledging a leased id succeeds if and only if exactly-once is off or the deadline has not passed; then the index is acknowledged and the last of its key, otherwise it is lost |
| Guarantees.DeliveriesSpaced | src/memory.rs:562-579 | the spacing of redeliveries holds in every reachable state |
| Guarantees.SettledOnce | src/memory.rs:599-603 | so does settling at most once and never delivering again before a seek |
| Guarantees.BuriedOnlyExhausted | src/memory.rs:619-643 | in every reachable state a message was dead-lettered only after at least as many deliveries in the epoch as its policy then allowed, and never after fewer than five |
| Guarantees.OrderedDelivery | src/memory.rs:606-614 | with ordering on for the whole epoch the acknowledged messages of a key are a prefix of the key's messages in the log, and at most one message of a key is leased |
| Guarantees.OrderingAckedForward | src/memory.rs:731-733 | then an acknowledge call only moves the last acknowledged index of a key forward (over whole runs: `Continuity.EpochAlong`) |
| Guarantees.FencedKeys | src/memory.rs:661-673 | with exactly-once on for the whole epoch the id of (index, attempt) names a lease if and only if the index is leased for its current attempt |
| Guarantees.StaleIdsAreInert | src/memory.rs:711-722 | then an id of an older attempt, or of an index not leased, changes nothing, in acknowledgements and in deadline changes |
| Guarantees.EffectiveAck | src/memory.rs:711-735 | then acknowledging under (index, attempt) settles the index if and only if it is leased for that attempt and not past its deadline |
| Guarantees.PullReply | src/memory.rs:542-689 | what every pull in every reachable state returns and changes: at most clamp(max, 1, 1000) deliveries of distinct indices not leased before, each the logged message, of which the filter holds, leased for the configured time under its key text or a generated id, and counted, attempts within clamp(limit, 5, 100), faithful dead-letter copies and nothing else, and nothing deliverable left over when it returns less than asked for |
| Guarantees.OnlyMatchingDelivered | src/memory.rs:646-660 | over every run the filter, read by the grammar, holds of what is delivered or dead-lettered |
| Guarantees.MismatchDiscarded | src/memory.rs:647-653 | a message of which the filter does not hold is acknowledged, and nothing else, at its first examination that is not held up by its key |
| Guarantees.ClientIdsOnce | src/memory.rs:515-528 | in every reachable state a log has one message under an id for the table listing it and one for its having been generated into this log, so two if and only if both, and never more; and the log is in time order |
| Guarantees.PublishGenerates | src/memory.rs:521-525 | what a publish generates into a log is exactly the ids it replies to messages without a client id |
| Guarantees.PullGenerates | src/memory.rs:632-639 | and what a pull generates into a log is exactly the ids of the dead letters it appends |
| Guarantees.RepublishUnderGeneratedId | src/memory.rs:515-528 | publishing a message again under the id generated for it leaves two messages under that id |
| Guarantees.RefusedIfOneWouldBe | src/memory.rs:468-499 | a batch is refused, without a trace, if and only if one of its messages would be refused alone |
| Guarantees.PublishAllOrNothing | src/memory.rs:464-499 | a batch is refused if and only if, split anywhere, one of its parts is, with the error of the first such part and no trace |
| Guarantees.PublishTogetherOrApart | src/memory.rs:464-540 | two successful publishes, with any time between them, and one of both batches come to the same broker, up to the times of the messages, and the same reply |
| Guarantees.StuckNeverSettles | src/memory.rs:215-232 | with ordering on for the whole epoch, or off, a stuck message (lost, or behind a message of its key that is lost or before the start of the epoch) is never leased nor settled |
| Verdicts.ExamineJudges | src/memory.rs:606-678 | one examination comes to what the history of the epoch calls for: held if an earlier message of its key is unsettled, else dead-lettered if it was delivered clamp(limit, 5, 100) times and the topic exists, else filtered out or delivered as the filter says, as the next attempt and for the configured time |
| Verdicts.LoopJudges | src/memory.rs:586-679 | so does every examination of the loop, each by the history before it |
| Schedule.LoopFollowsPlan | src/memory.rs:586-597 | the loop examines the due retries in the order of the queue and then the messages from the cursor on, a prefix of that list, and all of it if it returns less than the limit |
| Schedule.LoopQueue | src/memory.rs:586-614 | it leaves the retry queue without the entries examined, in its order, and behind them those found blocked |
| PullLaws.ReclaimTakesBack | src/memory.rs:562-579 | taking back the expired leases ends exactly those, puts their messages at the end of the queue, each with its backoff under the policy in force, and changes nothing else |
| PullLaws.PullIsLawful | src/memory.rs:542-689 | every pull in every reachable state: the expired leases are taken back, the plan is followed, every examination comes to what the history calls for, and the queue is left as described |
| Continuity.PerformContinues | src/memory.rs:248-922 | no operation shortens a log, adds to a log or table other than that of its topic or of its dead letters, forgets a client id, changes a snapshot or the name, topic or filter of a subscription, ends an epoch except by seeking, or with ordering on all the time moves the last acknowledged index of a key back |
| Continuity.TopicsAlong | src/memory.rs:504-537 | over any run logs are only extended and client ids only added |
| Continuity.EpochAlong | src/memory.rs:386-410 | over any run that neither seeks nor deletes it a subscription keeps its identity and its epoch, and with ordering on all the time the last acknowledged index of each key only moves forward |
| Continuity.SnapshotAlong | src/memory.rs:858-869 | over any run a snapshot stays as it is until it is deleted |
| Continuity.RepublishOverRun | src/memory.rs:515-520 | an all-client-id batch published again after any calls is refused for its schema, or changes nothing and returns the same ids |
| Continuity.PublishStores | src/memory.rs:464-540 | a successful publish adds to its log exactly the new messages of the batch with what was published in them, and changes nothing else |
| Continuity.DeliveredAsPublished | src/memory.rs:529-535 | after any calls, a delivery by any subscription of the index at which a publish stored a message carries the payload, ordering key, attributes and time of that publish |
| Outcomes.AckAllOutcome | src/memory.rs:704-737 | for any list of ids exactly the leased ones in front of the first late one are acknowledged, their leases and that of the late one are gone, and the call succeeds if and only if none is late |
| Outcomes.AckAllLoses | src/memory.rs:711-717 | and exactly the message of the first late id is lost |
| Outcomes.AckAllInTurn | src/memory.rs:704-737 | acknowledging two lists in a row and their concatenation come to the same, unless the first fails; then the second is not begun |
| Outcomes.AcknowledgeResult | src/memory.rs:691-740 | that outcome, the error for an unknown subscription, and that nothing else changes, for every acknowledge call in every reachable state |
| Outcomes.ExtendAllOutcome | src/memory.rs:769-771 | a deadline change by a positive number of seconds gives every listed lease exactly that time from now and changes nothing else |
| Outcomes.NackAllOutcome | src/memory.rs:760-768 | one by zero seconds ends every listed lease and puts the messages in front of the queue, the last listed first, each with its backoff from now |
| Outcomes.ModifyOutcome | src/memory.rs:759-772 | the same for a single lease |
| Outcomes.ModifyResult | src/memory.rs:742-775 | that outcome, the errors for more than 600 seconds and for an unknown subscription, and that nothing else changes, for every call in every reachable state |
| Outcomes.LeaseKept | src/memory.rs:562-579 | over any calls without a seek, the first thing to happen to a leased message is an acknowledgement, a nack or a change of its deadline, or comes no earlier than the deadline |
| Outcomes.GrantHonoured | src/memory.rs:769-771 | so the time that a deadline change grants is kept |
| Replies.RefusedExactly | src/memory.rs:248-922 | every operation is refused in exactly the cases listed, with the error that applies first, and then changes nothing, but for an acknowledge call, which keeps what it did |
| Replies.EffectsExactly | src/memory.rs:248-922 | every accepted operation on topics, subscriptions, schemas and snapshots has the effect described and no other: what is created, changed, gone or started over, and where from |
| Backlog.ReportBacklog | src/memory.rs:1091-1095 | the counting loop computes the reported figure |
| Backlog.BacklogIdentity | src/memory.rs:1086-1095 | the figure is leased + queued + ahead of the cursor, plus the start of the epoch, plus queued once more, plus lost |
| Backlog.BacklogNeverUnderReports | src/memory.rs:1086-1095 | it is never below the outstanding work, and equal to it if and only if the epoch began at zero and nothing is queued or lost |
| Backlog.BacklogReported | src/memory.rs:1086-1095 | both hold of every subscription in every reachable state |
| Draining.StuckIsHeld | src/memory.rs:606-614 | a stuck message that is examined is held back |
| Draining.IdlePullMeansDone | src/memory.rs:586-679 | on a quiescent subscription a pull that delivers nothing and settles nothing proves that every message of the epoch is settled or stuck |
| Draining.RoundSettles | src/memory.rs:542-740 | a pull and the timely acknowledgement of what it returned leave the subscription quiescent, the same messages stuck, and strictly fewer outstanding if there were any |
| Draining.RoundIsTwoCalls | src/memory.rs:542-740 | a round is one pull call and one acknowledge call of the broker |
| Draining.RoundsDrain | src/memory.rs:542-740 | after as many rounds as there are outstanding messages, of any sizes and waits, a message of the epoch is settled if and only if it was before or is not stuck |
| Draining.RoundsSettleAllButStuck | src/memory.rs:542-740 | with ordering on for the whole epoch, or off: settled if and only if not stuck |
| Draining.ClearingRound | src/memory.rs:562-740 | from every reachable state, one round after all leases have expired and a pause past every backoff leave the subscription quiescent, the same messages stuck |
| Draining.EverythingClears | src/memory.rs:119-133 | there always is such a wait and such a pause |
| Draining.EverythingDrains | src/memory.rs:542-740 | from every reachable state in which dead letters go elsewhere, such a round and as many rounds more as messages were outstanding settle exactly what was settled before or is not stuck |
| Seeking.EventsInEpoch | src/memory.rs:586-597 | in every reachable state everything that happened in an epoch happened between its start and the cursor |
| Seeking.EpochRuns | src/memory.rs:777-838 | over any calls without another seek nothing before the start of the epoch is touched |
| Seeking.StuckForGood | src/memory.rs:215-232 | a stuck message stays stuck, unacknowledged and not leased, over any calls that do not seek or delete the subscription, if it is lost or ordering was on all the time |
| Seeking.DrainsFrom | src/memory.rs:542-740 | enough rounds settle exactly the messages from the start of the epoch on that are not stuck |
| Seeking.SeekReplaysFromTime | src/memory.rs:777-808 | after a seek to a time and any calls without another, everything delivered or settled was published at or after that time or after the seek, and all such messages are in reach |
| Seeking.SeekThenDrain | src/memory.rs:777-808 | a seek to a time and enough rounds settle exactly the messages published at or after it, except, with ordering on, those that share a key with an older one |
| Seeking.SnapshotRestoresCursor | src/memory.rs:810-869 | whatever calls lie between taking a snapshot and seeking any subscription of that topic to it, and after that until the next seek, the epoch starts at the cursor saved and nothing before it is touched |
| Seeking.OldIdsSettleNewLeases | src/memory.rs:661-673 | after a seek, to a time or to a snapshot, and a pull the exactly-once ids of first attempts, also old ones, settle exactly the messages just delivered |
| Scenarios.ARunThatLoses | src/memory.rs:711-717 | a run from the empty broker that ends with a lost message and another stuck behind it |
| Scenarios.ARunThatStalls | src/memory.rs:215-232 | a run that ends with a replayed message stuck behind an older one of its key |
| Scenarios.ARunThatStallsFromCreation | src/memory.rs:358-375 | a run that ends with a new ordered subscription whose only message is stuck behind one published before it was created |
| Scenarios.ARunThatReusesAnId | src/memory.rs:831-836 | a run after which the id handed out before a seek is accepted and settles the lease made after it |
| Scenarios.ARunThatForesees | src/memory.rs:795-801 | a run after which a message published before the time sought is delivered |
| Scenarios.ARunThatSnapsShort | src/memory.rs:829-836 | a run in which a message leased and unacknowledged when a snapshot is taken lies before the epoch that the seek to it begins |
| Scenarios.ARunThatStoresTwice | src/memory.rs:515-528 | a run that ends with two messages under one id |
| Scenarios.ARunThatMisleads | src/action_gateway.rs:126-149 | a run after which an OK answer names an action other than that of the one message stored |
| Scenarios.ARunThatDoublesAKey | src/action_gateway.rs:104-127 | a run that ends with two messages that carry one idempotency key, and an OK answer for it |
| MemoryBackend.FindDue | src/memory.rs:587-589 | the position of the first due retry not found blocked |
| MemoryBackend.OrderingBlocked | src/memory.rs:201-234 | the loop is "some earlier message of the same key is unacknowledged": its lease and deadline test is redundant |
| MemoryBackend.PositionOf | src/memory.rs:795-798 | the position of the first message published at or after the time, or the end |
| MemoryBackend.Rejects | src/memory.rs:647-660 | whether the filter, read by the grammar, does not hold; one that is no filter rejects everything |
| MemoryBackend.AcknowledgeEach | src/memory.rs:704-737 | the loop over acknowledgement ids does what the machine's acknowledgement does, including the lease it drops before failing |
| MemoryBackend.ModifyEach | src/memory.rs:759-772 | the loop over deadline changes does what the machine's does |
| MemoryBackend.MemoryBackend.CreateTopic | src/memory.rs:248-269 | new state and reply are the machine's, and the invariant is kept |
| MemoryBackend.MemoryBackend.CreateSubscription | src/memory.rs:342-384 | likewise, with every error in the source's order |
| MemoryBackend.MemoryBackend.UpdateSubscription | src/memory.rs:386-410 | likewise |
| MemoryBackend.MemoryBackend.DeleteSubscription | src/memory.rs:438-445 | likewise |
| MemoryBackend.MemoryBackend.Publish | src/memory.rs:464-540 | likewise: no message is appended before every payload has been checked |
| MemoryBackend.MemoryBackend.AppendBatch | src/memory.rs:504-537 | the append loop changes this topic, the ids drawn and nothing else, as the specification says |
| MemoryBackend.MemoryBackend.ReclaimExpired | src/memory.rs:562-579 | every expired lease is reclaimed once, in some order |
| MemoryBackend.MemoryBackend.Attempt | src/memory.rs:616-678 | one iteration for a free, unblocked index: dead-letter, discard or deliver, as the specification says |
| MemoryBackend.MemoryBackend.DeadLetter | src/memory.rs:620-643 | a copy is appended if and only if the attempt is past clamp(limit, 5, 100) and the dead-letter topic exists |
| MemoryBackend.MemoryBackend.DiscardOrDeliver | src/memory.rs:646-678 | a message of which the filter does not hold is acknowledged, any other is leased under a new id for the configured time between 10 and 600 seconds and delivered |
| MemoryBackend.MemoryBackend.HandOver | src/memory.rs:661-678 | the lease, its id, its deadline and the delivery |
| MemoryBackend.MemoryBackend.Deliver | src/memory.rs:581-679 | the while loop ends and computes the loop of the specification |
| MemoryBackend.MemoryBackend.Pull | src/memory.rs:542-689 | new state and reply are the machine's, for the order in which the expired leases were visited |
| MemoryBackend.MemoryBackend.Acknowledge | src/memory.rs:691-740 | new state and reply are the machine's, and the invariant is kept, also when it fails half way |
| MemoryBackend.MemoryBackend.ModifyAckDeadline | src/memory.rs:742-775 | likewise |
| MemoryBackend.MemoryBackend.SeekToTime | src/memory.rs:777-808 | likewise |
| MemoryBackend.MemoryBackend.SeekToSnapshot | src/memory.rs:810-838 | likewise |
| MemoryBackend.MemoryBackend.CreateSnapshot | src/memory.rs:840-869 | likewise |
| MemoryBackend.MemoryBackend.DeleteSnapshot | src/memory.rs:915-922 | likewise |
| MemoryBackend.MemoryBackend.BacklogOf | src/memory.rs:1086-1095 | the figure the inventory gives for a subscription, also with its topic length looked up |
| ActionGateway.ActionGateway.HandleAction | src/action_gateway.rs:72-150 | a request on its own: refused, replayed, failed or queued, with the results recorded and the broker as specified |
| ActionGateway.HandleOutcome | src/action_gateway.rs:72-150 | a request is bad exactly without a key or with a body that is not empty and does not parse; a recorded key gets its result again; neither changes anything; any other is refused with the broker, or stored, recorded and answered with the ids of the request |
| ActionGateway.PublishRecords | src/action_gateway.rs:102-127 | a publish that is not refused leaves the idempotency key in the topic's table of client ids |
| ActionGateway.TakeGuarded | src/action_gateway.rs:118-149 | every step of any request, failure, restart or other use of the broker keeps the gateway's invariant, mutual exclusion included |
| ActionGateway.After | src/action_gateway.rs:118-149 | every run of steps, from any broker, ends in a gateway whose invariant holds and whose answers are consistent |
| ActionGateway.AtMostOnce | src/action_gateway.rs:104-149 | over every interleaving the actions log has two messages whose id is the key if and only if a client has published under it and it is also a generated id of that log, otherwise at most one; for a key answered OK exactly one if and only if it is no generated id, be it the request's own or one published under that id before |
| ActionGateway.AnswersAgree | src/action_gateway.rs:121-149 | OK answers for one key name the same provider id; between restarts they are the same result, and exactly one of them is not a replay |
| ActionGateway.OwnMessageIffUnseen | src/action_gateway.rs:126-139 | the request adds to the log, if and only if its key had not been seen, one message with the rendered input as payload and the key, the action, the event and the command as attributes; otherwise the broker stays as it was |
| ActionGateway.AloneIsHandle | src/action_gateway.rs:118-149 | a request that nothing interrupts goes through the concurrent steps to the outcome the method specifies |
| ActionKeys.AtMostOnceByAttribute | src/action_gateway.rs:104-149 | provided nobody else publishes the key under another message id and no dead letters go to the topic, at most one message carries the key as its attribute, and exactly one for every key answered OK |
| ActionKeys.PerformSealed | src/memory.rs:506-528 | no operation that keeps to that proviso breaks the rule that a key is carried by one message if the table lists it and by none otherwise |
| ActionKeys.RequestCounts | src/action_gateway.rs:126-139 | a request that the broker accepts adds a carrier of its key if and only if the key was unseen; it leaves exactly one if and only if there was one before just in case it was seen |
| ActionKeys.DeadLettersCount | src/memory.rs:622-640 | a pull adds to the carriers of a key in its dead-letter topic exactly the messages it dead-letters that carry the key |
| ActionKeys.ForeignPublishDoubles | src/memory.rs:506-528 | without the proviso: a publish of the key under another id and a request with the key leave two messages that carry it |
| ActionKeys.DeadLetterDoubles | src/memory.rs:622-640 | so does a pull that dead-letters a message with the key into the topic |
| Filter.Parser.SkipSpace | src/filter.rs:100-108 | the loop skips exactly the leading white space |
| Filter.Parser.ParseIdent | src/filter.rs:228-244 | the longest run of name characters, or failure if it is empty |
| Filter.Parser.ParseString | src/filter.rs:246-272 | the loop over the characters yields the unescaped text of the specification, or failure if it does not end |
| Filter.Parser.ParseOr | src/filter.rs:145-157 | the loop that rebuilds the left operand computes the specification's tree and position; the position never passes the end |
| Filter.Parser.ParseAnd | src/filter.rs:159-171 | likewise |
| Filter.Parser.ParseNot | src/filter.rs:173-180 | likewise |
| Filter.Parser.ParsePrimary | src/filter.rs:182-220 | likewise, for every alternative and every failure |
| Filter.ParseFilter | src/filter.rs:37-58 | the entry point: empty, accepted to the end, or refused |
| FilterGrammar.AcceptedMeansDerived | src/filter.rs:37-58 | every accepted text is, up to surrounding white space, the yield of a derivation in the grammar, with bare names kept apart from operators, whose meaning is the tree returned |
| FilterGrammar.OrReads | src/filter.rs:145-220 | after the text of any separated derivation, in any context, the parser goes on as if it had just read what the derivation means |
| FilterGrammar.DerivedIsAccepted | src/filter.rs:37-58 | every separated derivation, with any white space around it, is accepted and parsed to its meaning, so all separated derivations of a text mean the same |
| FilterGrammar.AcceptedExactly | src/filter.rs:37-58 | the accepted texts are exactly white space and the separated derivations, with white space around them |
| FilterGrammar.ParseInvertsPrint | src/filter.rs:37-58 | parsing the canonical print of any tree with legal names and any string values gives back that tree |
| FilterGrammar.DerivedIsLegal | src/filter.rs:228-244 | every tree the grammar can mean has legal names |
| FilterGrammar.PrintOfParsedIsEquivalent | src/filter.rs:37-74 | printing what was parsed from any accepted text and parsing it again gives the same tree, so the same matches |
| FilterMeaning.MeaningHolds | src/filter.rs:76-88 | the tree of a derivation evaluates to what the derivation says: an OR holds if some operand of its chain does, an AND if every one does, a NOT if its operand does not, the tests by what is looked up |
| FilterMeaning.MatchesIffHolds | src/filter.rs:37-74 | a text is accepted and matches exactly if it holds of the attributes, told from the grammar alone |
| LogBuffer.LogBuffer.Push | src/log_buffer.rs:50-64 | the entries are the last `capacity` of everything pushed, numbered without a gap |
| LogBuffer.LogBuffer.Since | src/log_buffer.rs:68-78 | the next clamp(limit, 1, 2000) entries of the history after the one asked for, as far as they are still in the window |
| LogBuffer.LogBuffer.Recent | src/log_buffer.rs:80-93 | the last min(clamp(limit, 1, 2000), capacity) entries of everything pushed |
| LogBuffer.TailerMissesNothing | src/log_buffer.rs:66-78 | however writes and polls interleave, a tailer that is never more than `capacity` behind reads every entry once and in order |
| LogBuffer.PollContinuesIffInWindow | src/log_buffer.rs:66-78 | a poll continues where the tailer stopped if and only if it is at most `capacity` entries behind; otherwise precisely the entries that fell out are skipped; it returns as many as there are up to the limit |
| Pagination.NextTokenAdvances | src/model.rs:183-205 | a page is the slice from its token; the next token is the text of the position after it, strictly further on, and empty exactly at the end |
| Pagination.StrayTokens | src/model.rs:183-205 | a token that is no number starts over; one past the end gives an empty page and no further token, unless adding the page size wraps at 64 bits |
| Pagination.WalkVisitsEverything | src/model.rs:183-205 | following the tokens from the empty one gives the whole list, in order, in the ceiling of n / size pages, all full but the last; the size is the one asked for up to 1000, and 100 if none is |
| Basics.DecimalRoundTrip | src/model.rs:193-196 | the decimal text of a number reads back as that number |

## Left out

- Deleting a topic, and creating it again under a live subscription (`src/memory.rs:333-340`): indices then name other messages. So the "topic no longer exists" errors of `pull` and `seek_to_time` are in the methods but cannot occur.
- `update_topic`, label updates, `modify_push_config`, getters, lists, IAM and schema CRUD: plain field or table access. `ChangeSchemas` stands for every change of the set of schema names.
- JSON schema checking and CloudEvents detection: `Env` gives an arbitrary validity of (schema name, payload) and arbitrary context attributes. It is fixed over a run, so that a schema replaced by another of the same name is one more thing not modelled.
- Persistence: every operation is one atomic step, and its state is never lost. In the gateway machine a publish may fail after it took effect, which is what a failed write of the state file amounts to.
- Adapters for gRPC, REST, push and streaming pull, clients, TLS, authentication, metrics and the tracing layer.
- Random UUIDs: the n-th generated id is the text `uuid-` followed by n. Only that generated ids are distinct and have no colon is used.
- The clock: an operation reads it once, and it never goes back; a dead-letter copy is stamped with the time of the pull that makes it.
- 32-bit overflow of the attempt counter, after 2^32 - 1 attempts of one message, and overflow of the 64-bit nanosecond clock.
- Byte positions in UTF-8 and the texts of error messages: the parser works on characters and an error is its kind.
- `LogBuffer::default()`, which starts at id 0 with capacity 0: the model starts from `new`.
- The copies of specs that create and update calls return, and snapshot labels and expiry times.
- Records inside the hash maps are values that a method takes out, changes and puts back, as exclusive Rust borrows are; the maps, the parser position, the ring buffer and the gateway's results are fields changed in place.
- LogBuffer.LogBuffer.Since: is stated for fewer than 2^64 - 1 pushes, after which ids repeat and no statement about entries after an id holds.
- Draining.RoundsDrain: is stated for rounds that follow each other with no other call in between, because a publish or a second consumer would change what there is to drain, and for dead letters that go to another topic, because otherwise each one is a new message to drain.
