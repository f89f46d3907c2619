/** Runs from the empty broker that reach the states in which a promise fails: a message is lost, stuck,
    stored twice, replayed or not replayed against expectation, or acknowledged under an old id. */
module Scenarios {
  import opened Basics
  import opened Model
  import opened Tracking
  import opened Consumer
  import opened Pulling
  import opened PullSafety
  import opened Publishing
  import opened Broker
  import opened Guarantees
  import opened Draining
  import opened Seeking
  import opened ActionGateway
  import opened ActionKeys
  import Filter

  const TOPIC := "projects/p" + ("/topics/" + "t")
  const SUBSCRIPTION := "projects/p" + ("/subscriptions/" + "s")

  /** Ordered and exactly-once, with the shortest deadline. */
  const SPEC := SubscriptionSpec(SUBSCRIPTION, TOPIC, 10, map[], true, true, None, None, None, map[], "")

  const MESSAGE := NewMessage([], map[], "key", "")

  const FIRST_ID := AckKey(SUBSCRIPTION, 0, 1)

  const PUBLISH := Call(0, Op.Publish(TOPIC, [MESSAGE]))
  const PULL := Call(0, Pull(SUBSCRIPTION, 1, []))

  /** A topic, the subscription, and one message. */
  const SETUP: seq<Call> := [] + [Call(0, CreateTopic(TOPIC, ""))] + [Call(0, CreateSubscription(SPEC))] + [PUBLISH]

  // ----- Runs, call by call -----

  lemma RunMore(env: Env, calls: seq<Call>, c: Call)
    ensures Run(env, calls + [c]) == Apply(env, Run(env, calls), c).0
  {
    assert (calls + [c])[..|calls|] == calls;
  }

  lemma PublishCall(env: Env, w: World, elapsed: nat, topic: string, batch: seq<NewMessage>)
    requires Valid(w)
    ensures Apply(env, w, Call(elapsed, Op.Publish(topic, batch))) == DoPublish(env, Later(w, elapsed), topic, batch)
  {
    TickValid(w, elapsed);
  }

  lemma SeekCall(env: Env, w: World, name: string, time: Time)
    requires Valid(w)
    ensures Apply(env, w, Call(0, SeekToTime(name, time))) == DoSeekToTime(w, name, time)
  {
    assert Later(w, 0) == w;
  }

  lemma CreateCall(env: Env, w: World)
    requires Valid(w)
    ensures Apply(env, w, Call(0, CreateSubscription(SPEC))) == DoCreateSubscription(w, SPEC)
  {
    assert Later(w, 0) == w;
  }

  lemma {:induction false} ContainsAfter(front: string, part: string, back: string)
    ensures Contains(front + (part + back), part)
  {
    if front == [] {
      assert front + (part + back) == part + back;
    } else {
      assert (front + (part + back))[1..] == front[1..] + (part + back);
      ContainsAfter(front[1..], part, back);
    }
  }

  lemma NameIsOk(kind: string, leaf: string)
    ensures NameOk("projects/p" + (kind + leaf), kind)
  {
    ContainsAfter("projects/p", kind, leaf);
  }

  /** The topic holds `n` messages of one key. */
  ghost predicate Holds(w: World, n: nat) {
    && Valid(w) && TOPIC in w.state.topics && w.state.topics[TOPIC].schemaName == ""
    && |w.state.topics[TOPIC].messages| == n
    && forall i :: 0 <= i < n ==> w.state.topics[TOPIC].messages[i].orderingKey == "key"
  }

  /** The topic holds `n` messages of one key, and the subscription begins at `start`. */
  ghost predicate Begun(w: World, n: nat, start: nat) {
    Holds(w, n) && SUBSCRIPTION in w.state.subscriptions && TrackedOf(w, SUBSCRIPTION) == BeginEpoch(SPEC, start)
  }

  lemma TopicCreated(env: Env)
    ensures var w := Run(env, [] + [Call(0, CreateTopic(TOPIC, ""))]);
            && Holds(w, 0) && w.clock == 0 && w.state.subscriptions == map[]
            && w.state.topics[TOPIC] == Topic("", [], map[]) && w.state.minted == 0 && w.state.snapshots == map[]
  {
    NameIsOk("/topics/", "t");
    RunMore(env, [], Call(0, CreateTopic(TOPIC, "")));
    ApplyIsPerform(env, INITIAL, Call(0, CreateTopic(TOPIC, "")));
    assert Run(env, [] + [Call(0, CreateTopic(TOPIC, ""))]) == DoCreateTopic(INITIAL, TOPIC, "").0;
  }

  lemma SubscriptionCreated(env: Env, calls: seq<Call>, n: nat)
    requires Holds(Run(env, calls), n) && SUBSCRIPTION !in Run(env, calls).state.subscriptions
    ensures var v := Run(env, calls + [Call(0, CreateSubscription(SPEC))]);
            Begun(v, n, n) && v.clock == Run(env, calls).clock && v.state.snapshots == Run(env, calls).state.snapshots
  {
    NameIsOk("/subscriptions/", "s");
    RunMore(env, calls, Call(0, CreateSubscription(SPEC)));
    CreateCall(env, Run(env, calls));
    assert Filter.Trim("") == "" && Normalized(SPEC) == SPEC;
  }

  /** Publishing one message without a client id to a topic without a schema. */
  lemma PublishOne(env: Env, w: World, topic: string, m: NewMessage, v: World)
    requires topic in w.state.topics && w.state.topics[topic].schemaName == "" && ClientId(m) == ""
    requires v == DoPublish(env, w, topic, [m]).0
    ensures topic in v.state.topics && v.state.topics[topic].schemaName == ""
    ensures v.clock == w.clock && v.state.subscriptions == w.state.subscriptions && v.epochs == w.epochs
    ensures v.state.snapshots == w.state.snapshots
    ensures var was, is_ := w.state.topics[topic].messages, v.state.topics[topic].messages;
            && |is_| == |was| + 1 && was <= is_
            && is_[|was|].orderingKey == m.orderingKey && is_[|was|].publishedAt == w.clock
  {
    SingleMessage(env, topic, Append(w.state.topics[topic], w.state.minted, []), m, w.clock);
    EnrichOnlyAdds(env, topic, m);
  }

  lemma MessagePublished(env: Env, calls: seq<Call>, elapsed: nat, n: nat)
    requires Holds(Run(env, calls), n)
    ensures var w, v := Run(env, calls), Run(env, calls + [Call(elapsed, Op.Publish(TOPIC, [MESSAGE]))]);
            && Holds(v, n + 1) && v.clock == w.clock + elapsed
            && v.state.subscriptions == w.state.subscriptions && v.epochs == w.epochs
            && v.state.snapshots == w.state.snapshots
            && w.state.topics[TOPIC].messages <= v.state.topics[TOPIC].messages
            && v.state.topics[TOPIC].messages[n].publishedAt == v.clock
  {
    var v := Run(env, calls + [Call(elapsed, Op.Publish(TOPIC, [MESSAGE]))]);
    RunMore(env, calls, Call(elapsed, Op.Publish(TOPIC, [MESSAGE])));
    PublishCall(env, Run(env, calls), elapsed, TOPIC, [MESSAGE]);
    PublishOne(env, Later(Run(env, calls), elapsed), TOPIC, MESSAGE, v);
  }

  lemma AfterSetup(env: Env)
    ensures Begun(Run(env, SETUP), 1, 0) && Run(env, SETUP).clock == 0 && Run(env, SETUP).state.snapshots == map[]
    ensures Run(env, SETUP).state.topics[TOPIC].messages[0].publishedAt == 0
  {
    var created := [] + [Call(0, CreateTopic(TOPIC, ""))];
    var subscribed := created + [Call(0, CreateSubscription(SPEC))];
    TopicCreated(env);
    SubscriptionCreated(env, created, 0);
    MessagePublished(env, subscribed, 0, 0);
    assert TrackedOf(Run(env, SETUP), SUBSCRIPTION) == TrackedOf(Run(env, subscribed), SUBSCRIPTION);
  }

  /** With message 0 out of reach message 1 is stuck. */
  lemma StuckBehindFirst(v: World)
    requires Holds(v, 2) && SUBSCRIPTION in v.state.subscriptions && v.state.subscriptions[SUBSCRIPTION].spec == SPEC
    requires OutOfReach(TrackedOf(v, SUBSCRIPTION), 0)
    ensures |LogFor(v, SUBSCRIPTION)| == 2 && Stuck(TrackedOf(v, SUBSCRIPTION), LogFor(v, SUBSCRIPTION), 1)
  {
    assert SameKey(LogFor(v, SUBSCRIPTION), 1, 0);
  }

  // ----- The first pull -----

  lemma FirstTurn(w: Work, now: Time)
    requires w.t == BeginEpoch(SPEC, 0) && w.deliveries == [] && w.handed == [] && w.skipped == {}
    requires |LogIn(w)| > 0 && InBounds(w, |LogIn(w)|)
    ensures PullLoop(w, now, 1, |LogIn(w)|) == HandOut(w.(t := w.t.(sub := w.t.sub.(nextIndex := 1))), 0, now)
  {
    var u := w.(t := w.t.(sub := w.t.sub.(nextIndex := 1)));
    assert Pick(w.t.sub, now, |LogIn(w)|, {}) == Some((0, u.t.sub));
    assert Judge(u.t.sub, u.topics, LogIn(u), 0).Hand?;
    assert Turn(w, now, |LogIn(w)|) == Some(HandOut(u, 0, now));
  }

  /** The first message is leased for its first attempt, and is the whole reply. */
  ghost predicate Leasing(p: World, now: Time) {
    && Valid(p) && TOPIC in p.state.topics && |p.state.topics[TOPIC].messages| > 0
    && SUBSCRIPTION in p.state.subscriptions
    && (var t := TrackedOf(p, SUBSCRIPTION);
        && t.sub.spec == SPEC && t.sub.nextIndex == 1 && t.sub.acked == {}
        && t.epoch.start == 0 && t.epoch.ordered && t.epoch.fenced
        && FIRST_ID in t.sub.inflight && t.sub.inflight[FIRST_ID] == Lease(0, now + 10 * SECOND))
  }

  lemma FirstPullWork(w: World, n: nat)
    requires Begun(w, n, 0) && n > 0
    ensures var v := PullWork(w, SUBSCRIPTION, 1, []);
            var u := StartWork(w.state, BeginEpoch(SPEC, 0).(sub := BeginEpoch(SPEC, 0).sub.(nextIndex := 1)));
            LogIn(u) == w.state.topics[TOPIC].messages && v == HandOut(u, 0, w.clock)
  {
    var t := TrackedOf(w, SUBSCRIPTION);
    EnumerationSize(VisitOrder([], Expired(t.sub.inflight, w.clock)), Expired(t.sub.inflight, w.clock));
    assert Expired(t.sub.inflight, w.clock) == {};
    ReclaimExpiredSound(w, SUBSCRIPTION, []);
    WorkInBounds(StartWork(w.state, t), n);
    FirstTurn(StartWork(w.state, t), w.clock);
  }

  lemma FirstPull(w: World, n: nat, p: World, reply: Reply)
    requires Begun(w, n, 0) && n > 0 && (p, reply) == DoPull(w, SUBSCRIPTION, 1, [])
    ensures Leasing(p, w.clock) && p.clock == w.clock
    ensures p.state.topics == w.state.topics && p.state.snapshots == w.state.snapshots
    ensures reply == Pulled([Delivery(FIRST_ID, w.state.topics[TOPIC].messages[0], 1)])
  {
    FirstPullWork(w, n);
    PullEffect(w, SUBSCRIPTION, 1, [], PullWork(w, SUBSCRIPTION, 1, []));
  }

  lemma PulledFirst(env: Env, calls: seq<Call>, n: nat)
    requires Begun(Run(env, calls), n, 0) && n > 0
    ensures var w, p := Run(env, calls), Run(env, calls + [PULL]);
            && Leasing(p, p.clock) && p.clock == w.clock
            && p.state.topics == w.state.topics && p.state.snapshots == w.state.snapshots
            && DoPull(w, SUBSCRIPTION, 1, []).1 == Pulled([Delivery(FIRST_ID, w.state.topics[TOPIC].messages[0], 1)])
  {
    RunMore(env, calls, PULL);
    PullCall(env, Run(env, calls), SUBSCRIPTION, Round(1, [], 0, 0));
    var p := DoPull(Run(env, calls), SUBSCRIPTION, 1, []);
    FirstPull(Run(env, calls), n, p.0, p.1);
  }

  // ----- A lost message, and one stuck behind it -----

  const LATE_ACK := Call(11 * SECOND, Acknowledge(SUBSCRIPTION, [FIRST_ID]))
  const LOSING: seq<Call> := SETUP + [PUBLISH] + [PULL] + [LATE_ACK]

  lemma LostInPlace(late: World, deadline: Time, q: World, reply: Reply)
    requires Leasing(late, deadline - 10 * SECOND) && deadline < late.clock
    requires (q, reply) == DoAcknowledge(late, SUBSCRIPTION, [FIRST_ID])
    ensures reply == Failed(FailedPrecondition) && Valid(q) && SUBSCRIPTION in q.state.subscriptions
    ensures q.state.topics == late.state.topics && q.epochs[SUBSCRIPTION].ordered
    ensures q.state.subscriptions[SUBSCRIPTION].spec == SPEC
    ensures 0 in LostOf(TrackedOf(q, SUBSCRIPTION))
  {
    var t := TrackedOf(late, SUBSCRIPTION);
    SubscriptionValid(late, SUBSCRIPTION);
    AckOutcome(t, FIRST_ID, late.clock, LogFor(late, SUBSCRIPTION), late.state.minted);
    AckEffect(late, SUBSCRIPTION, [FIRST_ID]);
    assert AckAll(t, [FIRST_ID], late.clock, LogFor(late, SUBSCRIPTION)).0 == AckLate(t, FIRST_ID, late.clock);
  }

  lemma LeasingLater(w: World, now: Time, elapsed: nat)
    requires Leasing(w, now)
    ensures Leasing(Later(w, elapsed), now)
  {
    TickValid(w, elapsed);
    assert TrackedOf(Later(w, elapsed), SUBSCRIPTION) == TrackedOf(w, SUBSCRIPTION);
  }

  lemma LateAck(env: Env, calls: seq<Call>)
    requires Leasing(Run(env, calls), Run(env, calls).clock) && Holds(Run(env, calls), 2)
    ensures var q := Run(env, calls + [LATE_ACK]);
            && Holds(q, 2) && SUBSCRIPTION in q.state.subscriptions
            && q.state.subscriptions[SUBSCRIPTION].spec == SPEC
            && 0 in LostOf(TrackedOf(q, SUBSCRIPTION)) && q.epochs[SUBSCRIPTION].ordered
  {
    var w := Run(env, calls);
    RunMore(env, calls, LATE_ACK);
    AckCall(env, w, SUBSCRIPTION, 11 * SECOND, [FIRST_ID]);
    LeasingLater(w, w.clock, 11 * SECOND);
    var q := DoAcknowledge(Later(w, 11 * SECOND), SUBSCRIPTION, [FIRST_ID]);
    LostInPlace(Later(w, 11 * SECOND), w.clock + 10 * SECOND, q.0, q.1);
  }

  /** A late acknowledgement loses message 0 for good, and with it message 1 of the same key. */
  lemma ARunThatLoses(env: Env)
    ensures var w := Run(env, LOSING);
            && SUBSCRIPTION in w.state.subscriptions && w.epochs[SUBSCRIPTION].ordered
            && 0 in LostOf(TrackedOf(w, SUBSCRIPTION))
            && |LogFor(w, SUBSCRIPTION)| == 2
            && Stuck(TrackedOf(w, SUBSCRIPTION), LogFor(w, SUBSCRIPTION), 1)
  {
    AfterSetup(env);
    MessagePublished(env, SETUP, 0, 1);
    assert TrackedOf(Run(env, SETUP + [PUBLISH]), SUBSCRIPTION) == TrackedOf(Run(env, SETUP), SUBSCRIPTION);
    PulledFirst(env, SETUP + [PUBLISH], 2);
    LateAck(env, SETUP + [PUBLISH] + [PULL]);
    StuckBehindFirst(Run(env, LOSING));
  }

  // ----- A replayed message stuck behind an older one -----

  const STALLING: seq<Call> :=
    SETUP + [Call(SECOND, Op.Publish(TOPIC, [MESSAGE]))] + [Call(0, SeekToTime(SUBSCRIPTION, SECOND))]

  lemma Sought(env: Env, calls: seq<Call>, time: Time)
    requires SUBSCRIPTION in Run(env, calls).state.subscriptions
    ensures var w, v := Run(env, calls), Run(env, calls + [Call(0, SeekToTime(SUBSCRIPTION, time))]);
            && SUBSCRIPTION in v.state.subscriptions && v.clock == w.clock
            && v.state.topics == w.state.topics
            && TrackedOf(v, SUBSCRIPTION)
               == BeginEpoch(w.state.subscriptions[SUBSCRIPTION].spec, v.epochs[SUBSCRIPTION].start)
            && forall i: nat :: v.epochs[SUBSCRIPTION].start <= i
                 <==> Since(LogFor(w, SUBSCRIPTION), |LogFor(w, SUBSCRIPTION)|, time, i)
  {
    RunMore(env, calls, Call(0, SeekToTime(SUBSCRIPTION, time)));
    SeekCall(env, Run(env, calls), SUBSCRIPTION, time);
    SeekBegins(Run(env, calls), SUBSCRIPTION, time, Run(env, calls + [Call(0, SeekToTime(SUBSCRIPTION, time))]));
  }

  /** A seek to the time of message 1 leaves it undeliverable behind message 0. */
  lemma ARunThatStalls(env: Env)
    ensures var w := Run(env, STALLING);
            && SUBSCRIPTION in w.state.subscriptions && w.epochs[SUBSCRIPTION].ordered
            && w.epochs[SUBSCRIPTION].start == 1 && |LogFor(w, SUBSCRIPTION)| == 2
            && Stuck(TrackedOf(w, SUBSCRIPTION), LogFor(w, SUBSCRIPTION), 1)
  {
    var published := SETUP + [Call(SECOND, Op.Publish(TOPIC, [MESSAGE]))];
    AfterSetup(env);
    MessagePublished(env, SETUP, SECOND, 1);
    Sought(env, published, SECOND);
    var log := LogFor(Run(env, published), SUBSCRIPTION);
    assert !Since(log, 2, SECOND, 0) && Since(log, 2, SECOND, 1);
    StuckBehindFirst(Run(env, STALLING));
  }

  // ----- A new subscription that never gets a message -----

  const LATECOMING: seq<Call> :=
    [] + [Call(0, CreateTopic(TOPIC, ""))] + [PUBLISH] + [Call(0, CreateSubscription(SPEC))] + [PUBLISH]

  /** With ordering on, a subscription created after a message of some key does not get the later
      messages of that key either. */
  lemma ARunThatStallsFromCreation(env: Env)
    ensures var w := Run(env, LATECOMING);
            && SUBSCRIPTION in w.state.subscriptions && w.epochs[SUBSCRIPTION].ordered
            && w.epochs[SUBSCRIPTION].start == 1 && |LogFor(w, SUBSCRIPTION)| == 2
            && Stuck(TrackedOf(w, SUBSCRIPTION), LogFor(w, SUBSCRIPTION), 1)
  {
    var created := [] + [Call(0, CreateTopic(TOPIC, ""))];
    var subscribed := created + [PUBLISH] + [Call(0, CreateSubscription(SPEC))];
    TopicCreated(env);
    MessagePublished(env, created, 0, 0);
    SubscriptionCreated(env, created + [PUBLISH], 1);
    MessagePublished(env, subscribed, 0, 1);
    assert TrackedOf(Run(env, LATECOMING), SUBSCRIPTION) == TrackedOf(Run(env, subscribed), SUBSCRIPTION);
    StuckBehindFirst(Run(env, LATECOMING));
  }

  // ----- An old id that settles a new lease -----

  const REPLAYED: seq<Call> := SETUP + [PULL] + [Call(0, SeekToTime(SUBSCRIPTION, 0))] + [PULL]

  lemma AckInDue(p: World, q: World, reply: Reply)
    requires Leasing(p, p.clock) && (q, reply) == DoAcknowledge(p, SUBSCRIPTION, [FIRST_ID])
    ensures reply == Accepted && SUBSCRIPTION in q.state.subscriptions
    ensures 0 in q.state.subscriptions[SUBSCRIPTION].acked
  {
    SubscriptionValid(p, SUBSCRIPTION);
    AckOutcome(TrackedOf(p, SUBSCRIPTION), FIRST_ID, p.clock, LogFor(p, SUBSCRIPTION), p.state.minted);
    AckEffect(p, SUBSCRIPTION, [FIRST_ID]);
  }

  /** The id handed out by the first pull, before the seek, is accepted after the seek and settles
      the lease of the second pull. */
  lemma ARunThatReusesAnId(env: Env)
    ensures var before := DoPull(Run(env, SETUP), SUBSCRIPTION, 1, []).1;
            before.Pulled? && |before.deliveries| == 1 && before.deliveries[0].ackId == FIRST_ID
    ensures var (q, reply) := DoAcknowledge(Run(env, REPLAYED), SUBSCRIPTION, [FIRST_ID]);
            reply == Accepted && SUBSCRIPTION in q.state.subscriptions && 0 in q.state.subscriptions[SUBSCRIPTION].acked
  {
    var sought := SETUP + [PULL] + [Call(0, SeekToTime(SUBSCRIPTION, 0))];
    AfterSetup(env);
    PulledFirst(env, SETUP, 1);
    Sought(env, SETUP + [PULL], 0);
    assert Since(LogFor(Run(env, SETUP + [PULL]), SUBSCRIPTION), 1, 0, 0);
    PulledFirst(env, sought, 1);
    var q := DoAcknowledge(Run(env, REPLAYED), SUBSCRIPTION, [FIRST_ID]);
    AckInDue(Run(env, REPLAYED), q.0, q.1);
  }

  // ----- A message replayed although older than the time sought -----

  const FORESEEING: seq<Call> :=
    [] + [Call(0, CreateTopic(TOPIC, ""))] + [Call(0, CreateSubscription(SPEC))]
    + [Call(0, SeekToTime(SUBSCRIPTION, 100 * SECOND))] + [Call(SECOND, Op.Publish(TOPIC, [MESSAGE]))]

  /** A seek to a time in the future does not keep messages back that are published before that time. */
  lemma ARunThatForesees(env: Env)
    ensures var w := Run(env, FORESEEING);
            && Holds(w, 1) && w.state.topics[TOPIC].messages[0].publishedAt < 100 * SECOND
            && DoPull(w, SUBSCRIPTION, 1, []).1
               == Pulled([Delivery(FIRST_ID, w.state.topics[TOPIC].messages[0], 1)])
  {
    var created := [] + [Call(0, CreateTopic(TOPIC, ""))];
    var subscribed := created + [Call(0, CreateSubscription(SPEC))];
    var sought := subscribed + [Call(0, SeekToTime(SUBSCRIPTION, 100 * SECOND))];
    TopicCreated(env);
    SubscriptionCreated(env, created, 0);
    Sought(env, subscribed, 100 * SECOND);
    assert Since(LogFor(Run(env, subscribed), SUBSCRIPTION), 0, 100 * SECOND, 0);
    MessagePublished(env, sought, SECOND, 0);
    assert TrackedOf(Run(env, FORESEEING), SUBSCRIPTION) == TrackedOf(Run(env, sought), SUBSCRIPTION);
    PulledFirst(env, FORESEEING, 1);
  }

  // ----- A message that a snapshot does not bring back -----

  const SNAPSHOT := "projects/p" + ("/snapshots/" + "x")

  const SNAPPING: seq<Call> :=
    SETUP + [PULL] + [Call(0, CreateSnapshot(SNAPSHOT, SUBSCRIPTION))]
    + [Call(0, SeekToSnapshot(SUBSCRIPTION, SNAPSHOT))]

  lemma SnapshotCalls(env: Env, w: World)
    requires Valid(w)
    ensures Apply(env, w, Call(0, CreateSnapshot(SNAPSHOT, SUBSCRIPTION))) == DoCreateSnapshot(w, SNAPSHOT, SUBSCRIPTION)
    ensures Apply(env, w, Call(0, SeekToSnapshot(SUBSCRIPTION, SNAPSHOT))) == DoSeekToSnapshot(w, SUBSCRIPTION, SNAPSHOT)
  {
    assert Later(w, 0) == w;
  }

  lemma SnapshotTaken(w: World, v: World)
    requires Leasing(w, w.clock) && SNAPSHOT !in w.state.snapshots
    requires v == DoCreateSnapshot(w, SNAPSHOT, SUBSCRIPTION).0
    ensures Valid(v) && SUBSCRIPTION in v.state.subscriptions && TrackedOf(v, SUBSCRIPTION) == TrackedOf(w, SUBSCRIPTION)
    ensures SNAPSHOT in v.state.snapshots && v.state.snapshots[SNAPSHOT] == Snapshot(TOPIC, 1)
  {
    NameIsOk("/snapshots/", "x");
    SnapshotsValid(w, SNAPSHOT, SUBSCRIPTION);
  }

  /** Message 0 is leased and not acknowledged when the snapshot is taken; the seek to it begins an
      epoch at cursor 1, out of whose reach message 0 is. */
  lemma ARunThatSnapsShort(env: Env)
    ensures var w := Run(env, SETUP + [PULL]);
            && SUBSCRIPTION in w.state.subscriptions
            && 0 in LeasedIn(w.state.subscriptions[SUBSCRIPTION].inflight)
            && 0 !in w.state.subscriptions[SUBSCRIPTION].acked
    ensures RunsFrom(Run(env, SNAPPING), SUBSCRIPTION, 1)
  {
    var taken := SETUP + [PULL] + [Call(0, CreateSnapshot(SNAPSHOT, SUBSCRIPTION))];
    var w := Run(env, SETUP + [PULL]);
    AfterSetup(env);
    PulledFirst(env, SETUP, 1);
    assert w.state.subscriptions[SUBSCRIPTION].inflight[FIRST_ID].index == 0;
    RunMore(env, SETUP + [PULL], Call(0, CreateSnapshot(SNAPSHOT, SUBSCRIPTION)));
    SnapshotCalls(env, w);
    SnapshotTaken(w, Run(env, taken));
    RunMore(env, taken, Call(0, SeekToSnapshot(SUBSCRIPTION, SNAPSHOT)));
    SnapshotCalls(env, Run(env, taken));
    SnapshotBegins(Run(env, taken), SNAPSHOT, SUBSCRIPTION, Run(env, SNAPPING));
    StartRuns(Run(env, SNAPPING), SUBSCRIPTION);
  }

  // ----- Two messages under one id -----

  const TWICE: seq<Call> :=
    [] + [Call(0, CreateTopic(TOPIC, ""))] + [PUBLISH]
    + [Call(0, Op.Publish(TOPIC, [NewMessage([], map[], "", Uuid(0))]))]

  /** Publishing a message again under the id it was given stores it twice. */
  lemma ARunThatStoresTwice(env: Env)
    ensures var w := Run(env, [] + [Call(0, CreateTopic(TOPIC, ""))]);
            DoPublish(env, w, TOPIC, [MESSAGE]).1 == Published([Uuid(0)])
    ensures Count(LogOf(Run(env, TWICE).state.topics, TOPIC), Uuid(0)) == 2
  {
    var created := [] + [Call(0, CreateTopic(TOPIC, ""))];
    var again := NewMessage([], map[], "", Uuid(0));
    var w, v := Run(env, created), Run(env, created + [PUBLISH]);
    TopicCreated(env);
    assert Later(w, 0) == w && Later(v, 0) == v;
    RunMore(env, created, PUBLISH);
    PublishCall(env, w, 0, TOPIC, [MESSAGE]);
    OneReply(env, w, TOPIC, MESSAGE);
    RunMore(env, created + [PUBLISH], Call(0, Op.Publish(TOPIC, [again])));
    PublishCall(env, v, 0, TOPIC, [again]);
    OneReply(env, v, TOPIC, again);
    RepublishUnderGeneratedId(env, w, TOPIC, MESSAGE, again, Uuid(0), v, Run(env, TWICE),
                              DoPublish(env, v, TOPIC, [again]).1.ids);
  }

  /** The reply to one message in a topic without a schema. */
  lemma OneReply(env: Env, w: World, topic: string, m: NewMessage)
    requires topic in w.state.topics && w.state.topics[topic].schemaName == ""
    ensures var (v, reply) := DoPublish(env, w, topic, [m]);
            && reply.Published? && topic in v.state.topics && v.state.topics[topic].schemaName == ""
            && (ClientId(m) == "" ==> reply == Published([Uuid(w.state.minted)]))
  {
    SingleMessage(env, topic, Append(w.state.topics[topic], w.state.minted, []), m, w.clock);
    EnrichOnlyAdds(env, topic, m);
  }

  // ----- Two messages under one idempotency key -----

  /** The empty broker with one topic reaches two messages that carry one key, of which the second
      was published for a request answered OK. */
  lemma ARunThatDoublesAKey(env: Env, codec: Codec)
    ensures var w := Run(env, [] + [Call(0, CreateTopic(TOPIC, ""))]);
            var g := After(env, codec, TOPIC, w, Doubling(TOPIC));
            && KeyedCount(LogOf(g.world.state.topics, TOPIC), "key") == 2
            && |g.answers| == 1 && g.answers[0].key == "key" && g.answers[0].response.Queued?
  {
    TopicCreated(env);
    ARunThatDoubles(env, codec, TOPIC, Run(env, [] + [Call(0, CreateTopic(TOPIC, ""))]));
  }

  // ----- An answer for another request -----

  /** A gateway on the empty broker with one topic answers a request with its own ids although the
      one message in the topic is that of an earlier request. */
  lemma ARunThatMisleads(env: Env, codec: Codec, body: Bytes, input: ActionIn)
    requires body != [] && codec.parse(body) == Some(input) && input.actionId != ""
    ensures var w := Run(env, [] + [Call(0, CreateTopic(TOPIC, ""))]);
            var g := After(env, codec, TOPIC, w, Answering(body));
            && |g.answers| == 2 && g.answers[1].response.Queued?
            && |LogOf(g.world.state.topics, TOPIC)| == 1
            && (var stored := LogOf(g.world.state.topics, TOPIC)[0];
                && stored.id == "key" && "action_id" in stored.attributes
                && stored.attributes["action_id"] != g.answers[1].response.result.actionId)
  {
    TopicCreated(env);
    AfterNew(env, codec, TOPIC, Run(env, [] + [Call(0, CreateTopic(TOPIC, ""))]), Answering(body));
    ARunThatAnswersForAnother(env, codec, TOPIC, Run(env, [] + [Call(0, CreateTopic(TOPIC, ""))]), body, input);
    StoredAction(env, codec, TOPIC, "key", DEFAULT_ACTION, 0);
  }

  lemma StoredAction(env: Env, codec: Codec, topic: string, key: string, input: ActionIn, now: Time)
    ensures var m := Stored(Enrich(env, topic, MessageFor(codec, key, input)), key, now);
            m.id == key && "action_id" in m.attributes && m.attributes["action_id"] == input.actionId
  {
    EnrichOnlyAdds(env, topic, MessageFor(codec, key, input));
    assert MessageFor(codec, key, input).attributes["action_id"] == input.actionId;
  }
}
