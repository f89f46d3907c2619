/** The whole broker as a state machine: every operation of src/memory.rs on topics,
    subscriptions and snapshots, and the invariant of every run. */
module Broker {
  import opened Basics
  import opened Model
  import opened Tracking
  import opened Consumer
  import opened Pulling
  import opened PullSafety
  import opened Publishing
  import Filter

  /** What the lock protects, and how many ids have been generated. */
  datatype State = State(
    topics: map<string, Topic>,
    subscriptions: map<string, Subscription>,
    snapshots: map<string, Snapshot>,
    schemas: set<string>,
    minted: nat)

  /** The state, the epoch of each subscription, and the time of the last operation. */
  datatype World = World(state: State, epochs: map<string, Epoch>, clock: Time)

  datatype Op =
    | CreateTopic(name: string, schemaName: string)
    | CreateSubscription(spec: SubscriptionSpec)
    | UpdateSubscription(spec: SubscriptionSpec, mask: seq<string>)
    | DeleteSubscription(name: string)
    | ChangeSchemas(schemas: set<string>)
    | Publish(topic: string, batch: seq<NewMessage>)
    | Pull(name: string, max: u32, order: seq<string>)
    | Acknowledge(name: string, ids: seq<string>)
    | ModifyAckDeadline(name: string, ids: seq<string>, seconds: u32)
    | SeekToTime(name: string, time: Time)
    | SeekToSnapshot(name: string, snapshot: string)
    | CreateSnapshot(snapshot: string, name: string)
    | DeleteSnapshot(snapshot: string)

  /** An operation and the time since the one before: the clock never goes back. */
  datatype Call = Call(elapsed: nat, op: Op)

  datatype Reply =
    | Accepted
    | Published(ids: seq<string>)
    | Pulled(deliveries: seq<Delivery>)
    | Failed(error: Error)

  // ----- The invariant -----

  ghost predicate TopicsSound(topics: map<string, Topic>, minted: nat, now: Time) {
    forall n :: n in topics ==> TopicSound(topics[n], minted, now)
  }

  function TrackedOf(w: World, n: string): Tracked
    requires n in w.state.subscriptions && n in w.epochs
  {
    Tracked(w.state.subscriptions[n], w.epochs[n])
  }

  ghost predicate SubscriptionSound(n: string, t: Tracked, topics: map<string, Topic>, minted: nat) {
    && t.sub.spec.name == n && t.sub.spec.topic in topics
    && Sound(t, topics[t.sub.spec.topic].messages, minted)
  }

  ghost predicate SnapshotSound(s: Snapshot, topics: map<string, Topic>) {
    s.topic in topics && s.topicIndex <= |topics[s.topic].messages|
  }

  ghost predicate Valid(w: World) {
    && w.epochs.Keys == w.state.subscriptions.Keys
    && TopicsSound(w.state.topics, w.state.minted, w.clock)
    && (forall n {:trigger TrackedOf(w, n)} :: n in w.state.subscriptions ==>
          SubscriptionSound(n, TrackedOf(w, n), w.state.topics, w.state.minted))
    && (forall s :: s in w.state.snapshots ==> SnapshotSound(w.state.snapshots[s], w.state.topics))
  }

  const INITIAL := World(State(map[], map[], map[], {}, 0), map[], 0)

  // ----- Operations -----

  predicate Contains(s: string, part: string) {
    part <= s || (s != "" && Contains(s[1..], part))
  }

  predicate NameOk(name: string, kind: string) {
    "projects/" <= name && Contains(name, kind)
  }

  function PutTopic(w: World, n: string, t: Topic): World {
    w.(state := w.state.(topics := w.state.topics[n := t]))
  }

  function PutTracked(w: World, n: string, t: Tracked): World {
    w.(state := w.state.(subscriptions := w.state.subscriptions[n := t.sub]), epochs := w.epochs[n := t.epoch])
  }

  function DoCreateTopic(w: World, name: string, schemaName: string): (World, Reply) {
    if !NameOk(name, "/topics/") then (w, Failed(InvalidArgument))
    else if name in w.state.topics then (w, Failed(AlreadyExists))
    else (PutTopic(w, name, Topic(schemaName, [], map[])), Accepted)
  }

  function BeginEpoch(spec: SubscriptionSpec, cursor: nat): Tracked {
    Tracked(Subscription(spec, cursor, {}, map[], [], map[], map[]),
            Epoch(cursor, [], spec.ordering, spec.exactlyOnce, spec.exactlyOnce))
  }

  function Normalized(spec: SubscriptionSpec): SubscriptionSpec {
    spec.(ackDeadlineSeconds := NormalizeAckDeadline(Max(spec.ackDeadlineSeconds, 10)))
  }

  function DoCreateSubscription(w: World, spec: SubscriptionSpec): (World, Reply) {
    if !NameOk(spec.name, "/subscriptions/") then (w, Failed(InvalidArgument))
    else if spec.name in w.state.subscriptions then (w, Failed(AlreadyExists))
    else if Filter.Trim(spec.filter) != "" && Filter.Parse(spec.filter).None? then (w, Failed(InvalidArgument))
    else if spec.topic !in w.state.topics then (w, Failed(NotFound))
    else
      (PutTracked(w, spec.name, BeginEpoch(Normalized(spec), |w.state.topics[spec.topic].messages|)), Accepted)
  }

  /** A changed flag ends "on all the time" and begins "on at some time". */
  function Reconfigure(t: Tracked, spec: SubscriptionSpec): Tracked {
    Tracked(t.sub.(spec := spec),
            t.epoch.(ordered := t.epoch.ordered && spec.ordering,
                     fenced := t.epoch.fenced && spec.exactlyOnce,
                     everFenced := t.epoch.everFenced || spec.exactlyOnce))
  }

  function DoUpdateSubscription(w: World, spec: SubscriptionSpec, mask: seq<string>): (World, Reply)
    requires w.epochs.Keys == w.state.subscriptions.Keys
  {
    if spec.name !in w.state.subscriptions then (w, Failed(NotFound))
    else
      var t := TrackedOf(w, spec.name);
      if "filter" in mask && spec.filter != "" && spec.filter != t.sub.spec.filter
      then (w, Failed(FailedPrecondition))
      else (PutTracked(w, spec.name, Reconfigure(t, Normalized(Updated(t.sub.spec, spec, mask)))), Accepted)
  }

  function DoDeleteSubscription(w: World, name: string): (World, Reply) {
    if name !in w.state.subscriptions then (w, Failed(NotFound))
    else
      (w.(state := w.state.(subscriptions := w.state.subscriptions - {name}), epochs := w.epochs - {name}),
       Accepted)
  }

  /** The error that stops a publish before anything is appended. */
  function PublishError(env: Env, s: State, topic: string, batch: seq<NewMessage>): Option<Error> {
    if topic !in s.topics then Some(NotFound)
    else
      var schema := s.topics[topic].schemaName;
      if schema == "" then None
      else if schema !in s.schemas then Some(FailedPrecondition)
      else if exists k :: 0 <= k < |batch| && !env.valid(schema, batch[k].data) then Some(InvalidArgument)
      else None
  }

  function DoPublish(env: Env, w: World, topic: string, batch: seq<NewMessage>): (World, Reply) {
    match PublishError(env, w.state, topic, batch)
    case Some(e) => (w, Failed(e))
    case None =>
      var a := AppendAll(env, topic, Append(w.state.topics[topic], w.state.minted, []), batch, w.clock);
      (w.(state := w.state.(topics := w.state.topics[topic := a.topic], minted := a.minted)), Published(a.ids))
  }

  function Expired(inflight: map<string, Lease>, now: Time): set<string> {
    set k | k in inflight && inflight[k].deadline <= now
  }

  ghost predicate Enumerates(order: seq<string>, ids: set<string>) {
    && (forall k :: k in ids <==> k in order)
    && (forall p, q :: 0 <= p < q < |order| ==> order[p] != order[q])
  }

  lemma {:induction false} SomeOrder(ids: set<string>) returns (order: seq<string>)
    ensures Enumerates(order, ids)
    decreases ids
  {
    if ids == {} {
      order := [];
    } else {
      var k :| k in ids;
      var rest := SomeOrder(ids - {k});
      order := rest + [k];
    }
  }

  /** The expired leases are visited in the order of the hash map: any order, here the given one
      if it enumerates them. */
  ghost function VisitOrder(order: seq<string>, ids: set<string>): (r: seq<string>)
    ensures Enumerates(r, ids)
    ensures Enumerates(order, ids) ==> r == order
  {
    if Enumerates(order, ids) then order
    else
      assert exists o :: Enumerates(o, ids) by { var o := SomeOrder(ids); }
      var o :| Enumerates(o, ids); o
  }

  function StartWork(s: State, t: Tracked): Work {
    Work(s.topics, t, s.minted, [], [], {})
  }

  function PullLimit(max: u32): nat {
    Clamp(max, 1, 1000)
  }

  /** The work of a pull: reclaim what has expired, then loop. */
  ghost function PullWork(w: World, name: string, max: u32, order: seq<string>): Work
    requires Valid(w) && name in w.state.subscriptions
  {
    var t := TrackedOf(w, name);
    var r := Reclaim(t, VisitOrder(order, Expired(t.sub.inflight, w.clock)), w.clock);
    var work := StartWork(w.state, r);
    ReclaimExpiredSound(w, name, VisitOrder(order, Expired(t.sub.inflight, w.clock)));
    WorkInBounds(work, |LogIn(work)|);
    PullLoop(work, w.clock, PullLimit(max), |LogIn(work)|)
  }

  ghost function DoPull(w: World, name: string, max: u32, order: seq<string>): (World, Reply)
    requires Valid(w)
  {
    if name !in w.state.subscriptions then (w, Failed(NotFound))
    else if w.state.subscriptions[name].spec.topic !in w.state.topics then (w, Failed(FailedPrecondition))
    else
      var v := PullWork(w, name, max, order);
      (PutTracked(w.(state := w.state.(topics := v.topics, minted := v.minted)), name, v.t),
       Pulled(v.deliveries))
  }

  function DoAcknowledge(w: World, name: string, ids: seq<string>): (World, Reply)
    requires w.epochs.Keys == w.state.subscriptions.Keys
  {
    if name !in w.state.subscriptions then (w, Failed(NotFound))
    else
      var t := TrackedOf(w, name);
      var (u, ok) := AckAll(t, ids, w.clock, LogOf(w.state.topics, t.sub.spec.topic));
      (PutTracked(w, name, u), if ok then Accepted else Failed(FailedPrecondition))
  }

  function DoModify(w: World, name: string, ids: seq<string>, seconds: u32): (World, Reply)
    requires w.epochs.Keys == w.state.subscriptions.Keys
  {
    if seconds > 600 then (w, Failed(InvalidArgument))
    else if name !in w.state.subscriptions then (w, Failed(NotFound))
    else (PutTracked(w, name, ModifyAll(TrackedOf(w, name), ids, w.clock, seconds)), Accepted)
  }

  /** The position of the first message published at or after `time`, or the end. */
  function FirstSince(log: seq<Message>, time: Time, from: nat): (r: nat)
    requires from <= |log|
    ensures from <= r <= |log|
    ensures forall i :: from <= i < r ==> log[i].publishedAt < time
    ensures r < |log| ==> log[r].publishedAt >= time
    decreases |log| - from
  {
    if from == |log| || log[from].publishedAt >= time then from else FirstSince(log, time, from + 1)
  }

  function DoSeekToTime(w: World, name: string, time: Time): (World, Reply) {
    if name !in w.state.subscriptions then (w, Failed(NotFound))
    else
      var spec := w.state.subscriptions[name].spec;
      if spec.topic !in w.state.topics then (w, Failed(NotFound))
      else
        var cursor := FirstSince(w.state.topics[spec.topic].messages, time, 0);
        (PutTracked(w, name, BeginEpoch(spec, cursor)), Accepted)
  }

  function DoSeekToSnapshot(w: World, name: string, snapshot: string): (World, Reply) {
    if snapshot !in w.state.snapshots then (w, Failed(NotFound))
    else if name !in w.state.subscriptions then (w, Failed(NotFound))
    else
      var spec, snap := w.state.subscriptions[name].spec, w.state.snapshots[snapshot];
      if spec.topic != snap.topic then (w, Failed(FailedPrecondition))
      else (PutTracked(w, name, BeginEpoch(spec, snap.topicIndex)), Accepted)
  }

  function DoCreateSnapshot(w: World, snapshot: string, name: string): (World, Reply) {
    if !NameOk(snapshot, "/snapshots/") then (w, Failed(InvalidArgument))
    else if snapshot in w.state.snapshots then (w, Failed(AlreadyExists))
    else if name !in w.state.subscriptions then (w, Failed(NotFound))
    else
      var sub := w.state.subscriptions[name];
      (w.(state := w.state.(snapshots := w.state.snapshots[snapshot := Snapshot(sub.spec.topic, sub.nextIndex)])),
       Accepted)
  }

  function DoDeleteSnapshot(w: World, snapshot: string): (World, Reply) {
    if snapshot !in w.state.snapshots then (w, Failed(NotFound))
    else (w.(state := w.state.(snapshots := w.state.snapshots - {snapshot})), Accepted)
  }

  ghost function Perform(env: Env, w: World, op: Op): (World, Reply)
    requires Valid(w)
  {
    match op
    case CreateTopic(name, schemaName) => DoCreateTopic(w, name, schemaName)
    case CreateSubscription(spec) => DoCreateSubscription(w, spec)
    case UpdateSubscription(spec, mask) => DoUpdateSubscription(w, spec, mask)
    case DeleteSubscription(name) => DoDeleteSubscription(w, name)
    case ChangeSchemas(schemas) => (w.(state := w.state.(schemas := schemas)), Accepted)
    case Publish(topic, batch) => DoPublish(env, w, topic, batch)
    case Pull(name, max, order) => DoPull(w, name, max, order)
    case Acknowledge(name, ids) => DoAcknowledge(w, name, ids)
    case ModifyAckDeadline(name, ids, seconds) => DoModify(w, name, ids, seconds)
    case SeekToTime(name, time) => DoSeekToTime(w, name, time)
    case SeekToSnapshot(name, snapshot) => DoSeekToSnapshot(w, name, snapshot)
    case CreateSnapshot(snapshot, name) => DoCreateSnapshot(w, snapshot, name)
    case DeleteSnapshot(snapshot) => DoDeleteSnapshot(w, snapshot)
  }

  // ----- Every operation keeps the invariant -----

  /** Topics only gain messages. */
  ghost predicate TopicsGrow(a: map<string, Topic>, b: map<string, Topic>) {
    forall n :: n in a ==> n in b && a[n].messages <= b[n].messages
  }

  lemma SubscriptionGrows(n: string, t: Tracked, a: map<string, Topic>, minted: nat, b: map<string, Topic>, more: nat)
    requires SubscriptionSound(n, t, a, minted) && TopicsGrow(a, b) && minted <= more
    ensures SubscriptionSound(n, t, b, more)
  {
    SoundGrows(t, a[t.sub.spec.topic].messages, minted, b[t.sub.spec.topic].messages, more);
  }

  /** A step that lets topics grow keeps every subscription and snapshot as good as it was. */
  lemma GrowthValid(w: World, topics: map<string, Topic>, minted: nat)
    requires Valid(w) && TopicsGrow(w.state.topics, topics) && w.state.minted <= minted
    requires TopicsSound(topics, minted, w.clock)
    ensures Valid(w.(state := w.state.(topics := topics, minted := minted)))
  {
    var v := w.(state := w.state.(topics := topics, minted := minted));
    forall n | n in v.state.subscriptions ensures SubscriptionSound(n, TrackedOf(v, n), topics, minted) {
      assert SubscriptionSound(n, TrackedOf(w, n), w.state.topics, w.state.minted);
      SubscriptionGrows(n, TrackedOf(w, n), w.state.topics, w.state.minted, topics, minted);
      assert TrackedOf(v, n) == TrackedOf(w, n);
    }
    forall s | s in v.state.snapshots ensures SnapshotSound(v.state.snapshots[s], topics) {
      assert SnapshotSound(w.state.snapshots[s], w.state.topics);
    }
  }

  lemma PutValid(w: World, n: string, t: Tracked)
    requires Valid(w) && SubscriptionSound(n, t, w.state.topics, w.state.minted)
    ensures Valid(PutTracked(w, n, t))
  {
    var v := PutTracked(w, n, t);
    forall m | m in v.state.subscriptions
      ensures SubscriptionSound(m, TrackedOf(v, m), v.state.topics, v.state.minted)
    {
      if m == n {
        assert TrackedOf(v, m) == t;
      } else {
        assert TrackedOf(v, m) == TrackedOf(w, m);
        assert SubscriptionSound(m, TrackedOf(w, m), w.state.topics, w.state.minted);
      }
    }
  }

  lemma TopicsSoundLater(topics: map<string, Topic>, minted: nat, now: Time, more: nat, later: Time)
    requires TopicsSound(topics, minted, now) && minted <= more && now <= later
    ensures TopicsSound(topics, more, later)
  {
    forall n | n in topics ensures TopicSound(topics[n], more, later) {
      TopicSoundLater(topics[n], minted, now, more, later);
    }
  }

  lemma TickValid(w: World, elapsed: nat)
    requires Valid(w)
    ensures Valid(w.(clock := w.clock + elapsed))
  {
    var v := w.(clock := w.clock + elapsed);
    TopicsSoundLater(w.state.topics, w.state.minted, w.clock, w.state.minted, v.clock);
    forall n | n in v.state.subscriptions
      ensures SubscriptionSound(n, TrackedOf(v, n), v.state.topics, v.state.minted)
    {
      assert TrackedOf(v, n) == TrackedOf(w, n);
      assert SubscriptionSound(n, TrackedOf(w, n), w.state.topics, w.state.minted);
    }
  }

  lemma BeginSound(spec: SubscriptionSpec, cursor: nat, log: seq<Message>, minted: nat)
    requires cursor <= |log| && Filter.Parse(spec.filter).Some?
    ensures Sound(BeginEpoch(spec, cursor), log, minted)
  {
    NewEpoch(BeginEpoch(spec, cursor));
  }

  lemma CreateTopicValid(w: World, name: string, schemaName: string)
    requires Valid(w)
    ensures Valid(DoCreateTopic(w, name, schemaName).0)
  {
    if name !in w.state.topics {
      var topics := w.state.topics[name := Topic(schemaName, [], map[])];
      EmptyTopicSound(schemaName, w.state.minted, w.clock);
      GrowthValid(w, topics, w.state.minted);
    }
  }

  lemma EmptyFilterParses(filter: string)
    requires Filter.Trim(filter) == ""
    ensures Filter.Parse(filter).Some?
  {
  }

  lemma AddedValid(w: World, spec: SubscriptionSpec)
    requires Valid(w) && spec.topic in w.state.topics && Filter.Parse(spec.filter).Some?
    ensures Valid(PutTracked(w, spec.name, BeginEpoch(spec, |w.state.topics[spec.topic].messages|)))
  {
    var log := w.state.topics[spec.topic].messages;
    BeginSound(spec, |log|, log, w.state.minted);
    PutValid(w, spec.name, BeginEpoch(spec, |log|));
  }

  lemma CreateSubscriptionValid(w: World, spec: SubscriptionSpec)
    requires Valid(w)
    ensures Valid(DoCreateSubscription(w, spec).0)
  {
    if Filter.Trim(spec.filter) == "" {
      EmptyFilterParses(spec.filter);
    }
    if spec.topic in w.state.topics && Filter.Parse(spec.filter).Some? {
      AddedValid(w, Normalized(spec));
    }
  }

  lemma ReconfigureSound(t: Tracked, spec: SubscriptionSpec, log: seq<Message>, minted: nat)
    requires Sound(t, log, minted)
    requires spec.name == t.sub.spec.name && spec.topic == t.sub.spec.topic && spec.filter == t.sub.spec.filter
    ensures Sound(Reconfigure(t, spec), log, minted)
  {
    var u := Reconfigure(t, spec);
    forall i ensures Agrees(u, i) {
      assert Agrees(t, i);
    }
    forall k | k in u.sub.inflight ensures KeyFits(u.sub, minted, k, u.sub.inflight[k].index) {
      assert KeyFits(t.sub, minted, k, t.sub.inflight[k].index);
    }
  }

  lemma UpdateSubscriptionValid(w: World, spec: SubscriptionSpec, mask: seq<string>)
    requires Valid(w)
    ensures Valid(DoUpdateSubscription(w, spec, mask).0)
  {
    if spec.name in w.state.subscriptions {
      var t := TrackedOf(w, spec.name);
      assert SubscriptionSound(spec.name, t, w.state.topics, w.state.minted);
      var spec' := Normalized(Updated(t.sub.spec, spec, mask));
      ReconfigureSound(t, spec', w.state.topics[t.sub.spec.topic].messages, w.state.minted);
      PutValid(w, spec.name, Reconfigure(t, spec'));
    }
  }

  lemma DeleteSubscriptionValid(w: World, name: string)
    requires Valid(w)
    ensures Valid(DoDeleteSubscription(w, name).0)
  {
    var v := DoDeleteSubscription(w, name).0;
    forall n | n in v.state.subscriptions
      ensures SubscriptionSound(n, TrackedOf(v, n), v.state.topics, v.state.minted)
    {
      assert TrackedOf(v, n) == TrackedOf(w, n);
      assert SubscriptionSound(n, TrackedOf(w, n), w.state.topics, w.state.minted);
    }
  }

  lemma PublishValid(env: Env, w: World, topic: string, batch: seq<NewMessage>)
    requires Valid(w)
    ensures Valid(DoPublish(env, w, topic, batch).0)
  {
    if PublishError(env, w.state, topic, batch).None? {
      var a := Append(w.state.topics[topic], w.state.minted, []);
      var b := AppendAll(env, topic, a, batch, w.clock);
      assert TopicSound(w.state.topics[topic], w.state.minted, w.clock);
      AppendAllSound(env, topic, a, batch, w.clock);
      TopicsSoundLater(w.state.topics, w.state.minted, w.clock, b.minted, w.clock);
      GrowthValid(w, w.state.topics[topic := b.topic], b.minted);
    }
  }

  /** The ids are distinct, leased, and expired. */
  ghost predicate AllExpired(inflight: map<string, Lease>, ids: seq<string>, now: Time) {
    && (forall p :: 0 <= p < |ids| ==> ids[p] in inflight && inflight[ids[p]].deadline <= now)
    && (forall p, q :: 0 <= p < q < |ids| ==> ids[p] != ids[q])
  }

  lemma RestExpired(inflight: map<string, Lease>, ids: seq<string>, now: Time)
    requires AllExpired(inflight, ids, now) && ids != []
    ensures AllExpired(inflight - {ids[0]}, ids[1..], now)
  {
    var rest := ids[1..];
    assert forall p :: 0 <= p < |rest| ==> rest[p] == ids[p + 1];
  }

  function Without(inflight: map<string, Lease>, ids: seq<string>): map<string, Lease>
    decreases |ids|
  {
    if ids == [] then inflight else Without(inflight - {ids[0]}, ids[1..])
  }

  lemma {:induction false} WithoutIs(inflight: map<string, Lease>, ids: seq<string>)
    ensures Without(inflight, ids) == inflight - (set k | k in ids)
    decreases |ids|
  {
    if ids != [] {
      WithoutIs(inflight - {ids[0]}, ids[1..]);
      assert (set k | k in ids) == {ids[0]} + set k | k in ids[1..];
    }
  }

  lemma {:induction false} ReclaimSound(t: Tracked, ids: seq<string>, now: Time, log: seq<Message>, minted: nat)
    requires Sound(t, log, minted) && AllExpired(t.sub.inflight, ids, now)
    ensures var u := Reclaim(t, ids, now);
            && Sound(u, log, minted) && SameEpoch(t, u)
            && u.sub.inflight == Without(t.sub.inflight, ids)
            && u.sub.acked == t.sub.acked && u.sub.spec == t.sub.spec && u.sub.nextIndex == t.sub.nextIndex
    decreases |ids|
  {
    if ids != [] {
      RestExpired(t.sub.inflight, ids, now);
      ReclaimOneSound(t, ids[0], now, log, minted);
      ReclaimSound(ReclaimOne(t, ids[0], now), ids[1..], now, log, minted);
    }
  }

  lemma EnumeratedExpired(inflight: map<string, Lease>, order: seq<string>, now: Time)
    requires Enumerates(order, Expired(inflight, now))
    ensures AllExpired(inflight, order, now)
    ensures Without(inflight, order) == inflight - Expired(inflight, now)
  {
    forall p | 0 <= p < |order| ensures order[p] in Expired(inflight, now) {
      assert order[p] in order;
    }
    WithoutIs(inflight, order);
    assert (set k | k in order) == Expired(inflight, now);
  }

  lemma ReclaimExpiredSound(w: World, name: string, order: seq<string>)
    requires Valid(w) && name in w.state.subscriptions
    requires Enumerates(order, Expired(w.state.subscriptions[name].inflight, w.clock))
    ensures var t := TrackedOf(w, name);
            var r := Reclaim(t, order, w.clock);
            && WorkSound(StartWork(w.state, r)) && SameEpoch(t, r)
            && r.sub.inflight == t.sub.inflight - Expired(t.sub.inflight, w.clock)
            && r.sub.acked == t.sub.acked && r.sub.spec == t.sub.spec && r.sub.nextIndex == t.sub.nextIndex
            && LogIn(StartWork(w.state, r)) == LogOf(w.state.topics, t.sub.spec.topic)
  {
    var t := TrackedOf(w, name);
    assert SubscriptionSound(name, t, w.state.topics, w.state.minted);
    EnumeratedExpired(t.sub.inflight, order, w.clock);
    ReclaimSound(t, order, w.clock, w.state.topics[t.sub.spec.topic].messages, w.state.minted);
  }

  lemma ExamineTopics(w: Work, i: nat, now: Time)
    requires i < |LogIn(w)| && TopicsSound(w.topics, w.minted, now)
    ensures var v := Examine(w, i, now);
            TopicsSound(v.topics, v.minted, now) && TopicsGrow(w.topics, v.topics) && w.minted <= v.minted
  {
    TopicsSoundLater(w.topics, w.minted, now, w.minted + 1, now);
    if Judge(w.t.sub, w.topics, LogIn(w), i).Bury? {
      var dead := w.t.sub.spec.deadLetter.value.topic;
      var copy := DeadCopy(w.t.sub.spec.name, LogIn(w)[i], Uuid(w.minted), now);
      DrawnAppended(w.topics[dead], w.minted, copy, now);
    }
  }

  lemma {:induction false} PullLoopTopics(w: Work, now: Time, limit: nat, topicLen: nat)
    requires InBounds(w, topicLen) && TopicsSound(w.topics, w.minted, now)
    ensures var v := PullLoop(w, now, limit, topicLen);
            TopicsSound(v.topics, v.minted, now) && TopicsGrow(w.topics, v.topics) && w.minted <= v.minted
    decreases Measure(w, now, topicLen)
  {
    if |w.deliveries| < limit && Turn(w, now, topicLen).Some? {
      var (i, s) := Pick(w.t.sub, now, topicLen, w.skipped).value;
      var u := w.(t := w.t.(sub := s));
      PickInBounds(w, now, topicLen);
      ExamineTopics(u, i, now);
      TurnLessens(w, now, topicLen);
      TurnInBounds(w, now, topicLen);
      PullLoopTopics(Turn(w, now, topicLen).value, now, limit, topicLen);
    }
  }

  lemma PullWorkSound(w: World, name: string, max: u32, order: seq<string>)
    requires Valid(w) && name in w.state.subscriptions
    ensures var v := PullWork(w, name, max, order);
            && TopicsSound(v.topics, v.minted, w.clock) && TopicsGrow(w.state.topics, v.topics)
            && w.state.minted <= v.minted
            && SubscriptionSound(name, v.t, v.topics, v.minted)
  {
    var t := TrackedOf(w, name);
    var visit := VisitOrder(order, Expired(t.sub.inflight, w.clock));
    var work := StartWork(w.state, Reclaim(t, visit, w.clock));
    assert SubscriptionSound(name, t, w.state.topics, w.state.minted);
    ReclaimExpiredSound(w, name, visit);
    WorkInBounds(work, |LogIn(work)|);
    PullLoopSound(work, w.clock, PullLimit(max), |LogIn(work)|);
    PullLoopTopics(work, w.clock, PullLimit(max), |LogIn(work)|);
  }

  lemma PullValid(w: World, name: string, max: u32, order: seq<string>)
    requires Valid(w)
    ensures Valid(DoPull(w, name, max, order).0)
  {
    if name in w.state.subscriptions {
      var v := PullWork(w, name, max, order);
      PullWorkSound(w, name, max, order);
      GrowthValid(w, v.topics, v.minted);
      PutValid(w.(state := w.state.(topics := v.topics, minted := v.minted)), name, v.t);
    }
  }

  lemma AcknowledgeValid(w: World, name: string, ids: seq<string>)
    requires Valid(w)
    ensures Valid(DoAcknowledge(w, name, ids).0)
  {
    if name in w.state.subscriptions {
      var t := TrackedOf(w, name);
      assert SubscriptionSound(name, t, w.state.topics, w.state.minted);
      var log := w.state.topics[t.sub.spec.topic].messages;
      AckAllSound(t, ids, w.clock, log, w.state.minted);
      PutValid(w, name, AckAll(t, ids, w.clock, log).0);
    }
  }

  lemma ModifyValid(w: World, name: string, ids: seq<string>, seconds: u32)
    requires Valid(w)
    ensures Valid(DoModify(w, name, ids, seconds).0)
  {
    if name in w.state.subscriptions {
      var t := TrackedOf(w, name);
      assert SubscriptionSound(name, t, w.state.topics, w.state.minted);
      ModifyAllSound(t, ids, w.clock, seconds, w.state.topics[t.sub.spec.topic].messages, w.state.minted);
      PutValid(w, name, ModifyAll(t, ids, w.clock, seconds));
    }
  }

  lemma SeekValid(w: World, name: string, cursor: nat)
    requires Valid(w) && name in w.state.subscriptions
    requires cursor <= |LogOf(w.state.topics, w.state.subscriptions[name].spec.topic)|
    ensures Valid(PutTracked(w, name, BeginEpoch(w.state.subscriptions[name].spec, cursor)))
  {
    var spec := w.state.subscriptions[name].spec;
    assert SubscriptionSound(name, TrackedOf(w, name), w.state.topics, w.state.minted);
    BeginSound(spec, cursor, w.state.topics[spec.topic].messages, w.state.minted);
    PutValid(w, name, BeginEpoch(spec, cursor));
  }

  lemma SeeksValid(w: World, name: string, time: Time, snapshot: string)
    requires Valid(w)
    ensures Valid(DoSeekToTime(w, name, time).0) && Valid(DoSeekToSnapshot(w, name, snapshot).0)
  {
    if name in w.state.subscriptions {
      assert SubscriptionSound(name, TrackedOf(w, name), w.state.topics, w.state.minted);
      var spec := w.state.subscriptions[name].spec;
      SeekValid(w, name, FirstSince(w.state.topics[spec.topic].messages, time, 0));
      if snapshot in w.state.snapshots && w.state.snapshots[snapshot].topic == spec.topic {
        assert SnapshotSound(w.state.snapshots[snapshot], w.state.topics);
        SeekValid(w, name, w.state.snapshots[snapshot].topicIndex);
      }
    }
  }

  lemma SnapshotsValid(w: World, snapshot: string, name: string)
    requires Valid(w)
    ensures Valid(DoCreateSnapshot(w, snapshot, name).0) && Valid(DoDeleteSnapshot(w, snapshot).0)
  {
    if name in w.state.subscriptions {
      assert SubscriptionSound(name, TrackedOf(w, name), w.state.topics, w.state.minted);
    }
    SnapshotTableValid(w, DoCreateSnapshot(w, snapshot, name).0);
    SnapshotTableValid(w, DoDeleteSnapshot(w, snapshot).0);
  }

  lemma SnapshotTableValid(w: World, v: World)
    requires Valid(w)
    requires v == w.(state := w.state.(snapshots := v.state.snapshots))
    requires forall s :: s in v.state.snapshots ==> SnapshotSound(v.state.snapshots[s], w.state.topics)
    ensures Valid(v)
  {
    forall n | n in v.state.subscriptions
      ensures SubscriptionSound(n, TrackedOf(v, n), v.state.topics, v.state.minted)
    {
      assert TrackedOf(v, n) == TrackedOf(w, n);
      assert SubscriptionSound(n, TrackedOf(w, n), w.state.topics, w.state.minted);
    }
  }

  lemma SchemasValid(w: World, schemas: set<string>)
    requires Valid(w)
    ensures Valid(w.(state := w.state.(schemas := schemas)))
  {
    var v := w.(state := w.state.(schemas := schemas));
    forall n | n in v.state.subscriptions
      ensures SubscriptionSound(n, TrackedOf(v, n), v.state.topics, v.state.minted)
    {
      assert TrackedOf(v, n) == TrackedOf(w, n);
      assert SubscriptionSound(n, TrackedOf(w, n), w.state.topics, w.state.minted);
    }
  }

  /** Whatever the operation and its arguments, the invariant is kept, also when it fails. */
  lemma PerformValid(env: Env, w: World, op: Op)
    requires Valid(w)
    ensures Valid(Perform(env, w, op).0)
  {
    match op {
      case CreateTopic(name, schemaName) => CreateTopicValid(w, name, schemaName);
      case CreateSubscription(spec) => CreateSubscriptionValid(w, spec);
      case UpdateSubscription(spec, mask) => UpdateSubscriptionValid(w, spec, mask);
      case DeleteSubscription(name) => DeleteSubscriptionValid(w, name);
      case ChangeSchemas(schemas) => SchemasValid(w, schemas);
      case Publish(topic, batch) => PublishValid(env, w, topic, batch);
      case Pull(name, max, order) => PullValid(w, name, max, order);
      case Acknowledge(name, ids) => AcknowledgeValid(w, name, ids);
      case ModifyAckDeadline(name, ids, seconds) => ModifyValid(w, name, ids, seconds);
      case SeekToTime(name, time) => SeeksValid(w, name, time, "");
      case SeekToSnapshot(name, snapshot) => SeeksValid(w, name, 0, snapshot);
      case CreateSnapshot(snapshot, name) => SnapshotsValid(w, snapshot, name);
      case DeleteSnapshot(snapshot) => SnapshotsValid(w, snapshot, "");
    }
  }

  // ----- Runs -----

  ghost function Apply(env: Env, w: World, c: Call): (r: (World, Reply))
    requires Valid(w)
    ensures Valid(r.0)
  {
    TickValid(w, c.elapsed);
    PerformValid(env, w.(clock := w.clock + c.elapsed), c.op);
    Perform(env, w.(clock := w.clock + c.elapsed), c.op)
  }

  lemma ApplyIsPerform(env: Env, w: World, c: Call)
    requires Valid(w)
    ensures Valid(w.(clock := w.clock + c.elapsed))
    ensures Apply(env, w, c) == Perform(env, w.(clock := w.clock + c.elapsed), c.op)
  {
    TickValid(w, c.elapsed);
  }

  /** The world after a sequence of calls. */
  ghost function RunFrom(env: Env, w: World, calls: seq<Call>): (v: World)
    requires Valid(w)
    ensures Valid(v)
    decreases |calls|
  {
    if calls == [] then w else Apply(env, RunFrom(env, w, calls[..|calls| - 1]), calls[|calls| - 1]).0
  }

  /** Every run from the empty broker, whatever the calls, ends in a valid world. */
  ghost function Run(env: Env, calls: seq<Call>): (w: World)
    ensures Valid(w)
  {
    RunFrom(env, INITIAL, calls)
  }
}
