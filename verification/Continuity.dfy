/** What every call leaves as it was: topics only gain messages and client ids, snapshots stay,
    subscriptions keep their identity and, unless sought, their epoch. */
module Continuity {
  import opened Basics
  import opened Model
  import opened Tracking
  import opened Consumer
  import opened Pulling
  import opened PullSafety
  import opened PullResults
  import opened Publishing
  import opened Broker
  import opened Guarantees

  /** Logs are extended at the end, and no client id is forgotten. */
  ghost predicate TopicsContinue(a: map<string, Topic>, b: map<string, Topic>) {
    forall n :: n in a ==> n in b && a[n].messages <= b[n].messages && a[n].seenIds.Keys <= b[n].seenIds.Keys
  }

  predicate SameIdentity(s: SubscriptionSpec, s': SubscriptionSpec) {
    s'.name == s.name && s'.topic == s.topic && s'.filter == s.filter
  }

  predicate Seeks(op: Op, n: string) {
    (op.SeekToTime? || op.SeekToSnapshot?) && op.name == n
  }

  /** The epoch goes on: same start, only further events, and ordering not on all the time anew. */
  ghost predicate EpochContinues(e: Epoch, f: Epoch) {
    f.start == e.start && e.trace <= f.trace && (f.ordered ==> e.ordered)
  }

  /** The last acknowledged index of no key is forgotten or moved back. */
  predicate MovesForward(a: map<string, nat>, b: map<string, nat>) {
    forall key :: key in a ==> key in b && a[key] <= b[key]
  }

  ghost predicate TrackedContinues(t: Tracked, u: Tracked) {
    EpochContinues(t.epoch, u.epoch) && (u.epoch.ordered ==> MovesForward(t.sub.orderingAcked, u.sub.orderingAcked))
  }

  ghost predicate SubscriptionContinues(w: World, v: World, n: string, sought: bool) {
    && n in w.state.subscriptions && n in v.state.subscriptions && n in w.epochs && n in v.epochs
    && SameIdentity(w.state.subscriptions[n].spec, v.state.subscriptions[n].spec)
    && (!sought ==> TrackedContinues(TrackedOf(w, n), TrackedOf(v, n)))
  }

  ghost predicate SnapshotsContinue(w: World, v: World, op: Op) {
    forall s :: s in w.state.snapshots && op != DeleteSnapshot(s) ==>
      s in v.state.snapshots && v.state.snapshots[s] == w.state.snapshots[s]
  }

  predicate SendsTo(spec: SubscriptionSpec, topic: string) {
    spec.deadLetter.Some? && spec.deadLetter.value.topic == topic
  }

  /** The operation can add to the log of `topic`: it publishes there, or pulls a subscription whose
      dead letters go there. */
  predicate CanAppend(w: World, op: Op, topic: string) {
    || (op.Publish? && op.topic == topic)
    || (op.Pull? && op.name in w.state.subscriptions && SendsTo(w.state.subscriptions[op.name].spec, topic))
  }

  /** The log and the table of a topic, both empty if there is none. */
  function EntriesOf(topics: map<string, Topic>, name: string): (seq<Message>, map<string, string>) {
    if name in topics then (topics[name].messages, topics[name].seenIds) else ([], map[])
  }

  ghost predicate OtherLogsStay(w: World, v: World, op: Op) {
    forall topic :: EntriesOf(v.state.topics, topic) == EntriesOf(w.state.topics, topic) || CanAppend(w, op, topic)
  }

  predicate SetsPolicy(op: Op) {
    op.CreateSubscription? || op.UpdateSubscription?
  }

  /** The dead-letter policy of `n` is the one it had, or the one the operation brings. */
  ghost predicate PolicyKnown(w: World, n: string, spec: SubscriptionSpec, op: Op) {
    || (n in w.state.subscriptions && spec.deadLetter == w.state.subscriptions[n].spec.deadLetter)
    || (SetsPolicy(op) && spec.deadLetter == op.spec.deadLetter)
  }

  ghost predicate PoliciesKnown(w: World, v: World, op: Op) {
    forall n :: n in v.state.subscriptions ==> PolicyKnown(w, n, v.state.subscriptions[n].spec, op)
  }

  ghost predicate Continues(w: World, v: World, op: Op) {
    && TopicsContinue(w.state.topics, v.state.topics)
    && OtherLogsStay(w, v, op)
    && PoliciesKnown(w, v, op)
    && SnapshotsContinue(w, v, op)
    && (forall n :: n in w.state.subscriptions && op != DeleteSubscription(n) ==>
          SubscriptionContinues(w, v, n, Seeks(op, n)))
  }

  // ----- Each operation -----

  /** Every subscription has its epoch. */
  ghost predicate Paired(w: World) {
    w.epochs.Keys == w.state.subscriptions.Keys
  }

  lemma PutPolicies(w: World, v: World, name: string, t: Tracked, op: Op)
    requires v.state.subscriptions == w.state.subscriptions[name := t.sub]
    requires PolicyKnown(w, name, t.sub.spec, op)
    ensures PoliciesKnown(w, v, op)
  {
  }

  lemma PutSubscription(w: World, v: World, name: string, t: Tracked, n: string, sought: bool)
    requires Paired(w) && n in w.state.subscriptions
    requires v.state.subscriptions == w.state.subscriptions[name := t.sub] && v.epochs == w.epochs[name := t.epoch]
    requires n == name ==>
               && SameIdentity(w.state.subscriptions[n].spec, t.sub.spec)
               && (sought || TrackedContinues(TrackedOf(w, n), t))
    ensures SubscriptionContinues(w, v, n, sought)
  {
  }

  /** A step that puts one subscription, new or changed. */
  lemma PutContinues(w: World, v: World, name: string, t: Tracked, op: Op)
    requires Paired(w) && TopicsContinue(w.state.topics, v.state.topics) && OtherLogsStay(w, v, op)
    requires PoliciesKnown(w, v, op) && v.state.snapshots == w.state.snapshots
    requires v.state.subscriptions == w.state.subscriptions[name := t.sub] && v.epochs == w.epochs[name := t.epoch]
    requires name in w.state.subscriptions ==>
               && SameIdentity(w.state.subscriptions[name].spec, t.sub.spec)
               && (Seeks(op, name) || TrackedContinues(TrackedOf(w, name), t))
    ensures Continues(w, v, op)
  {
    forall n | n in w.state.subscriptions ensures SubscriptionContinues(w, v, n, Seeks(op, n)) {
      PutSubscription(w, v, name, t, n, Seeks(op, n));
    }
  }

  lemma SubscriptionStays(w: World, v: World, n: string, sought: bool)
    requires Paired(w) && v.state.subscriptions == w.state.subscriptions && v.epochs == w.epochs
    requires n in w.state.subscriptions
    ensures SubscriptionContinues(w, v, n, sought)
  {
  }

  lemma PoliciesStay(w: World, v: World, op: Op)
    requires v.state.subscriptions == w.state.subscriptions
    ensures PoliciesKnown(w, v, op)
  {
  }

  /** A step that touches no subscription. */
  lemma TablesContinue(w: World, v: World, op: Op)
    requires Paired(w) && TopicsContinue(w.state.topics, v.state.topics) && SnapshotsContinue(w, v, op)
    requires OtherLogsStay(w, v, op)
    requires v.state.subscriptions == w.state.subscriptions && v.epochs == w.epochs
    ensures Continues(w, v, op)
  {
    PoliciesStay(w, v, op);
    forall n | n in w.state.subscriptions ensures SubscriptionContinues(w, v, n, Seeks(op, n)) {
      SubscriptionStays(w, v, n, Seeks(op, n));
    }
  }

  lemma TopicsStay(topics: map<string, Topic>)
    ensures TopicsContinue(topics, topics)
  {
  }

  lemma NothingHappens(w: World, op: Op)
    requires Paired(w)
    ensures Continues(w, w, op)
  {
    TopicsStay(w.state.topics);
    TablesContinue(w, w, op);
  }

  lemma CreateTopicContinues(w: World, name: string, schemaName: string, op: Op)
    requires Paired(w)
    ensures Continues(w, DoCreateTopic(w, name, schemaName).0, op)
  {
    var v := DoCreateTopic(w, name, schemaName).0;
    if v == w {
      NothingHappens(w, op);
    } else {
      TablesContinue(w, v, op);
    }
  }

  lemma CreateSubscriptionContinues(w: World, spec: SubscriptionSpec, op: Op)
    requires Paired(w) && op == CreateSubscription(spec)
    ensures Continues(w, DoCreateSubscription(w, spec).0, op)
  {
    var v := DoCreateSubscription(w, spec).0;
    if v == w {
      NothingHappens(w, op);
    } else {
      var t := BeginEpoch(Normalized(spec), |w.state.topics[spec.topic].messages|);
      PutPolicies(w, v, spec.name, t, op);
      PutContinues(w, v, spec.name, t, op);
    }
  }

  lemma UpdateSubscriptionContinues(w: World, spec: SubscriptionSpec, mask: seq<string>, op: Op)
    requires Paired(w) && op == UpdateSubscription(spec, mask)
    ensures Continues(w, DoUpdateSubscription(w, spec, mask).0, op)
  {
    var v := DoUpdateSubscription(w, spec, mask).0;
    if v == w {
      NothingHappens(w, op);
    } else {
      var t := TrackedOf(w, spec.name);
      PutPolicies(w, v, spec.name, Reconfigure(t, Normalized(Updated(t.sub.spec, spec, mask))), op);
      PutContinues(w, v, spec.name, Reconfigure(t, Normalized(Updated(t.sub.spec, spec, mask))), op);
    }
  }

  lemma DeleteSubscriptionContinues(w: World, name: string)
    requires Paired(w)
    ensures Continues(w, DoDeleteSubscription(w, name).0, DeleteSubscription(name))
  {
  }

  lemma PublishContinues(env: Env, w: World, topic: string, batch: seq<NewMessage>, op: Op)
    requires Paired(w) && TopicsSound(w.state.topics, w.state.minted, w.clock) && op == Op.Publish(topic, batch)
    ensures Continues(w, DoPublish(env, w, topic, batch).0, op)
  {
    var v := DoPublish(env, w, topic, batch).0;
    if v == w {
      NothingHappens(w, op);
    } else {
      AppendAllSound(env, topic, Append(w.state.topics[topic], w.state.minted, []), batch, w.clock);
      TablesContinue(w, v, op);
    }
  }

  lemma ExamineContinues(w: Work, i: nat, now: Time)
    requires i < |LogIn(w)|
    ensures TopicsContinue(w.topics, Examine(w, i, now).topics)
    ensures Examine(w, i, now).t.sub.orderingAcked == w.t.sub.orderingAcked
  {
  }

  lemma TurnContinues(w: Work, now: Time, topicLen: nat)
    requires InBounds(w, topicLen) && Turn(w, now, topicLen).Some?
    ensures TopicsContinue(w.topics, Turn(w, now, topicLen).value.topics)
    ensures Turn(w, now, topicLen).value.t.sub.orderingAcked == w.t.sub.orderingAcked
  {
    var (i, s) := Pick(w.t.sub, now, topicLen, w.skipped).value;
    PickInBounds(w, now, topicLen);
    ExamineContinues(w.(t := w.t.(sub := s)), i, now);
  }

  lemma {:induction false} LoopContinues(w: Work, now: Time, limit: nat, topicLen: nat)
    requires InBounds(w, topicLen)
    ensures TopicsContinue(w.topics, PullLoop(w, now, limit, topicLen).topics)
    ensures PullLoop(w, now, limit, topicLen).t.sub.orderingAcked == w.t.sub.orderingAcked
    decreases Measure(w, now, topicLen)
  {
    if |w.deliveries| < limit && Turn(w, now, topicLen).Some? {
      TurnLessens(w, now, topicLen);
      TurnInBounds(w, now, topicLen);
      TurnContinues(w, now, topicLen);
      LoopContinues(Turn(w, now, topicLen).value, now, limit, topicLen);
    }
  }

  lemma {:induction false} ReclaimKeepsAcks(t: Tracked, ids: seq<string>, now: Time)
    ensures Reclaim(t, ids, now).sub.orderingAcked == t.sub.orderingAcked
    decreases |ids|
  {
    if ids != [] {
      ReclaimKeepsAcks(if ids[0] in t.sub.inflight then ReclaimOne(t, ids[0], now) else t, ids[1..], now);
    }
  }

  lemma PullWorkContinues(w: World, name: string, max: u32, order: seq<string>)
    requires Valid(w) && name in w.state.subscriptions
    ensures var v := PullWork(w, name, max, order);
            && TopicsContinue(w.state.topics, v.topics)
            && TrackedContinues(TrackedOf(w, name), v.t)
            && v.t.sub.spec == w.state.subscriptions[name].spec
            && (forall topic ::
                  EntriesOf(v.topics, topic) == EntriesOf(w.state.topics, topic) || SendsTo(v.t.sub.spec, topic))
  {
    var t := TrackedOf(w, name);
    var visit := VisitOrder(order, Expired(t.sub.inflight, w.clock));
    var work := StartWork(w.state, Reclaim(t, visit, w.clock));
    ReclaimExpiredSound(w, name, visit);
    ReclaimKeepsAcks(t, visit, w.clock);
    WorkInBounds(work, |LogIn(work)|);
    PullLoopSound(work, w.clock, PullLimit(max), |LogIn(work)|);
    LoopContinues(work, w.clock, PullLimit(max), |LogIn(work)|);
    PullReply(w, name, max, order);
    assert BurialsRight(work, PullWork(w, name, max, order), w.clock);
  }

  lemma PullContinues(w: World, name: string, max: u32, order: seq<string>, op: Op)
    requires Valid(w) && op == Pull(name, max, order)
    ensures Continues(w, DoPull(w, name, max, order).0, op)
  {
    var v := DoPull(w, name, max, order).0;
    if v == w {
      NothingHappens(w, op);
    } else {
      PullWorkContinues(w, name, max, order);
      PutPolicies(w, v, name, PullWork(w, name, max, order).t, op);
      PutContinues(w, v, name, PullWork(w, name, max, order).t, op);
    }
  }

  lemma {:induction false} AckAllExtends(t: Tracked, ids: seq<string>, now: Time, log: seq<Message>)
    ensures EpochContinues(t.epoch, AckAll(t, ids, now, log).0.epoch)
    ensures AckAll(t, ids, now, log).0.sub.spec == t.sub.spec
    decreases |ids|
  {
    if ids == [] {
    } else if ids[0] !in t.sub.inflight {
      AckAllExtends(t, ids[1..], now, log);
    } else if !IsLate(t.sub, ids[0], now) {
      AckAllExtends(AckOne(t, ids[0], now, log), ids[1..], now, log);
    }
  }

  lemma {:induction false} ModifyAllExtends(t: Tracked, ids: seq<string>, now: Time, seconds: nat)
    ensures EpochContinues(t.epoch, ModifyAll(t, ids, now, seconds).epoch)
    ensures ModifyAll(t, ids, now, seconds).sub.spec == t.sub.spec
    ensures ModifyAll(t, ids, now, seconds).sub.orderingAcked == t.sub.orderingAcked
    decreases |ids|
  {
    if ids != [] {
      ModifyAllExtends(ModifyOne(t, ids[0], now, seconds), ids[1..], now, seconds);
    }
  }

  lemma AckAllForward(t: Tracked, ids: seq<string>, now: Time, log: seq<Message>, minted: nat)
    requires Sound(t, log, minted)
    ensures TrackedContinues(t, AckAll(t, ids, now, log).0)
  {
    AckAllExtends(t, ids, now, log);
    if t.epoch.ordered {
      forall key | key in t.sub.orderingAcked
        ensures key in AckAll(t, ids, now, log).0.sub.orderingAcked
        ensures t.sub.orderingAcked[key] <= AckAll(t, ids, now, log).0.sub.orderingAcked[key]
      {
        OrderingAckedForward(t, ids, now, log, minted, key);
      }
    }
  }

  lemma AcknowledgeContinues(w: World, name: string, ids: seq<string>, op: Op)
    requires Valid(w)
    ensures Continues(w, DoAcknowledge(w, name, ids).0, op)
  {
    if name !in w.state.subscriptions {
      NothingHappens(w, op);
    } else {
      var t := TrackedOf(w, name);
      SubscriptionValid(w, name);
      AckAllForward(t, ids, w.clock, LogFor(w, name), w.state.minted);
      AckAllExtends(t, ids, w.clock, LogFor(w, name));
      PutPolicies(w, DoAcknowledge(w, name, ids).0, name, AckAll(t, ids, w.clock, LogFor(w, name)).0, op);
      PutContinues(w, DoAcknowledge(w, name, ids).0, name, AckAll(t, ids, w.clock, LogFor(w, name)).0, op);
    }
  }

  lemma ModifyContinues(w: World, name: string, ids: seq<string>, seconds: u32, op: Op)
    requires Paired(w)
    ensures Continues(w, DoModify(w, name, ids, seconds).0, op)
  {
    if seconds > 600 || name !in w.state.subscriptions {
      NothingHappens(w, op);
    } else {
      var t := TrackedOf(w, name);
      ModifyAllExtends(t, ids, w.clock, seconds);
      PutPolicies(w, DoModify(w, name, ids, seconds).0, name, ModifyAll(t, ids, w.clock, seconds), op);
      PutContinues(w, DoModify(w, name, ids, seconds).0, name, ModifyAll(t, ids, w.clock, seconds), op);
    }
  }

  lemma SeekContinues(w: World, name: string, cursor: nat, op: Op)
    requires Paired(w) && name in w.state.subscriptions && Seeks(op, name)
    ensures Continues(w, PutTracked(w, name, BeginEpoch(w.state.subscriptions[name].spec, cursor)), op)
  {
    var t := BeginEpoch(w.state.subscriptions[name].spec, cursor);
    PutPolicies(w, PutTracked(w, name, t), name, t, op);
    PutContinues(w, PutTracked(w, name, t), name, t, op);
  }

  lemma SeekToTimeContinues(w: World, name: string, time: Time)
    requires Paired(w)
    ensures Continues(w, DoSeekToTime(w, name, time).0, SeekToTime(name, time))
  {
    var v, op := DoSeekToTime(w, name, time).0, SeekToTime(name, time);
    if v == w {
      NothingHappens(w, op);
    } else {
      var topic := w.state.subscriptions[name].spec.topic;
      SeekContinues(w, name, FirstSince(w.state.topics[topic].messages, time, 0), op);
    }
  }

  lemma SeekToSnapshotContinues(w: World, name: string, snapshot: string)
    requires Paired(w)
    ensures Continues(w, DoSeekToSnapshot(w, name, snapshot).0, SeekToSnapshot(name, snapshot))
  {
    var v, op := DoSeekToSnapshot(w, name, snapshot).0, SeekToSnapshot(name, snapshot);
    if v == w {
      NothingHappens(w, op);
    } else {
      SeekContinues(w, name, w.state.snapshots[snapshot].topicIndex, op);
    }
  }

  lemma CreateSnapshotContinues(w: World, snapshot: string, name: string)
    requires Paired(w)
    ensures Continues(w, DoCreateSnapshot(w, snapshot, name).0, CreateSnapshot(snapshot, name))
  {
    var v, op := DoCreateSnapshot(w, snapshot, name).0, CreateSnapshot(snapshot, name);
    if v == w {
      NothingHappens(w, op);
    } else {
      TablesContinue(w, v, op);
    }
  }

  lemma DeleteSnapshotContinues(w: World, snapshot: string)
    requires Paired(w)
    ensures Continues(w, DoDeleteSnapshot(w, snapshot).0, DeleteSnapshot(snapshot))
  {
    var v, op := DoDeleteSnapshot(w, snapshot).0, DeleteSnapshot(snapshot);
    if v == w {
      NothingHappens(w, op);
    } else {
      TablesContinue(w, v, op);
    }
  }

  lemma SchemasContinue(w: World, schemas: set<string>)
    requires Paired(w)
    ensures Continues(w, w.(state := w.state.(schemas := schemas)), ChangeSchemas(schemas))
  {
    TablesContinue(w, w.(state := w.state.(schemas := schemas)), ChangeSchemas(schemas));
  }

  // ----- Every operation, every call, every run -----

  /** The operations on topics, messages and tables. */
  predicate OnTables(op: Op) {
    op.CreateTopic? || op.ChangeSchemas? || op.Publish? || op.CreateSnapshot? || op.DeleteSnapshot?
    || op.DeleteSubscription?
  }

  lemma TablesPerformed(env: Env, w: World, op: Op, v: World, reply: Reply)
    requires Valid(w) && (v, reply) == Perform(env, w, op) && OnTables(op)
    ensures Continues(w, v, op)
  {
    match op {
      case CreateTopic(name, schemaName) => CreateTopicContinues(w, name, schemaName, op);
      case DeleteSubscription(name) => DeleteSubscriptionContinues(w, name);
      case ChangeSchemas(schemas) => SchemasContinue(w, schemas);
      case Publish(topic, batch) => PublishContinues(env, w, topic, batch, op);
      case CreateSnapshot(snapshot, name) => CreateSnapshotContinues(w, snapshot, name);
      case DeleteSnapshot(snapshot) => DeleteSnapshotContinues(w, snapshot);
    }
  }

  lemma SubscriptionPerformed(env: Env, w: World, op: Op, v: World, reply: Reply)
    requires Valid(w) && (v, reply) == Perform(env, w, op) && !OnTables(op)
    ensures Continues(w, v, op)
  {
    match op {
      case CreateSubscription(spec) => CreateSubscriptionContinues(w, spec, op);
      case UpdateSubscription(spec, mask) => UpdateSubscriptionContinues(w, spec, mask, op);
      case Pull(name, max, order) => PullContinues(w, name, max, order, op);
      case Acknowledge(name, ids) => AcknowledgeContinues(w, name, ids, op);
      case ModifyAckDeadline(name, ids, seconds) => ModifyContinues(w, name, ids, seconds, op);
      case SeekToTime(name, time) => SeekToTimeContinues(w, name, time);
      case SeekToSnapshot(name, snapshot) => SeekToSnapshotContinues(w, name, snapshot);
    }
  }

  /** No operation shortens a log, adds to one but that of its topic or of its dead letters, forgets
      a client id, changes a snapshot or the name, topic or filter of a subscription, or ends an
      epoch except by seeking. */
  lemma PerformContinues(env: Env, w: World, op: Op, v: World, reply: Reply)
    requires Valid(w) && (v, reply) == Perform(env, w, op)
    ensures Continues(w, v, op)
  {
    if OnTables(op) {
      TablesPerformed(env, w, op, v, reply);
    } else {
      SubscriptionPerformed(env, w, op, v, reply);
    }
  }

  lemma ContinuesBefore(w: World, elapsed: nat, v: World, op: Op)
    requires Continues(w.(clock := w.clock + elapsed), v, op)
    ensures Continues(w, v, op)
  {
    var later := w.(clock := w.clock + elapsed);
    forall n | n in w.state.subscriptions && op != DeleteSubscription(n)
      ensures SubscriptionContinues(w, v, n, Seeks(op, n))
    {
      assert SubscriptionContinues(later, v, n, Seeks(op, n));
    }
    forall topic
      ensures EntriesOf(v.state.topics, topic) == EntriesOf(w.state.topics, topic) || CanAppend(w, op, topic)
    {
      assert EntriesOf(v.state.topics, topic) == EntriesOf(later.state.topics, topic) || CanAppend(later, op, topic);
    }
  }

  lemma LaterContinues(env: Env, w: World, elapsed: nat, op: Op, v: World, reply: Reply)
    requires Valid(w.(clock := w.clock + elapsed))
    requires (v, reply) == Perform(env, w.(clock := w.clock + elapsed), op)
    ensures Continues(w, v, op)
  {
    PerformContinues(env, w.(clock := w.clock + elapsed), op, v, reply);
    ContinuesBefore(w, elapsed, v, op);
  }

  lemma CallContinues(env: Env, w: World, c: Call, v: World)
    requires Valid(w) && v == Apply(env, w, c).0
    ensures Continues(w, v, c.op)
  {
    TickValid(w, c.elapsed);
    var reply := Apply(env, w, c).1;
    LaterContinues(env, w, c.elapsed, c.op, v, reply);
  }

  /** Over any run no log is shortened and no client id forgotten. */
  lemma {:induction false} TopicsAlong(env: Env, w: World, calls: seq<Call>)
    requires Valid(w)
    ensures TopicsContinue(w.state.topics, RunFrom(env, w, calls).state.topics)
    decreases |calls|
  {
    if calls != [] {
      var before := RunFrom(env, w, calls[..|calls| - 1]);
      var v := Apply(env, before, calls[|calls| - 1]).0;
      TopicsAlong(env, w, calls[..|calls| - 1]);
      CallContinues(env, before, calls[|calls| - 1], v);
      TopicsContinueOn(w.state.topics, before.state.topics, v.state.topics);
    }
  }

  lemma TopicsContinueOn(a: map<string, Topic>, b: map<string, Topic>, c: map<string, Topic>)
    requires TopicsContinue(a, b) && TopicsContinue(b, c)
    ensures TopicsContinue(a, c)
  {
  }

  /** The calls neither delete nor seek subscription `n`. */
  predicate LeavesEpoch(calls: seq<Call>, n: string) {
    forall k :: 0 <= k < |calls| ==> calls[k].op != DeleteSubscription(n) && !Seeks(calls[k].op, n)
  }

  lemma SubscriptionContinuesOn(a: World, b: World, c: World, n: string)
    requires SubscriptionContinues(a, b, n, false) && SubscriptionContinues(b, c, n, false)
    ensures SubscriptionContinues(a, c, n, false)
  {
  }

  /** Over any run without a seek of it a subscription's epoch goes on, and with ordering on all
      the time the last acknowledged index of each key only moves forward. */
  lemma {:induction false} EpochAlong(env: Env, w: World, calls: seq<Call>, n: string)
    requires Valid(w) && n in w.state.subscriptions && LeavesEpoch(calls, n)
    ensures SubscriptionContinues(w, RunFrom(env, w, calls), n, false)
    decreases |calls|
  {
    if calls != [] {
      var before := RunFrom(env, w, calls[..|calls| - 1]);
      var v := Apply(env, before, calls[|calls| - 1]).0;
      EpochAlong(env, w, calls[..|calls| - 1], n);
      CallContinues(env, before, calls[|calls| - 1], v);
      SubscriptionContinuesOn(w, before, v, n);
    }
  }

  predicate LeavesSnapshot(calls: seq<Call>, s: string) {
    forall k :: 0 <= k < |calls| ==> calls[k].op != DeleteSnapshot(s)
  }

  /** A snapshot stays as it is until it is deleted. */
  lemma {:induction false} SnapshotAlong(env: Env, w: World, calls: seq<Call>, s: string)
    requires Valid(w) && s in w.state.snapshots && LeavesSnapshot(calls, s)
    ensures var v := RunFrom(env, w, calls);
            s in v.state.snapshots && v.state.snapshots[s] == w.state.snapshots[s]
    decreases |calls|
  {
    if calls != [] {
      var before := RunFrom(env, w, calls[..|calls| - 1]);
      var v := Apply(env, before, calls[|calls| - 1]).0;
      SnapshotAlong(env, w, calls[..|calls| - 1], s);
      CallContinues(env, before, calls[|calls| - 1], v);
    }
  }

  lemma SeenLater(a: map<string, string>, b: map<string, string>, batch: seq<NewMessage>)
    requires AllSeen(a, batch) && a.Keys <= b.Keys
    ensures AllSeen(b, batch)
  {
  }

  lemma PublishNames(env: Env, w: World, topic: string, batch: seq<NewMessage>, v: World, ids: seq<string>)
    requires TopicsSound(w.state.topics, w.state.minted, w.clock) && AllFromClients(batch)
    requires (v, Published(ids)) == DoPublish(env, w, topic, batch)
    ensures topic in v.state.topics && AllSeen(v.state.topics[topic].seenIds, batch) && ids == ClientIds(batch)
  {
    FirstReply(env, topic, Append(w.state.topics[topic], w.state.minted, []), batch, w.clock);
  }

  lemma PublishSeen(env: Env, x: World, topic: string, batch: seq<NewMessage>)
    requires TopicsSound(x.state.topics, x.state.minted, x.clock) && AllFromClients(batch)
    requires topic in x.state.topics && AllSeen(x.state.topics[topic].seenIds, batch)
    ensures DoPublish(env, x, topic, batch).0 == x
    ensures DoPublish(env, x, topic, batch).1.Published? ==>
              DoPublish(env, x, topic, batch).1 == Published(ClientIds(batch))
  {
    var later := Append(x.state.topics[topic], x.state.minted, []);
    assert TopicSound(later.topic, later.minted, x.clock);
    SeenAppendsNothing(env, topic, later, batch, x.clock);
    assert [] + ClientIds(batch) == ClientIds(batch);
    assert x.state.topics[topic := later.topic] == x.state.topics;
  }

  /** Publishing an all-client-id batch again, after any calls: it is refused for its schema, or
      it changes nothing and returns the same ids. */
  lemma RepublishOverRun(env: Env, w: World, topic: string, batch: seq<NewMessage>, v: World,
                         ids: seq<string>, calls: seq<Call>, x: World)
    requires Valid(w) && Valid(v) && AllFromClients(batch)
    requires (v, Published(ids)) == DoPublish(env, w, topic, batch) && x == RunFrom(env, v, calls)
    ensures DoPublish(env, x, topic, batch).0 == x
    ensures DoPublish(env, x, topic, batch).1.Published? ==> DoPublish(env, x, topic, batch).1 == Published(ids)
  {
    TopicsAlong(env, v, calls);
    PublishNames(env, w, topic, batch, v, ids);
    SeenLater(v.state.topics[topic].seenIds, x.state.topics[topic].seenIds, batch);
    PublishSeen(env, x, topic, batch);
  }

  /** A publish adds to its log exactly the new messages of the batch, in order: each with the payload,
      ordering key and attributes published, at the time of the publish. */
  lemma PublishStores(env: Env, w: World, topic: string, batch: seq<NewMessage>, v: World, ids: seq<string>)
    requires TopicsSound(w.state.topics, w.state.minted, w.clock)
    requires (v, Published(ids)) == DoPublish(env, w, topic, batch)
    ensures topic in w.state.topics && topic in v.state.topics
    ensures v.state == w.state.(topics := w.state.topics[topic := v.state.topics[topic]], minted := v.state.minted)
    ensures v == w.(state := v.state)
    ensures var a := Append(w.state.topics[topic], w.state.minted, []);
            LogGrew(env, topic, a, Append(v.state.topics[topic], v.state.minted, ids), batch,
                    NewOnes(a.topic.seenIds, batch, |batch|), w.clock)
  {
    PublishDeduplicates(env, topic, Append(w.state.topics[topic], w.state.minted, []), batch, |batch|, w.clock);
    assert batch[..|batch|] == batch;
  }

  /** The deliveries of index `i` in the reply of this pull carry the message published as `m` at `at`. */
  ghost predicate DeliveredAs(env: Env, topic: string, v: Work, i: nat, m: NewMessage, at: Time) {
    forall d :: 0 <= d < |v.handed| && d < |v.deliveries| && v.handed[d] == i ==>
      StoredAs(env, topic, m, v.deliveries[d].message, at)
  }

  /** Every delivery of index `i` carries the message there. */
  ghost predicate Carries(v: Work, log: seq<Message>, i: nat) {
    i < |log| && forall d :: 0 <= d < |v.handed| && d < |v.deliveries| && v.handed[d] == i ==>
      v.deliveries[d].message == log[i]
  }

  lemma DeliveriesCarry(before: Work, v: Work, now: Time, log: seq<Message>, i: nat)
    requires DeliveriesRight(before, v, now) && log <= LogIn(v) && i < |log|
    ensures Carries(v, log, i)
  {
    forall d | 0 <= d < |v.handed| && d < |v.deliveries| && v.handed[d] == i
      ensures v.deliveries[d].message == log[i]
    {
      assert Delivers(v, v.deliveries[d], v.handed[d], now);
    }
  }

  lemma PulledFromLog(w: World, n: string, max: u32, order: seq<string>, i: nat)
    requires Valid(w) && n in w.state.subscriptions && i < |LogFor(w, n)|
    ensures Carries(PullWork(w, n, max, order), LogFor(w, n), i)
  {
    PullReply(w, n, max, order);
    PullWorkContinues(w, n, max, order);
    var t := TrackedOf(w, n);
    var reclaimed := Reclaim(t, VisitOrder(order, Expired(t.sub.inflight, w.clock)), w.clock);
    DeliveriesCarry(StartWork(w.state, reclaimed), PullWork(w, n, max, order), w.clock, LogFor(w, n), i);
  }

  /** Index `i` of the log holds message `m`, published at `at`. */
  ghost predicate HoldsAt(env: Env, topic: string, log: seq<Message>, i: nat, m: NewMessage, at: Time) {
    i < |log| && StoredAs(env, topic, m, log[i], at)
  }

  lemma PublishStoresAt(env: Env, w: World, topic: string, batch: seq<NewMessage>, v: World, ids: seq<string>, q: nat)
    requires TopicsSound(w.state.topics, w.state.minted, w.clock) && topic in w.state.topics && topic in v.state.topics
    requires (v, Published(ids)) == DoPublish(env, w, topic, batch)
    requires q < |NewOnes(w.state.topics[topic].seenIds, batch, |batch|)|
    ensures var was := w.state.topics[topic];
            var k := NewOnes(was.seenIds, batch, |batch|)[q];
            k < |batch|
            && HoldsAt(env, topic, v.state.topics[topic].messages, |was.messages| + q, batch[k], w.clock)
  {
    PublishStores(env, w, topic, batch, v, ids);
  }

  lemma HeldIsDelivered(env: Env, topic: string, log: seq<Message>, i: nat, m: NewMessage, at: Time,
                        more: seq<Message>, v: Work)
    requires HoldsAt(env, topic, log, i, m, at) && log <= more && Carries(v, more, i)
    ensures DeliveredAs(env, topic, v, i, m, at)
  {
  }

  /** What is delivered is what was published: after any calls since the publish, and whatever the
      subscription, a delivery of the index that a message was stored at carries that message. */
  lemma DeliveredAsPublished(env: Env, w: World, topic: string, batch: seq<NewMessage>, v: World, ids: seq<string>,
                             calls: seq<Call>, x: World, q: nat, n: string, max: u32, order: seq<string>)
    requires Valid(w) && Valid(v) && Valid(x) && topic in w.state.topics && topic in v.state.topics
    requires (v, Published(ids)) == DoPublish(env, w, topic, batch) && x == RunFrom(env, v, calls)
    requires q < |NewOnes(w.state.topics[topic].seenIds, batch, |batch|)|
    requires n in x.state.subscriptions && x.state.subscriptions[n].spec.topic == topic
    ensures var was := w.state.topics[topic];
            var k := NewOnes(was.seenIds, batch, |batch|)[q];
            && k < |batch|
            && DeliveredAs(env, topic, PullWork(x, n, max, order), |was.messages| + q, batch[k], w.clock)
  {
    var k, i := NewOnes(w.state.topics[topic].seenIds, batch, |batch|)[q], |w.state.topics[topic].messages| + q;
    PublishStoresAt(env, w, topic, batch, v, ids, q);
    TopicsAlong(env, v, calls);
    PulledFromLog(x, n, max, order, i);
    HeldIsDelivered(env, topic, v.state.topics[topic].messages, i, batch[k], w.clock, LogFor(x, n),
                    PullWork(x, n, max, order));
  }
}
