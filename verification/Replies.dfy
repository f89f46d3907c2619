/** When each operation is refused and with which error, and what each table operation does when it
    is not: told from the state before, in one place, against which the operations are proved. */
module Replies {
  import opened Basics
  import opened Model
  import opened Tracking
  import opened Consumer
  import opened Publishing
  import opened Broker
  import opened Guarantees
  import opened Outcomes
  import opened FilterGrammar

  /** The text has `part` at some position. */
  ghost predicate Has(s: string, part: string) {
    exists p :: 0 <= p <= |s| && part <= s[p..]
  }

  lemma {:induction false} ContainsIsHas(s: string, part: string)
    ensures Contains(s, part) <==> Has(s, part)
  {
    if s == "" {
      assert s[0..] == s;
      assert part <= s ==> part <= s[0..];
    } else {
      ContainsIsHas(s[1..], part);
      assert s[0..] == s;
      if Has(s[1..], part) {
        var p :| 0 <= p <= |s[1..]| && part <= s[1..][p..];
        assert s[1..][p..] == s[p + 1..];
      }
      if Has(s, part) {
        var p :| 0 <= p <= |s| && part <= s[p..];
        assert p > 0 ==> s[1..][p - 1..] == s[p..];
      }
    }
  }

  ghost predicate WellNamed(name: string, kind: string) {
    "projects/" <= name && Has(name, kind)
  }

  ghost predicate SomeLate(sub: Subscription, ids: seq<string>, now: Time) {
    exists k :: k in ids && Late(sub, k, now)
  }

  /** The error with which a valid broker refuses an operation; `None` if it accepts. The first that
      applies counts. */
  ghost function Refusal(env: Env, w: World, op: Op): Option<Error> {
    var s := w.state;
    match op
    case CreateTopic(name, _) =>
      if !WellNamed(name, "/topics/") then Some(InvalidArgument)
      else if name in s.topics then Some(AlreadyExists)
      else None
    case CreateSubscription(spec) =>
      if !WellNamed(spec.name, "/subscriptions/") then Some(InvalidArgument)
      else if spec.name in s.subscriptions then Some(AlreadyExists)
      else if !Readable(spec.filter) then Some(InvalidArgument)
      else if spec.topic !in s.topics then Some(NotFound)
      else None
    case UpdateSubscription(spec, mask) =>
      if spec.name !in s.subscriptions then Some(NotFound)
      else if "filter" in mask && spec.filter !in {"", s.subscriptions[spec.name].spec.filter}
      then Some(FailedPrecondition)
      else None
    case DeleteSubscription(name) => if name in s.subscriptions then None else Some(NotFound)
    case ChangeSchemas(_) => None
    case Publish(topic, batch) =>
      if topic !in s.topics then Some(NotFound)
      else if s.topics[topic].schemaName == "" then None
      else if s.topics[topic].schemaName !in s.schemas then Some(FailedPrecondition)
      else if exists m :: m in batch && !env.valid(s.topics[topic].schemaName, m.data) then Some(InvalidArgument)
      else None
    case Pull(name, _, _) => if name in s.subscriptions then None else Some(NotFound)
    case Acknowledge(name, ids) =>
      if name !in s.subscriptions then Some(NotFound)
      else if SomeLate(s.subscriptions[name], ids, w.clock) then Some(FailedPrecondition)
      else None
    case ModifyAckDeadline(name, _, seconds) =>
      if seconds > 600 then Some(InvalidArgument)
      else if name !in s.subscriptions then Some(NotFound)
      else None
    case SeekToTime(name, _) => if name in s.subscriptions then None else Some(NotFound)
    case SeekToSnapshot(name, snapshot) =>
      if snapshot !in s.snapshots || name !in s.subscriptions then Some(NotFound)
      else if s.snapshots[snapshot].topic != s.subscriptions[name].spec.topic then Some(FailedPrecondition)
      else None
    case CreateSnapshot(snapshot, name) =>
      if !WellNamed(snapshot, "/snapshots/") then Some(InvalidArgument)
      else if snapshot in s.snapshots then Some(AlreadyExists)
      else if name !in s.subscriptions then Some(NotFound)
      else None
    case DeleteSnapshot(snapshot) => if snapshot in s.snapshots then None else Some(NotFound)
  }

  /** The operation is refused exactly as said, and then nothing changes, except that an acknowledge
      call keeps what it did before the late id. */
  ghost predicate Answered(env: Env, w: World, op: Op, v: World, reply: Reply) {
    var refusal := Refusal(env, w, op);
    && (reply.Failed? <==> refusal.Some?)
    && (refusal.Some? ==> reply == Failed(refusal.value))
    && (reply == Failed(NotFound) || (reply.Failed? && !op.Acknowledge?) ==> v == w)
  }

  lemma {:induction false} SomeFirstLate(sub: Subscription, ids: seq<string>, now: Time, p: nat) returns (f: nat)
    requires p <= |ids| && forall q :: 0 <= q < p ==> !Late(sub, ids[q], now)
    ensures FirstLate(sub, ids, now, f)
    decreases |ids| - p
  {
    if p == |ids| || Late(sub, ids[p], now) {
      f := p;
    } else {
      f := SomeFirstLate(sub, ids, now, p + 1);
    }
  }

  lemma FirstLateTells(sub: Subscription, ids: seq<string>, now: Time, f: nat)
    requires FirstLate(sub, ids, now, f)
    ensures f < |ids| <==> SomeLate(sub, ids, now)
  {
    if f < |ids| {
      assert ids[f] in ids;
    }
  }

  lemma AckAllReply(t: Tracked, ids: seq<string>, now: Time, log: seq<Message>)
    ensures AckAll(t, ids, now, log).1 <==> !SomeLate(t.sub, ids, now)
  {
    var f := SomeFirstLate(t.sub, ids, now, 0);
    FirstLateTells(t.sub, ids, now, f);
    AckAllOutcome(t, ids, now, log, f);
  }

  lemma AcknowledgeAnswered(env: Env, w: World, name: string, ids: seq<string>)
    requires Valid(w)
    ensures Answered(env, w, Acknowledge(name, ids), DoAcknowledge(w, name, ids).0, DoAcknowledge(w, name, ids).1)
  {
    if name in w.state.subscriptions {
      AckAllReply(TrackedOf(w, name), ids, w.clock, LogFor(w, name));
    }
  }

  lemma PublishRefusal(env: Env, w: World, topic: string, batch: seq<NewMessage>)
    ensures PublishError(env, w.state, topic, batch) == Refusal(env, w, Op.Publish(topic, batch))
  {
    if topic in w.state.topics {
      var schema := w.state.topics[topic].schemaName;
      if m :| m in batch && !env.valid(schema, m.data) {
        var k :| 0 <= k < |batch| && batch[k] == m;
        assert !env.valid(schema, batch[k].data);
      }
      if k :| 0 <= k < |batch| && !env.valid(schema, batch[k].data) {
        assert batch[k] in batch;
      }
    }
  }

  lemma CreationAnswered(env: Env, w: World, op: Op, v: World, reply: Reply)
    requires Valid(w) && v == Perform(env, w, op).0 && reply == Perform(env, w, op).1
    requires op.CreateTopic? || op.CreateSubscription? || op.CreateSnapshot?
    ensures Answered(env, w, op, v, reply)
  {
    match op {
      case CreateTopic(name, _) => ContainsIsHas(name, "/topics/");
      case CreateSubscription(spec) => ContainsIsHas(spec.name, "/subscriptions/"); AcceptedExactly(spec.filter);
      case CreateSnapshot(snapshot, _) => ContainsIsHas(snapshot, "/snapshots/");
    }
  }

  lemma UseAnswered(env: Env, w: World, op: Op, v: World, reply: Reply)
    requires Valid(w) && v == Perform(env, w, op).0 && reply == Perform(env, w, op).1
    requires op.Pull? || op.SeekToTime?
    ensures Answered(env, w, op, v, reply)
  {
    if op.name in w.state.subscriptions {
      SubscriptionValid(w, op.name);
    }
  }

  lemma ChangeAnswered(env: Env, w: World, op: Op, v: World, reply: Reply)
    requires Valid(w) && v == Perform(env, w, op).0 && reply == Perform(env, w, op).1
    requires op.SeekToSnapshot? || op.ModifyAckDeadline? || op.UpdateSubscription?
    ensures Answered(env, w, op, v, reply)
  {
  }

  /** Every operation is refused in exactly the cases listed, with the error listed. */
  lemma RefusedExactly(env: Env, w: World, op: Op, v: World, reply: Reply)
    requires Valid(w) && v == Perform(env, w, op).0 && reply == Perform(env, w, op).1
    ensures Answered(env, w, op, v, reply)
  {
    match op {
      case Publish(topic, batch) => PublishRefusal(env, w, topic, batch);
      case Acknowledge(name, ids) => AcknowledgeAnswered(env, w, name, ids);
      case Pull(_, _, _) => UseAnswered(env, w, op, v, reply);
      case SeekToTime(_, _) => UseAnswered(env, w, op, v, reply);
      case SeekToSnapshot(_, _) => ChangeAnswered(env, w, op, v, reply);
      case ModifyAckDeadline(_, _, _) => ChangeAnswered(env, w, op, v, reply);
      case UpdateSubscription(_, _) => ChangeAnswered(env, w, op, v, reply);
      case CreateTopic(_, _) => CreationAnswered(env, w, op, v, reply);
      case CreateSubscription(_) => CreationAnswered(env, w, op, v, reply);
      case CreateSnapshot(_, _) => CreationAnswered(env, w, op, v, reply);
      case _ =>
    }
  }

  // ----- What the operations on tables do -----

  /** Subscription `name` has been put in place of what was there, with nothing examined from `cursor`
      on, and nothing else has changed. */
  ghost predicate StartsAt(w: World, v: World, name: string, spec: SubscriptionSpec, cursor: nat) {
    && name in v.state.subscriptions && name in v.epochs
    && v.state == w.state.(subscriptions := w.state.subscriptions[name := v.state.subscriptions[name]])
    && v == w.(state := v.state, epochs := w.epochs[name := v.epochs[name]])
    && v.state.subscriptions[name] == Subscription(spec, cursor, {}, map[], [], map[], map[])
    && v.epochs[name] == Epoch(cursor, [], spec.ordering, spec.exactlyOnce, spec.exactlyOnce)
  }

  /** The specification with an acknowledgement deadline between 10 and 600 seconds. */
  function Bounded(spec: SubscriptionSpec): SubscriptionSpec {
    spec.(ackDeadlineSeconds := Min(Max(spec.ackDeadlineSeconds, 10), 600))
  }

  /** The flags of the record after a change: on for the whole epoch, or at some time. */
  ghost predicate Reflagged(e: Epoch, f: Epoch, spec: SubscriptionSpec) {
    && f.start == e.start && f.trace == e.trace
    && (f.ordered <==> e.ordered && spec.ordering)
    && (f.fenced <==> e.fenced && spec.exactlyOnce)
    && (f.everFenced <==> e.everFenced || spec.exactlyOnce)
  }

  /** All but the snapshots is as it was, and they differ at most at `s`. */
  ghost predicate OnlySnapshot(w: World, v: World, s: string) {
    && v == w.(state := w.state.(snapshots := v.state.snapshots))
    && forall r :: r != s ==>
         (r in v.state.snapshots <==> r in w.state.snapshots)
         && (r in w.state.snapshots ==> v.state.snapshots[r] == w.state.snapshots[r])
  }

  /** What an accepted operation on topics, subscriptions, schemas or snapshots does. */
  ghost predicate Effect(w: World, op: Op, v: World)
    requires Valid(w)
  {
    match op
    case CreateTopic(name, schemaName) =>
      v == w.(state := w.state.(topics := w.state.topics[name := Topic(schemaName, [], map[])]))
    case CreateSubscription(spec) =>
      spec.topic in w.state.topics
      && StartsAt(w, v, spec.name, Bounded(spec), |w.state.topics[spec.topic].messages|)
    case UpdateSubscription(spec, mask) =>
      && OnlySubscription(w, v, spec.name)
      && var s, r := w.state.subscriptions[spec.name], v.state.subscriptions[spec.name];
      && r == s.(spec := Bounded(Updated(s.spec, spec, mask)))
      && Reflagged(w.epochs[spec.name], v.epochs[spec.name], r.spec)
    case DeleteSubscription(name) =>
      && v.state == w.state.(subscriptions := v.state.subscriptions) && v == w.(state := v.state, epochs := v.epochs)
      && name !in v.state.subscriptions && name !in v.epochs
      && (forall n :: n != name ==> (n in v.state.subscriptions <==> n in w.state.subscriptions))
      && (forall n :: n in v.state.subscriptions ==> n in v.epochs && TrackedOf(v, n) == TrackedOf(w, n))
    case ChangeSchemas(schemas) => v == w.(state := w.state.(schemas := schemas))
    case SeekToTime(name, time) =>
      && name in w.state.subscriptions
      && exists cursor: nat ::
           && StartsAt(w, v, name, w.state.subscriptions[name].spec, cursor) && cursor <= |LogFor(w, name)|
           && (forall i :: 0 <= i < cursor ==> LogFor(w, name)[i].publishedAt < time)
           && (cursor < |LogFor(w, name)| ==> LogFor(w, name)[cursor].publishedAt >= time)
    case SeekToSnapshot(name, snapshot) =>
      && snapshot in w.state.snapshots && name in w.state.subscriptions
      && StartsAt(w, v, name, w.state.subscriptions[name].spec, w.state.snapshots[snapshot].topicIndex)
    case CreateSnapshot(snapshot, name) =>
      && OnlySnapshot(w, v, snapshot) && snapshot in v.state.snapshots && name in w.state.subscriptions
      && v.state.snapshots[snapshot].topic == w.state.subscriptions[name].spec.topic
      && v.state.snapshots[snapshot].topicIndex == w.state.subscriptions[name].nextIndex
    case DeleteSnapshot(snapshot) => OnlySnapshot(w, v, snapshot) && snapshot !in v.state.snapshots
    case _ => true
  }

  lemma SeekToTimeEffect(w: World, name: string, time: Time, v: World)
    requires Valid(w) && v == DoSeekToTime(w, name, time).0 && DoSeekToTime(w, name, time).1 == Accepted
    ensures Effect(w, SeekToTime(name, time), v)
  {
    var cursor := FirstSince(LogFor(w, name), time, 0);
    assert StartsAt(w, v, name, w.state.subscriptions[name].spec, cursor);
  }

  lemma UpdateEffect(w: World, spec: SubscriptionSpec, mask: seq<string>, v: World)
    requires Valid(w) && v == DoUpdateSubscription(w, spec, mask).0
    requires DoUpdateSubscription(w, spec, mask).1 == Accepted
    ensures Effect(w, UpdateSubscription(spec, mask), v)
  {
  }

  lemma DeleteEffect(w: World, name: string, v: World)
    requires Valid(w) && v == DoDeleteSubscription(w, name).0 && DoDeleteSubscription(w, name).1 == Accepted
    ensures Effect(w, DeleteSubscription(name), v)
  {
    forall n | n in v.state.subscriptions ensures n in v.epochs && TrackedOf(v, n) == TrackedOf(w, n) {
      assert n in w.epochs;
    }
  }

  lemma SnapshotEffect(w: World, op: Op, env: Env, v: World)
    requires Valid(w) && v == Perform(env, w, op).0 && Perform(env, w, op).1 == Accepted
    requires op.SeekToSnapshot? || op.CreateSnapshot? || op.DeleteSnapshot?
    ensures Effect(w, op, v)
  {
  }

  /** Every accepted operation on topics, subscriptions, schemas and snapshots has its effect and no
      other. */
  lemma EffectsExactly(env: Env, w: World, op: Op, v: World)
    requires Valid(w) && v == Perform(env, w, op).0 && Perform(env, w, op).1 == Accepted
    ensures Effect(w, op, v)
  {
    match op {
      case SeekToTime(name, time) => SeekToTimeEffect(w, name, time, v);
      case UpdateSubscription(spec, mask) => UpdateEffect(w, spec, mask, v);
      case DeleteSubscription(name) => DeleteEffect(w, name, v);
      case SeekToSnapshot(_, _) => SnapshotEffect(w, op, env, v);
      case CreateSnapshot(_, _) => SnapshotEffect(w, op, env, v);
      case DeleteSnapshot(_) => SnapshotEffect(w, op, env, v);
      case _ =>
    }
  }
}
