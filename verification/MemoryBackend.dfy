/** The broker object of src/memory.rs. Its maps change in place, one method call at a time under
    the write lock; each method does exactly what the state machine's operation of that name says,
    so everything proved of the machine holds of the object. */
module MemoryBackend {
  import opened Basics
  import opened Model
  import opened Lifecycle
  import opened Tracking
  import opened Consumer
  import opened Pulling
  import opened PullSafety
  import opened Publishing
  import opened Broker
  import opened Backlog
  import opened FilterMeaning
  import Filter

  // ----- Loops that only read -----

  /** The position of the first retry that may go out. */
  method FindDue(queue: seq<RetryEntry>, now: Time, skipped: set<nat>) returns (r: Option<nat>)
    ensures r == FirstDue(queue, 0, now, skipped)
  {
    for p := 0 to |queue|
      invariant FirstDue(queue, 0, now, skipped) == FirstDue(queue, p, now, skipped)
    {
      if queue[p].availableAt <= now && queue[p].index !in skipped { return Some(p); }
    }
    return None;
  }

  /** `ordering_blocked`: its look at the leases and their deadlines makes no difference. */
  method OrderingBlocked(sub: Subscription, log: seq<Message>, i: nat, now: Time) returns (blocked: bool)
    requires i < |log|
    ensures blocked <==> IsBlocked(sub, log, i)
  {
    if !sub.spec.ordering { return false; }
    var key := log[i].orderingKey;
    if key == "" { return false; }
    for j := 0 to i
      invariant forall m :: 0 <= m < j && SameKey(log, i, m) ==> m in sub.acked
    {
      if log[j].orderingKey != key { continue; }
      if j in sub.acked { continue; }
      assert SameKey(log, i, j);
      if exists k | k in sub.inflight :: sub.inflight[k].index == j && sub.inflight[k].deadline > now {
        return true;
      }
      if j !in sub.acked { return true; }
    }
    return false;
  }

  /** Whether the subscription's filter, if it has one, keeps the message out. */
  method Rejects(filter: string, attributes: Filter.Attributes) returns (rejected: bool)
    ensures rejected <==> !FilterHolds(filter, attributes)
  {
    KeptOutIffNotHolds(filter, attributes);
    if filter == "" { return false; }
    var parsed := Filter.ParseFilter(filter);
    match parsed {
      case Some(f) => return !Filter.Matches(f, attributes);
      case None => return true;
    }
  }

  /** The position of the first message published at or after `time`, or the end. */
  method PositionOf(log: seq<Message>, time: Time) returns (r: nat)
    ensures r == FirstSince(log, time, 0)
  {
    r := 0;
    while r < |log| && log[r].publishedAt < time
      invariant r <= |log| && FirstSince(log, time, 0) == FirstSince(log, time, r)
    {
      r := r + 1;
    }
  }

  // ----- The loops of the operations, seen from either end -----

  lemma {:induction false} ReclaimOneMore(t: Tracked, order: seq<string>, k: string, now: Time)
    ensures var u := Reclaim(t, order, now);
            Reclaim(t, order + [k], now) == if k in u.sub.inflight then ReclaimOne(u, k, now) else u
    decreases |order|
  {
    if order == [] {
      assert [k][1..] == [];
    } else {
      assert (order + [k])[1..] == order[1..] + [k];
      ReclaimOneMore(if order[0] in t.sub.inflight then ReclaimOne(t, order[0], now) else t, order[1..], k, now);
    }
  }

  /** One more lease visited. */
  lemma VisitedOneMore(order: seq<string>, all: set<string>, left: set<string>, k: string)
    requires left <= all && k in left && Enumerates(order, all - left)
    ensures Enumerates(order + [k], all - (left - {k}))
  {
    assert forall p :: 0 <= p < |order| ==> order[p] in order;
  }

  // ----- The loops over acknowledgement ids -----

  /** The loop of an acknowledgement; a late one removes the lease and then stops it. */
  method AcknowledgeEach(sub: Subscription, ghost epoch: Epoch, ids: seq<string>, now: Time, log: seq<Message>)
    returns (s: Subscription, ghost e: Epoch, ok: bool)
    ensures s == AckAll(Tracked(sub, epoch), ids, now, log).0.sub && ok == AckAll(Tracked(sub, epoch), ids, now, log).1
    ensures e == AckAll(Tracked(sub, epoch), ids, now, log).0.epoch
  {
    s, e := sub, epoch;
    for p := 0 to |ids|
      invariant AckAll(Tracked(s, e), ids[p..], now, log) == AckAll(Tracked(sub, epoch), ids, now, log)
    {
      assert ids[p..][0] == ids[p] && ids[p..][1..] == ids[p + 1..];
      if ids[p] in s.inflight {
        var entry := s.inflight[ids[p]];
        s := s.(inflight := s.inflight - {ids[p]});
        if s.spec.exactlyOnce && entry.deadline < now {
          e := Record(e, Event(entry.index, now, AckedLate));
          return s, e, false;
        }
        var key := if entry.index < |log| then log[entry.index].orderingKey else "";
        if key != "" {
          s := s.(orderingAcked := s.orderingAcked[key := entry.index]);
        }
        s := s.(acked := s.acked + {entry.index});
        e := Record(e, Event(entry.index, now, Acked));
      }
    }
    return s, e, true;
  }

  /** The loop of a deadline change: zero seconds gives the message back, with backoff. */
  method ModifyEach(sub: Subscription, ghost epoch: Epoch, ids: seq<string>, seconds: u32, now: Time)
    returns (s: Subscription, ghost e: Epoch)
    ensures s == ModifyAll(Tracked(sub, epoch), ids, now, seconds).sub
    ensures e == ModifyAll(Tracked(sub, epoch), ids, now, seconds).epoch
  {
    s, e := sub, epoch;
    for p := 0 to |ids|
      invariant ModifyAll(Tracked(s, e), ids[p..], now, seconds) == ModifyAll(Tracked(sub, epoch), ids, now, seconds)
    {
      assert ids[p..][0] == ids[p] && ids[p..][1..] == ids[p + 1..];
      if ids[p] in s.inflight {
        var entry := s.inflight[ids[p]];
        if seconds == 0 {
          s := s.(inflight := s.inflight - {ids[p]});
          var attempt := if entry.index in s.attempts then s.attempts[entry.index] else 1;
          var delay := BackoffSeconds(s.spec.retry, attempt);
          s := s.(retryQueue := [RetryEntry(entry.index, now + SECOND * delay)] + s.retryQueue);
          e := Record(e, Event(entry.index, now, Nacked(s.spec.retry)));
        } else {
          s := s.(inflight := s.inflight[ids[p] := entry.(deadline := now + SECOND * seconds)]);
          e := Record(e, Event(entry.index, now, Extended(now + SECOND * seconds)));
        }
      }
    }
  }

  class MemoryBackend {
    var topics: map<string, Topic>
    var subscriptions: map<string, Subscription>
    var snapshots: map<string, Snapshot>
    var schemas: set<string>
    var minted: nat
    ghost var epochs: map<string, Epoch>
    ghost var clock: Time

    ghost function Here(): World
      reads this
    {
      World(State(topics, subscriptions, snapshots, schemas, minted), epochs, clock)
    }

    ghost predicate Valid()
      reads this
    {
      Broker.Valid(Here())
    }

    /** The world at the moment an operation reads the clock. */
    ghost function At(now: Time): (w: World)
      reads this
      requires Valid() && clock <= now
      ensures Broker.Valid(w)
    {
      TickValid(Here(), now - clock);
      Here().(clock := now)
    }

    constructor ()
      ensures Valid() && Here() == INITIAL
    {
      topics, subscriptions, snapshots, schemas, minted := map[], map[], map[], {}, 0;
      epochs, clock := map[], 0;
    }

    method CreateTopic(name: string, schemaName: string, now: Time) returns (reply: Reply)
      requires Valid() && clock <= now
      modifies this
      ensures Valid() && (Here(), reply) == DoCreateTopic(old(At(now)), name, schemaName)
    {
      CreateTopicValid(At(now), name, schemaName);
      clock := now;
      if !NameOk(name, "/topics/") { return Failed(InvalidArgument); }
      if name in topics { return Failed(AlreadyExists); }
      topics := topics[name := Topic(schemaName, [], map[])];
      return Accepted;
    }

    method CreateSubscription(spec: SubscriptionSpec, now: Time) returns (reply: Reply)
      requires Valid() && clock <= now
      modifies this
      ensures Valid() && (Here(), reply) == DoCreateSubscription(old(At(now)), spec)
    {
      CreateSubscriptionValid(At(now), spec);
      clock := now;
      if !NameOk(spec.name, "/subscriptions/") { return Failed(InvalidArgument); }
      if spec.name in subscriptions { return Failed(AlreadyExists); }
      if Filter.Trim(spec.filter) != "" {
        var parsed := Filter.ParseFilter(spec.filter);
        if parsed.None? { return Failed(InvalidArgument); }
      }
      if spec.topic !in topics { return Failed(NotFound); }
      var topicLen := |topics[spec.topic].messages|;
      var stored := spec.(ackDeadlineSeconds := NormalizeAckDeadline(Max(spec.ackDeadlineSeconds, 10)));
      subscriptions := subscriptions[spec.name := Subscription(stored, topicLen, {}, map[], [], map[], map[])];
      epochs := epochs[spec.name := Epoch(topicLen, [], spec.ordering, spec.exactlyOnce, spec.exactlyOnce)];
      return Accepted;
    }

    method UpdateSubscription(spec: SubscriptionSpec, mask: seq<string>, now: Time) returns (reply: Reply)
      requires Valid() && clock <= now
      modifies this
      ensures Valid() && (Here(), reply) == DoUpdateSubscription(old(At(now)), spec, mask)
    {
      UpdateSubscriptionValid(At(now), spec, mask);
      clock := now;
      if spec.name !in subscriptions { return Failed(NotFound); }
      var sub := subscriptions[spec.name];
      if "filter" in mask && spec.filter != "" && spec.filter != sub.spec.filter {
        return Failed(FailedPrecondition);
      }
      var stored := ApplyMask(sub.spec, spec, mask);
      stored := stored.(ackDeadlineSeconds := NormalizeAckDeadline(Max(stored.ackDeadlineSeconds, 10)));
      epochs := epochs[spec.name := Reconfigure(Tracked(sub, epochs[spec.name]), stored).epoch];
      subscriptions := subscriptions[spec.name := sub.(spec := stored)];
      return Accepted;
    }

    method DeleteSubscription(name: string, now: Time) returns (reply: Reply)
      requires Valid() && clock <= now
      modifies this
      ensures Valid() && (Here(), reply) == DoDeleteSubscription(old(At(now)), name)
    {
      DeleteSubscriptionValid(At(now), name);
      clock := now;
      if name !in subscriptions { return Failed(NotFound); }
      subscriptions := subscriptions - {name};
      epochs := epochs - {name};
      return Accepted;
    }

    method Publish(env: Env, topic: string, batch: seq<NewMessage>, now: Time) returns (reply: Reply)
      requires Valid() && clock <= now
      modifies this
      ensures Valid() && (Here(), reply) == DoPublish(env, old(At(now)), topic, batch)
    {
      PublishValid(env, At(now), topic, batch);
      clock := now;
      if topic !in topics { return Failed(NotFound); }
      var schema := topics[topic].schemaName;
      if schema != "" {
        if schema !in schemas { return Failed(FailedPrecondition); }
        for k := 0 to |batch|
          invariant forall j :: 0 <= j < k ==> env.valid(schema, batch[j].data)
        {
          if !env.valid(schema, batch[k].data) { return Failed(InvalidArgument); }
        }
      }
      assert PublishError(env, old(At(now)).state, topic, batch).None?;
      var ids := AppendBatch(env, topic, batch, now);
      return Published(ids);
    }

    /** The loop of a publish. */
    method AppendBatch(env: Env, topic: string, batch: seq<NewMessage>, now: Time) returns (ids: seq<string>)
      requires topic in topics
      modifies this`topics, this`minted
      ensures var a := AppendAll(env, topic, Append(old(topics[topic]), old(minted), []), batch, now);
              topics == old(topics)[topic := a.topic] && minted == a.minted && ids == a.ids
    {
      var here := topics[topic];
      ghost var a := Append(here, minted, []);
      ids := [];
      for k := 0 to |batch|
        invariant topics == old(topics)
        invariant Append(here, minted, ids) == AppendAll(env, topic, a, batch[..k], now)
      {
        AppendOneMore(env, topic, a, batch, k, now);
        var m := Enrich(env, topic, batch[k]);
        var clientId := ClientId(m);
        if clientId != "" && clientId in here.seenIds {
          ids := ids + [here.seenIds[clientId]];
          continue;
        }
        var id := clientId;
        if clientId == "" {
          id := Uuid(minted);
          minted := minted + 1;
        } else {
          here := here.(seenIds := here.seenIds[clientId := id]);
        }
        here := here.(messages := here.messages + [Message(id, m.data, m.attributes, m.orderingKey, now)]);
        ids := ids + [id];
      }
      topics := topics[topic := here];
      assert batch[..|batch|] == batch;
    }

    /** The first loop of a pull: expired leases, in whatever order the hash map gives them, go to
        the retry queue. */
    method ReclaimExpired(sub: Subscription, ghost epoch: Epoch, now: Time)
      returns (s: Subscription, ghost e: Epoch, ghost order: seq<string>)
      ensures Enumerates(order, Expired(sub.inflight, now))
      ensures s == Reclaim(Tracked(sub, epoch), order, now).sub
      ensures e == Reclaim(Tracked(sub, epoch), order, now).epoch
    {
      s, e, order := sub, epoch, [];
      var expired := set k | k in sub.inflight && sub.inflight[k].deadline <= now;
      ghost var all := expired;
      while expired != {}
        invariant expired <= all && Enumerates(order, all - expired)
        invariant forall k :: k in expired ==> k in s.inflight && s.inflight[k] == sub.inflight[k]
        invariant Tracked(s, e) == Reclaim(Tracked(sub, epoch), order, now)
      {
        var k :| k in expired;
        VisitedOneMore(order, all, expired, k);
        ReclaimOneMore(Tracked(sub, epoch), order, k, now);
        var i := s.inflight[k].index;
        s := s.(inflight := s.inflight - {k});
        if i !in s.acked {
          var attempt := if i in s.attempts then s.attempts[i] else 1;
          var delay := BackoffSeconds(s.spec.retry, attempt);
          s := s.(retryQueue := s.retryQueue + [RetryEntry(i, now + SECOND * delay)]);
          e := Record(e, Event(i, now, Reclaimed(s.spec.retry)));
        }
        expired := expired - {k};
        order := order + [k];
      }
    }

    /** What the pull loop does with an index that is free and not blocked. */
    method Attempt(sub: Subscription, ghost epoch: Epoch, i: nat, now: Time,
                   deliveries: seq<Delivery>, ghost skipped: set<nat>, ghost handed: seq<nat>)
      returns (s: Subscription, ghost e: Epoch, ds: seq<Delivery>, ghost hd: seq<nat>)
      requires sub.spec.topic in topics && i < |topics[sub.spec.topic].messages|
      requires !IsBlocked(sub, topics[sub.spec.topic].messages, i)
      modifies this`topics, this`minted
      ensures Work(topics, Tracked(s, e), minted, ds, hd, skipped)
           == Examine(Work(old(topics), Tracked(sub, epoch), old(minted), deliveries, handed, skipped), i, now)
    {
      s, e, ds, hd := sub, epoch, deliveries, handed;
      var message := topics[s.spec.topic].messages[i];
      var attempt := (if i in s.attempts then s.attempts[i] else 0) + 1;
      s := s.(attempts := s.attempts[i := attempt]);

      var buried := DeadLetter(s.spec, attempt, message, now);
      if buried {
        s := s.(acked := s.acked + {i});
        e := Record(e, Event(i, now, DeadLettered(MaxAttempts(s.spec.deadLetter.value))));
        return;
      }

      KeptOutIffNotHolds(s.spec.filter, message.attributes);
      s, e, ds, hd := DiscardOrDeliver(s, e, i, attempt, message, now, ds, hd);
    }

    /** Past the attempts allowed, and with the dead-letter topic there, a copy goes to it. */
    method DeadLetter(spec: SubscriptionSpec, attempt: nat, original: Message, now: Time) returns (buried: bool)
      modifies this`topics, this`minted
      ensures buried <==>
        && spec.deadLetter.Some? && attempt > Min(Max(spec.deadLetter.value.maxDeliveryAttempts, 5), 100)
        && spec.deadLetter.value.topic in old(topics)
      ensures !buried ==> topics == old(topics) && minted == old(minted)
      ensures buried ==>
        var dead := spec.deadLetter.value.topic;
        var was := old(topics[dead]);
        && minted == old(minted) + 1
        && topics == old(topics)[dead :=
             was.(messages := was.messages + [DeadCopy(spec.name, original, Uuid(old(minted)), now)])]
    {
      if spec.deadLetter.None? { return false; }
      if attempt <= Clamp(spec.deadLetter.value.maxDeliveryAttempts, 5, 100) { return false; }
      var dead := spec.deadLetter.value.topic;
      if dead !in topics { return false; }
      var attributes := original.attributes[SOURCE_KEY := spec.name][ORIGINAL_KEY := original.id];
      var copy := Message(Uuid(minted), original.data, attributes, original.orderingKey, now);
      minted := minted + 1;
      topics := topics[dead := topics[dead].(messages := topics[dead].messages + [copy])];
      return true;
    }

    /** The rest of an iteration, once the attempt is counted: the filter, and the delivery. */
    method DiscardOrDeliver(sub: Subscription, ghost epoch: Epoch, i: nat, attempt: nat, message: Message, now: Time,
                            deliveries: seq<Delivery>, ghost handed: seq<nat>)
      returns (s: Subscription, ghost e: Epoch, ds: seq<Delivery>, ghost hd: seq<nat>)
      modifies this`minted
      ensures !FilterHolds(sub.spec.filter, message.attributes) ==>
        && minted == old(minted) && ds == deliveries && hd == handed
        && s == sub.(acked := sub.acked + {i}) && e == Record(epoch, Event(i, now, FilteredOut))
      ensures FilterHolds(sub.spec.filter, message.attributes) ==>
        var ackId := NewAckId(sub, i, attempt, old(minted));
        var deadline := now + SECOND * Min(Max(sub.spec.ackDeadlineSeconds, 10), 600);
        && minted == (if sub.spec.exactlyOnce then old(minted) else old(minted) + 1)
        && ds == deliveries + [Delivery(ackId, message, attempt)] && hd == handed + [i]
        && s == sub.(inflight := sub.inflight[ackId := Lease(i, deadline)])
        && e == Record(epoch, Event(i, now, Delivered(attempt, deadline)))
    {
      s, e, ds, hd := sub, epoch, deliveries, handed;
      var rejected := Rejects(s.spec.filter, message.attributes);
      if rejected {
        s := s.(acked := s.acked + {i});
        e := Record(e, Event(i, now, FilteredOut));
        return;
      }
      s, e, ds, hd := HandOver(s, e, i, attempt, message, now, ds, hd);
    }

    /** The end of an iteration that delivers. */
    method HandOver(sub: Subscription, ghost epoch: Epoch, i: nat, attempt: nat, message: Message, now: Time,
                    deliveries: seq<Delivery>, ghost handed: seq<nat>)
      returns (s: Subscription, ghost e: Epoch, ds: seq<Delivery>, ghost hd: seq<nat>)
      modifies this`minted
      ensures var ackId := NewAckId(sub, i, attempt, old(minted));
              var deadline := now + SECOND * Min(Max(sub.spec.ackDeadlineSeconds, 10), 600);
              && s == sub.(inflight := sub.inflight[ackId := Lease(i, deadline)])
              && e == Record(epoch, Event(i, now, Delivered(attempt, deadline)))
              && ds == deliveries + [Delivery(ackId, message, attempt)]
              && hd == handed + [i]
      ensures minted == if sub.spec.exactlyOnce then old(minted) else old(minted) + 1
    {
      var ackId;
      if sub.spec.exactlyOnce {
        ackId := AckKey(sub.spec.name, i, attempt);
      } else {
        ackId := Uuid(minted);
        minted := minted + 1;
      }
      var deadline := now + SECOND * NormalizeAckDeadline(sub.spec.ackDeadlineSeconds);
      s := sub.(inflight := sub.inflight[ackId := Lease(i, deadline)]);
      e := Record(epoch, Event(i, now, Delivered(attempt, deadline)));
      ds := deliveries + [Delivery(ackId, message, attempt)];
      hd := handed + [i];
    }

    /** The main loop of a pull. */
    method Deliver(sub: Subscription, ghost epoch: Epoch, limit: nat, now: Time)
      returns (s: Subscription, ghost e: Epoch, ds: seq<Delivery>, ghost hd: seq<nat>, ghost sk: set<nat>)
      requires sub.spec.topic in topics
      requires InBounds(Work(topics, Tracked(sub, epoch), minted, [], [], {}), |topics[sub.spec.topic].messages|)
      modifies this`topics, this`minted
      ensures Work(topics, Tracked(s, e), minted, ds, hd, sk)
           == PullLoop(Work(old(topics), Tracked(sub, epoch), old(minted), [], [], {}), now, limit,
                       |old(topics)[sub.spec.topic].messages|)
    {
      var topicLen := |topics[sub.spec.topic].messages|;
      ghost var start := Work(topics, Tracked(sub, epoch), minted, [], [], {});
      var skipped: set<nat> := {};
      s, e, ds, hd, sk := sub, epoch, [], [], {};
      while |ds| < limit
        invariant sk == skipped && s.spec == sub.spec && s.spec.topic in topics
        invariant InBounds(Work(topics, Tracked(s, e), minted, ds, hd, skipped), topicLen)
        invariant PullLoop(Work(topics, Tracked(s, e), minted, ds, hd, skipped), now, limit, topicLen)
               == PullLoop(start, now, limit, topicLen)
        decreases Measure(Work(topics, Tracked(s, e), minted, ds, hd, skipped), now, topicLen)
      {
        ghost var before := Work(topics, Tracked(s, e), minted, ds, hd, skipped);
        var i: nat;
        var due := FindDue(s.retryQueue, now, skipped);
        if due.Some? {
          i := s.retryQueue[due.value].index;
          s := s.(retryQueue := RemoveAt(s.retryQueue, due.value));
        } else if s.nextIndex < topicLen {
          i := s.nextIndex;
          s := s.(nextIndex := s.nextIndex + 1);
        } else {
          break;
        }
        PickInBounds(before, now, topicLen);
        TurnLessens(before, now, topicLen);
        TurnInBounds(before, now, topicLen);
        if i in s.acked || i in LeasedIn(s.inflight) { continue; }
        LogOnlyGrows(before.(t := before.t.(sub := s)), i, now);
        var blocked := OrderingBlocked(s, topics[s.spec.topic].messages, i, now);
        if blocked {
          skipped := skipped + {i};
          sk := skipped;
          s := s.(retryQueue := s.retryQueue + [RetryEntry(i, now)]);
          e := Record(e, Event(i, now, Blocked));
          continue;
        }
        s, e, ds, hd := Attempt(s, e, i, now, ds, skipped, hd);
      }
    }

    method Pull(name: string, max: u32, now: Time) returns (reply: Reply, ghost order: seq<string>)
      requires Valid() && clock <= now
      modifies this
      ensures Valid() && (Here(), reply) == DoPull(old(At(now)), name, max, order)
    {
      ghost var w := At(now);
      order := [];
      clock := now;
      if name !in subscriptions { return Failed(NotFound), order; }
      var sub := subscriptions[name];
      if sub.spec.topic !in topics { return Failed(FailedPrecondition), order; }
      ghost var epoch;
      sub, epoch, order := ReclaimExpired(sub, epochs[name], now);
      ReclaimExpiredSound(w, name, order);
      WorkInBounds(StartWork(w.state, Tracked(sub, epoch)), |topics[sub.spec.topic].messages|);
      PullValid(w, name, max, order);
      var deliveries;
      ghost var handed, skipped;
      sub, epoch, deliveries, handed, skipped := Deliver(sub, epoch, Clamp(max, 1, 1000), now);
      subscriptions := subscriptions[name := sub];
      epochs := epochs[name := epoch];
      return Pulled(deliveries), order;
    }

    method Acknowledge(name: string, ids: seq<string>, now: Time) returns (reply: Reply)
      requires Valid() && clock <= now
      modifies this
      ensures Valid() && (Here(), reply) == DoAcknowledge(old(At(now)), name, ids)
    {
      AcknowledgeValid(At(now), name, ids);
      clock := now;
      if name !in subscriptions { return Failed(NotFound); }
      var sub := subscriptions[name];
      var log := if sub.spec.topic in topics then topics[sub.spec.topic].messages else [];
      var ok;
      ghost var epoch;
      sub, epoch, ok := AcknowledgeEach(sub, epochs[name], ids, now, log);
      subscriptions := subscriptions[name := sub];
      epochs := epochs[name := epoch];
      return if ok then Accepted else Failed(FailedPrecondition);
    }

    method ModifyAckDeadline(name: string, ids: seq<string>, seconds: u32, now: Time) returns (reply: Reply)
      requires Valid() && clock <= now
      modifies this
      ensures Valid() && (Here(), reply) == DoModify(old(At(now)), name, ids, seconds)
    {
      ModifyValid(At(now), name, ids, seconds);
      clock := now;
      if seconds > 600 { return Failed(InvalidArgument); }
      if name !in subscriptions { return Failed(NotFound); }
      var sub := subscriptions[name];
      ghost var epoch;
      sub, epoch := ModifyEach(sub, epochs[name], ids, seconds, now);
      subscriptions := subscriptions[name := sub];
      epochs := epochs[name := epoch];
      return Accepted;
    }

    /** What both seeks do to the subscription. */
    method Rewind(name: string, cursor: nat)
      requires name in subscriptions
      modifies this`subscriptions, this`epochs
      ensures Here() == PutTracked(old(Here()), name, BeginEpoch(old(subscriptions[name].spec), cursor))
    {
      var sub := subscriptions[name];
      subscriptions := subscriptions[name :=
        sub.(nextIndex := cursor, acked := {}, inflight := map[], retryQueue := [], attempts := map[],
             orderingAcked := map[])];
      epochs := epochs[name := BeginEpoch(sub.spec, cursor).epoch];
    }

    method SeekToTime(name: string, time: Time, now: Time) returns (reply: Reply)
      requires Valid() && clock <= now
      modifies this
      ensures Valid() && (Here(), reply) == DoSeekToTime(old(At(now)), name, time)
    {
      SeeksValid(At(now), name, time, "");
      clock := now;
      if name !in subscriptions { return Failed(NotFound); }
      var topic := subscriptions[name].spec.topic;
      if topic !in topics { return Failed(NotFound); }
      var cursor := PositionOf(topics[topic].messages, time);
      Rewind(name, cursor);
      return Accepted;
    }

    method SeekToSnapshot(name: string, snapshot: string, now: Time) returns (reply: Reply)
      requires Valid() && clock <= now
      modifies this
      ensures Valid() && (Here(), reply) == DoSeekToSnapshot(old(At(now)), name, snapshot)
    {
      SeeksValid(At(now), name, 0, snapshot);
      clock := now;
      if snapshot !in snapshots { return Failed(NotFound); }
      if name !in subscriptions { return Failed(NotFound); }
      if subscriptions[name].spec.topic != snapshots[snapshot].topic { return Failed(FailedPrecondition); }
      Rewind(name, snapshots[snapshot].topicIndex);
      return Accepted;
    }

    method CreateSnapshot(snapshot: string, name: string, now: Time) returns (reply: Reply)
      requires Valid() && clock <= now
      modifies this
      ensures Valid() && (Here(), reply) == DoCreateSnapshot(old(At(now)), snapshot, name)
    {
      SnapshotsValid(At(now), snapshot, name);
      clock := now;
      if !NameOk(snapshot, "/snapshots/") { return Failed(InvalidArgument); }
      if snapshot in snapshots { return Failed(AlreadyExists); }
      if name !in subscriptions { return Failed(NotFound); }
      var sub := subscriptions[name];
      snapshots := snapshots[snapshot := Snapshot(sub.spec.topic, sub.nextIndex)];
      return Accepted;
    }

    method DeleteSnapshot(snapshot: string, now: Time) returns (reply: Reply)
      requires Valid() && clock <= now
      modifies this
      ensures Valid() && (Here(), reply) == DoDeleteSnapshot(old(At(now)), snapshot)
    {
      SnapshotsValid(At(now), snapshot, "");
      clock := now;
      if snapshot !in snapshots { return Failed(NotFound); }
      snapshots := snapshots - {snapshot};
      return Accepted;
    }

    /** The backlog figure the inventory gives for a subscription. */
    method BacklogOf(name: string) returns (backlog: nat)
      requires Valid() && name in subscriptions
      ensures backlog == Reported(subscriptions[name], |LogOf(topics, subscriptions[name].spec.topic)|)
    {
      var topic := subscriptions[name].spec.topic;
      var topicLen := if topic in topics then |topics[topic].messages| else 0;
      backlog := ReportBacklog(subscriptions[name], topicLen);
    }
  }
}
