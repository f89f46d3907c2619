/** The delivery guarantees, in every valid world: by the contract of `Broker.Run` that is every
    world that any sequence of calls, on any topics and subscriptions, leads to. */
module Guarantees {
  import opened Basics
  import opened Model
  import opened Lifecycle
  import opened Tracking
  import opened Consumer
  import opened Pulling
  import opened PullSafety
  import opened PullResults
  import opened Publishing
  import opened Broker
  import opened FilterMeaning
  import opened Verdicts

  /** The log a subscription reads. */
  ghost function LogFor(w: World, n: string): seq<Message>
    requires n in w.state.subscriptions
  {
    LogOf(w.state.topics, w.state.subscriptions[n].spec.topic)
  }

  /** The events of a subscription's epoch. */
  ghost function TraceOf(w: World, n: string): History
    requires Valid(w) && n in w.state.subscriptions
  {
    w.epochs[n].trace
  }

  lemma SubscriptionValid(w: World, n: string)
    requires Valid(w) && n in w.state.subscriptions
    ensures w.state.subscriptions[n].spec.topic in w.state.topics && w.state.subscriptions[n].spec.name == n
    ensures Sound(TrackedOf(w, n), LogFor(w, n), w.state.minted)
  {
    assert SubscriptionSound(n, TrackedOf(w, n), w.state.topics, w.state.minted);
  }

  // ----- Conservation -----

  lemma {:induction false} LostWasLate(h: History, k: nat, i: nat) returns (p: nat)
    requires k <= |h| && Legal(h) && LifeAt(h, k, i).phase.Lost?
    ensures p < k && h[p].index == i && h[p].kind.AckedLate?
  {
    assert LegalAt(h, k - 1);
    if h[k - 1].index == i && h[k - 1].kind.AckedLate? {
      p := k - 1;
    } else {
      p := LostWasLate(h, k - 1, i);
    }
  }

  /** In every reachable state the indices examined since the epoch began split exactly into
      acknowledged, leased, queued and lost ones; each lost one had a late exactly-once
      acknowledgement, so a subscription that never had exactly-once on loses nothing. */
  lemma Conservation(w: World, n: string)
    requires Valid(w) && n in w.state.subscriptions
    ensures var t := TrackedOf(w, n);
            && Conserved(t)
            && (!t.epoch.everFenced ==> LostOf(t) == {})
            && (forall i :: i in LostOf(t) ==>
                 exists p :: 0 <= p < |t.epoch.trace| && t.epoch.trace[p].index == i && t.epoch.trace[p].kind.AckedLate?)
  {
    SubscriptionValid(w, n);
    var t := TrackedOf(w, n);
    TracksConserves(t);
    forall i | i in LostOf(t)
      ensures t.epoch.everFenced
      ensures exists p :: 0 <= p < |t.epoch.trace| && t.epoch.trace[p].index == i && t.epoch.trace[p].kind.AckedLate?
    {
      var p := LostWasLate(t.epoch.trace, |t.epoch.trace|, i);
      assert t.epoch.trace[p].kind.AckedLate?;
    }
  }

  /** What acknowledging a leased message comes to: it succeeds unless exactly-once is on and the
      deadline has passed, and then the message is acknowledged, and the last one acknowledged of its
      key; if it fails the message is lost, in no container, until the next seek. */
  lemma AckOutcome(t: Tracked, k: string, now: Time, log: seq<Message>, minted: nat)
    requires Sound(t, log, minted) && k in t.sub.inflight
    ensures var (u, ok) := AckAll(t, [k], now, log);
            var i := t.sub.inflight[k].index;
            && (ok <==> !(t.sub.spec.exactlyOnce && t.sub.inflight[k].deadline < now))
            && (ok <==> i in u.sub.acked)
            && (!ok <==> i in LostOf(u))
            && i !in LeasedIn(u.sub.inflight) && i !in QueuedIn(u.sub.retryQueue)
            && i < |log|
            && var key := log[i].orderingKey;
            u.sub.orderingAcked == if ok && key != "" then t.sub.orderingAcked[key := i] else t.sub.orderingAcked
  {
    var i := t.sub.inflight[k].index;
    assert i in LeasedIn(t.sub.inflight);
    assert Agrees(t, i);
    assert [k][1..] == [];
    AckAllSound(t, [k], now, log, minted);
    var (u, ok) := AckAll(t, [k], now, log);
    LifeAfter(t.epoch.trace, Event(i, now, if ok then Acked else AckedLate));
    assert Agrees(u, i);
  }

  // ----- Leases, redelivery, settlement -----

  /** In every epoch: two consecutive deliveries of a message are separated by a
      nack or by a reclaim at or after the deadline last granted, plus the full backoff. */
  lemma DeliveriesSpaced(w: World, n: string, p: nat, q: nat) returns (g: nat, r: nat)
    requires Valid(w) && n in w.state.subscriptions
    requires var h := TraceOf(w, n);
             && p < q < |h| && h[p].index == h[q].index
             && h[p].kind.Delivered? && h[q].kind.Delivered? && NoRedelivery(h, p, q)
    ensures SpacedBy(TraceOf(w, n), p, q, g, r)
  {
    SubscriptionValid(w, n);
    g, r := RedeliverySpacing(TraceOf(w, n), p, q);
  }

  /** In every epoch a message is dead-lettered only after as many deliveries as its event says were
      allowed, which is never less than five. */
  lemma BuriedOnlyExhausted(w: World, n: string, p: nat)
    requires Valid(w) && n in w.state.subscriptions
    requires p < |TraceOf(w, n)| && TraceOf(w, n)[p].kind.DeadLettered?
    ensures var h := TraceOf(w, n);
            5 <= h[p].kind.limit <= DeliveriesBefore(h, p, h[p].index)
  {
    SubscriptionValid(w, n);
    var h := TraceOf(w, n);
    assert LegalAt(h, p);
    LifeCountsDeliveries(h, p, h[p].index);
  }

  /** In every epoch a message is settled (acknowledged, dead-lettered, filtered out
      or lost) at most once and never delivered afterwards. */
  lemma SettledOnce(w: World, n: string, p: nat, q: nat)
    requires Valid(w) && n in w.state.subscriptions
    requires p < q < |TraceOf(w, n)| && Settles(TraceOf(w, n)[p].kind)
    ensures TraceOf(w, n)[q].index != TraceOf(w, n)[p].index
  {
    SubscriptionValid(w, n);
    SettledIsFinal(TraceOf(w, n), p, q);
  }

  // ----- Ordering -----

  /** With ordering on for the whole epoch: of every key the acknowledged messages are a prefix
      of the key's messages in the log, and at most one message is leased. */
  lemma OrderedDelivery(w: World, n: string, i: nat, j: nat)
    requires Valid(w) && n in w.state.subscriptions
    requires w.epochs[n].ordered
    requires SameKey(LogFor(w, n), i, j) && j < i
    ensures var s := w.state.subscriptions[n];
            && (i in s.acked ==> j in s.acked)
            && (i in LeasedIn(s.inflight) ==> j in s.acked && j !in LeasedIn(s.inflight))
  {
    SubscriptionValid(w, n);
    var t := TrackedOf(w, n);
    assert Agrees(t, j);
  }

  /** With ordering on for the whole epoch, acknowledging moves the last acknowledged index of a
      key forward only. */
  lemma {:induction false} OrderingAckedForward(t: Tracked, ids: seq<string>, now: Time, log: seq<Message>,
                                                minted: nat, key: string)
    requires Sound(t, log, minted) && t.epoch.ordered && key in t.sub.orderingAcked
    ensures var u := AckAll(t, ids, now, log).0;
            key in u.sub.orderingAcked && t.sub.orderingAcked[key] <= u.sub.orderingAcked[key]
    decreases |ids|
  {
    if ids == [] || (ids[0] in t.sub.inflight && IsLate(t.sub, ids[0], now)) {
    } else if ids[0] !in t.sub.inflight {
      OrderingAckedForward(t, ids[1..], now, log, minted, key);
    } else {
      AckOneForward(t, ids[0], now, log, minted, key);
      AckOneSound(t, ids[0], now, log, minted);
      OrderingAckedForward(AckOne(t, ids[0], now, log), ids[1..], now, log, minted, key);
    }
  }

  lemma AckOneForward(t: Tracked, k: string, now: Time, log: seq<Message>, minted: nat, key: string)
    requires Sound(t, log, minted) && t.epoch.ordered && key in t.sub.orderingAcked && k in t.sub.inflight
    ensures var u := AckOne(t, k, now, log);
            key in u.sub.orderingAcked && t.sub.orderingAcked[key] <= u.sub.orderingAcked[key]
  {
    var i, v := t.sub.inflight[k].index, t.sub.orderingAcked[key];
    assert i in LeasedIn(t.sub.inflight);
    assert Agrees(t, i);
    if KeyAt(log, i) == key && key != "" && i < v {
      assert SameKey(log, v, i);
      assert false;
    }
  }

  // ----- Exactly-once -----

  /** With exactly-once on for the whole epoch, the key text of (index, attempt) names a lease if
      and only if that index is leased for its current attempt. */
  lemma FencedKeys(t: Tracked, log: seq<Message>, minted: nat, i: nat, a: nat)
    requires Sound(t, log, minted) && t.epoch.fenced
    ensures AckKey(t.sub.spec.name, i, a) in t.sub.inflight
       <==> i in LeasedIn(t.sub.inflight) && a == AttemptsOf(t.sub, i)
  {
    var key := AckKey(t.sub.spec.name, i, a);
    if key in t.sub.inflight {
      AckKeyInjective(t.sub.spec.name, i, a, t.sub.inflight[key].index,
                      AttemptsOf(t.sub, t.sub.inflight[key].index));
    }
    if i in LeasedIn(t.sub.inflight) {
      var k :| k in t.sub.inflight && t.sub.inflight[k].index == i;
      assert k == AckKey(t.sub.spec.name, i, AttemptsOf(t.sub, i));
    }
  }

  /** So an acknowledgement id of an older attempt, or of an index no longer leased, changes
      nothing: neither an acknowledgement nor a deadline change under it has any effect. */
  lemma StaleIdsAreInert(t: Tracked, log: seq<Message>, minted: nat, i: nat, a: nat, now: Time, seconds: nat)
    requires Sound(t, log, minted) && t.epoch.fenced
    requires i !in LeasedIn(t.sub.inflight) || a != AttemptsOf(t.sub, i)
    ensures AckAll(t, [AckKey(t.sub.spec.name, i, a)], now, log) == (t, true)
    ensures ModifyAll(t, [AckKey(t.sub.spec.name, i, a)], now, seconds) == t
  {
    FencedKeys(t, log, minted, i, a);
    var ids := [AckKey(t.sub.spec.name, i, a)];
    assert ids[1..] == [];
  }

  /** When an acknowledgement under (index, attempt) settles its message, whoever sends it and
      wherever the id comes from: the message is leased for that attempt and not past its deadline. */
  lemma EffectiveAck(t: Tracked, log: seq<Message>, minted: nat, i: nat, a: nat, now: Time)
    requires Sound(t, log, minted) && t.epoch.fenced
    ensures var phase := LifeOf(t.epoch.trace, i).phase;
            var u := AckAll(t, [AckKey(t.sub.spec.name, i, a)], now, log).0;
            i !in t.sub.acked && i in u.sub.acked
            <==> phase.Leased? && a == AttemptsOf(t.sub, i) && now <= phase.deadline
  {
    var key := AckKey(t.sub.spec.name, i, a);
    assert Agrees(t, i);
    FencedKeys(t, log, minted, i, a);
    if i in LeasedIn(t.sub.inflight) && a == AttemptsOf(t.sub, i) {
      var j := t.sub.inflight[key].index;
      AckKeyInjective(t.sub.spec.name, i, a, j, AttemptsOf(t.sub, j));
      AckOutcome(t, key, now, log, minted);
    } else {
      StaleIdsAreInert(t, log, minted, i, a, now, 0);
    }
  }

  // ----- The reply to a pull -----

  /** Every pull: at most `clamp(max, 1, 1000)` deliveries of distinct indices not leased before,
      each the logged message, of which the filter holds, under a fresh lease, with the current
      attempt number, which with a dead-letter topic present is at most `clamp(limit, 5, 100)`;
      they are the deliveries recorded in the epoch. Only the dead-letter topic changes, by one
      faithful copy per message buried. With fewer deliveries the log has been read to its end
      and every due retry left was blocked behind an earlier message of its key. */
  lemma PullReply(w: World, name: string, max: u32, order: seq<string>)
    requires Valid(w) && name in w.state.subscriptions
    ensures w.state.subscriptions[name].spec.topic in w.state.topics
    ensures var t := TrackedOf(w, name);
            var reclaimed := Reclaim(t, VisitOrder(order, Expired(t.sub.inflight, w.clock)), w.clock);
            var v := PullWork(w, name, max, order);
            && DoPull(w, name, max, order).1 == Pulled(v.deliveries)
            && DoPull(w, name, max, order).0 == w.(
                 state := w.state.(topics := v.topics, minted := v.minted,
                                   subscriptions := w.state.subscriptions[name := v.t.sub]),
                 epochs := w.epochs[name := v.t.epoch])
            && Ends(StartWork(w.state, reclaimed), v, w.clock, Min(Max(max, 1), 1000),
                    |w.state.topics[t.sub.spec.topic].messages|)
            && SameEpoch(t, v.t)
  {
    var t := TrackedOf(w, name);
    var visit := VisitOrder(order, Expired(t.sub.inflight, w.clock));
    var work := StartWork(w.state, Reclaim(t, visit, w.clock));
    assert SubscriptionSound(name, t, w.state.topics, w.state.minted);
    ReclaimExpiredSound(w, name, visit);
    WorkInBounds(work, |LogIn(work)|);
    ResultStarts(work, w.clock);
    PullLoopSound(work, w.clock, PullLimit(max), |LogIn(work)|);
    PullLoopRight(work, work, w.clock, PullLimit(max), |LogIn(work)|);
  }

  // ----- Filters -----

  lemma {:induction false} DeliveriesOnlyGrow(h: History, k: nat, m: nat, i: nat)
    requires k <= m <= |h|
    ensures LifeAt(h, k, i).deliveries <= LifeAt(h, m, i).deliveries
    decreases m
  {
    if k < m {
      DeliveriesOnlyGrow(h, k, m - 1, i);
    }
  }

  lemma HandledMatches(t: Tracked, log: seq<Message>, minted: nat, p: nat)
    requires Sound(t, log, minted) && p < |t.epoch.trace|
    requires t.epoch.trace[p].kind.Delivered? || t.epoch.trace[p].kind.DeadLettered?
    ensures var i := t.epoch.trace[p].index;
            i < |log| && Passes(t.sub.spec.filter, log[i].attributes)
  {
    var h := t.epoch.trace;
    assert LegalAt(h, p);
    DeliveriesOnlyGrow(h, p + 1, |h|, h[p].index);
    assert LifeOf(h, h[p].index).deliveries > 0;
  }

  /** A message that does not match the filter is neither delivered nor dead-lettered. */
  lemma OnlyMatchingDelivered(w: World, n: string, p: nat)
    requires Valid(w) && n in w.state.subscriptions && p < |TraceOf(w, n)|
    requires TraceOf(w, n)[p].kind.Delivered? || TraceOf(w, n)[p].kind.DeadLettered?
    ensures var i := TraceOf(w, n)[p].index;
            i < |LogFor(w, n)| && FilterHolds(w.state.subscriptions[n].spec.filter, LogFor(w, n)[i].attributes)
  {
    SubscriptionValid(w, n);
    HandledMatches(TrackedOf(w, n), LogFor(w, n), w.state.minted, p);
    PassesIffHolds(w.state.subscriptions[n].spec.filter, LogFor(w, n)[TraceOf(w, n)[p].index].attributes);
  }

  /** A message that does not match is discarded at its first examination that is not blocked. */
  lemma MismatchDiscarded(w: Work, i: nat, now: Time)
    requires AtHand(w, i, now)
    requires !HeldUp(w.t.sub.spec, LogIn(w), w.t.epoch.trace, |w.t.epoch.trace|, i)
    requires !FilterHolds(w.t.sub.spec.filter, LogIn(w)[i].attributes)
    ensures var v := Examine(w, i, now);
            && v.t.sub.acked == w.t.sub.acked + {i} && v.t.sub.inflight == w.t.sub.inflight
            && v.t.sub.retryQueue == w.t.sub.retryQueue
            && v.topics == w.topics && v.deliveries == w.deliveries && v.minted == w.minted
  {
    HeldIsBlocked(w, i, now, w.t.epoch.trace);
    KeptOutIffNotHolds(w.t.sub.spec.filter, LogIn(w)[i].attributes);
    assert LifeOf(w.t.epoch.trace, i).deliveries == 0;
  }

  // ----- Publishing over runs -----

  /** In every reachable state a log has one message under an id for the table listing it, one for its
      having been generated into this log, and no more: so two if and only if both. */
  lemma ClientIdsOnce(w: World, topic: string, id: string)
    requires Valid(w) && topic in w.state.topics
    ensures var t := w.state.topics[topic];
            && Count(t.messages, id) == Listed(t, id) + (if GeneratedHere(t, id) then 1 else 0)
            && (Count(t.messages, id) == 2 <==> id in t.seenIds && GeneratedHere(t, id))
            && (GeneratedHere(t, id) ==> Drawn(id, w.state.minted))
            && Chronological(t.messages, w.clock)
  {
    assert TopicSound(w.state.topics[topic], w.state.minted, w.clock);
    assert IdRight(w.state.topics[topic], w.state.minted, id);
  }

  /** What is generated into a log by a publish: exactly the ids in the reply to messages without a
      client id. */
  lemma PublishGenerates(env: Env, w: World, topic: string, batch: seq<NewMessage>, v: World, ids: seq<string>,
                         id: string)
    requires Valid(w) && DoPublish(env, w, topic, batch) == (v, Published(ids))
    ensures topic in w.state.topics && topic in v.state.topics && |ids| == |batch|
    ensures GeneratedHere(v.state.topics[topic], id)
       <==> GeneratedHere(w.state.topics[topic], id)
            || exists j :: 0 <= j < |batch| && ClientId(batch[j]) == "" && ids[j] == id
  {
    var a := Append(w.state.topics[topic], w.state.minted, []);
    assert TopicSound(a.topic, a.minted, w.clock);
    BatchGenerates(env, topic, a, batch, |batch|, w.clock, id);
    assert batch[..|batch|] == batch;
  }

  /** Who publishes a message again under the id it was given, as a consumer may that passes on what it
      received, adds a second message under that id: the table did not list it. */
  lemma RepublishUnderGeneratedId(env: Env, w: World, topic: string, m: NewMessage, again: NewMessage, id: string,
                                  v: World, x: World, ids: seq<string>)
    requires Valid(w) && Valid(v) && Valid(x) && ClientId(m) == "" && again.messageId == id && id != ""
    requires DoPublish(env, w, topic, [m]) == (v, Published([id]))
    requires DoPublish(env, v, topic, [again]) == (x, Published(ids))
    ensures topic in x.state.topics && Count(x.state.topics[topic].messages, id) == 2
  {
    PublishGenerates(env, w, topic, [m], v, [id], id);
    assert ClientId([m][0]) == "" && [id][0] == id;
    PublishGenerates(env, v, topic, [again], x, ids, id);
    ListedByPublish(env, v, topic, again, x, ids);
    ClientIdsOnce(x, topic, id);
  }

  lemma ListedByPublish(env: Env, w: World, topic: string, m: NewMessage, v: World, ids: seq<string>)
    requires DoPublish(env, w, topic, [m]) == (v, Published(ids)) && ClientId(m) != ""
    ensures topic in v.state.topics && ClientId(m) in v.state.topics[topic].seenIds
  {
    SingleMessage(env, topic, Append(w.state.topics[topic], w.state.minted, []), m, w.clock);
    EnrichOnlyAdds(env, topic, m);
  }

  /** A topic that only gains messages. */
  lemma GrowthGenerates(t: Topic, u: Topic, minted: nat, id: string)
    requires IdRight(t, minted, id) && u == t.(messages := u.messages) && t.messages <= u.messages
    ensures GeneratedHere(u, id) <==> GeneratedHere(t, id) || Count(u.messages[|t.messages|..], id) > 0
  {
    assert u.messages == t.messages + u.messages[|t.messages|..];
    CountConcat(t.messages, u.messages[|t.messages|..], id);
  }

  lemma PullKeepsTables(w: World, name: string, max: u32, order: seq<string>, topic: string)
    requires Valid(w) && name in w.state.subscriptions && topic in w.state.topics
    ensures var v := PullWork(w, name, max, order);
            && topic in v.topics && w.state.topics[topic].messages <= v.topics[topic].messages
            && v.topics[topic] == w.state.topics[topic].(messages := v.topics[topic].messages)
  {
    PullReply(w, name, max, order);
    PullWorkSound(w, name, max, order);
    var t := TrackedOf(w, name);
    var before := StartWork(w.state, Reclaim(t, VisitOrder(order, Expired(t.sub.inflight, w.clock)), w.clock));
    assert BurialsRight(before, PullWork(w, name, max, order), w.clock);
  }

  /** By a pull: exactly the ids of the dead letters appended. */
  lemma PullGenerates(w: World, name: string, max: u32, order: seq<string>, topic: string, id: string)
    requires Valid(w) && name in w.state.subscriptions && topic in w.state.topics
    ensures var was, v := w.state.topics[topic], PullWork(w, name, max, order);
            && topic in v.topics && was.messages <= v.topics[topic].messages
            && (GeneratedHere(v.topics[topic], id)
                <==> GeneratedHere(was, id) || Count(v.topics[topic].messages[|was.messages|..], id) > 0)
  {
    PullKeepsTables(w, name, max, order, topic);
    assert TopicSound(w.state.topics[topic], w.state.minted, w.clock);
    assert IdRight(w.state.topics[topic], w.state.minted, id);
    GrowthGenerates(w.state.topics[topic], PullWork(w, name, max, order).topics[topic], w.state.minted, id);
  }

  lemma {:induction false} CountConcat(a: seq<Message>, b: seq<Message>, id: string)
    ensures Count(a + b, id) == Count(a, id) + Count(b, id)
  {
    if b == [] {
      assert a + b == a;
    } else {
      CountConcat(a, b[..|b| - 1], id);
      assert (a + b)[..|a + b| - 1] == a + b[..|b| - 1];
    }
  }

  /** A batch is refused if and only if one of its messages would be refused alone, with a schema in
      place if and only if one payload is invalid; and then nothing changes. */
  lemma RefusedIfOneWouldBe(env: Env, w: World, topic: string, batch: seq<NewMessage>)
    requires batch != []
    ensures DoPublish(env, w, topic, batch).1.Failed?
       <==> exists k :: 0 <= k < |batch| && DoPublish(env, w, topic, [batch[k]]).1.Failed?
    ensures DoPublish(env, w, topic, batch).1.Failed? ==> DoPublish(env, w, topic, batch).0 == w
    ensures topic in w.state.topics && w.state.topics[topic].schemaName in w.state.schemas - {""} ==>
              (DoPublish(env, w, topic, batch).1.Failed?
               <==> exists k :: 0 <= k < |batch| && !env.valid(w.state.topics[topic].schemaName, batch[k].data))
  {
    if DoPublish(env, w, topic, batch).1.Failed? {
      if !DoPublish(env, w, topic, [batch[0]]).1.Failed? {
        var k :| 0 <= k < |batch| && !env.valid(w.state.topics[topic].schemaName, batch[k].data);
        assert [batch[k]][0] == batch[k];
        assert DoPublish(env, w, topic, [batch[k]]).1.Failed?;
      }
    } else {
      forall k | 0 <= k < |batch| ensures !DoPublish(env, w, topic, [batch[k]]).1.Failed? {
        assert [batch[k]][0] == batch[k];
      }
    }
  }

  lemma ErrorTogether(env: Env, s: State, s': State, topic: string, b: seq<NewMessage>, c: seq<NewMessage>)
    requires topic in s.topics && topic in s'.topics && PublishError(env, s, topic, b).None?
    requires s'.schemas == s.schemas && s'.topics[topic].schemaName == s.topics[topic].schemaName
    ensures PublishError(env, s, topic, b + c) == PublishError(env, s', topic, c)
  {
    assert forall k :: 0 <= k < |b + c| ==> (b + c)[k] == if k < |b| then b[k] else c[k - |b|];
    assert forall k :: 0 <= k < |c| ==> (b + c)[|b| + k] == c[k];
  }

  lemma ErrorStays(env: Env, s: State, topic: string, b: seq<NewMessage>, c: seq<NewMessage>)
    requires PublishError(env, s, topic, b).Some?
    ensures PublishError(env, s, topic, b + c) == PublishError(env, s, topic, b)
  {
    assert forall k :: 0 <= k < |b| ==> (b + c)[k] == b[k];
  }

  /** A publish is all or nothing: if any part of the batch would be refused the whole is, with the
      same error and no trace; otherwise the parts can be published one after the other. */
  lemma PublishAllOrNothing(env: Env, w: World, topic: string, b: seq<NewMessage>, c: seq<NewMessage>)
    ensures var (v, first) := DoPublish(env, w, topic, b);
            var (x, both) := DoPublish(env, w, topic, b + c);
            && (both.Failed? ==> x == w)
            && (first.Failed? ==> both == first)
            && (first.Published? ==>
                  var second := DoPublish(env, v, topic, c).1;
                  (both.Failed? <==> second.Failed?) && (both.Failed? ==> both == second))
  {
    if PublishError(env, w.state, topic, b).Some? {
      ErrorStays(env, w.state, topic, b, c);
    } else {
      AppendKeepsSchema(env, topic, Append(w.state.topics[topic], w.state.minted, []), b, w.clock);
      ErrorTogether(env, w.state, DoPublish(env, w, topic, b).0.state, topic, b, c);
    }
  }

  /** Appending one batch after another at another time, with replies of their own, and appending
      both at once. */
  lemma AppendTogetherOrApart(env: Env, topic: string, a: Append, b: seq<NewMessage>, c: seq<NewMessage>,
                              now: Time, later: Time, d: Append, e: Append)
    requires d == AppendAll(env, topic, a, b, now) && e == AppendAll(env, topic, d.(ids := []), c, later)
    ensures SameAppend(e.(ids := d.ids + e.ids), AppendAll(env, topic, a, b + c, now))
  {
    PublishConcat(env, topic, a, b, c, now);
    ReplyOffset(env, topic, d, c, now);
    AppendAnyTime(env, topic, d.(ids := []), d.(ids := []), c, later, now);
  }

  /** What a successful publish makes of the world: `a` is the append it comes to. */
  ghost predicate Publishes(w: World, topic: string, a: Append, v: World, ids: seq<string>) {
    && topic in w.state.topics && ids == a.ids
    && v == w.(state := w.state.(topics := w.state.topics[topic := a.topic], minted := a.minted))
  }

  lemma PublishedAs(env: Env, w: World, topic: string, batch: seq<NewMessage>, v: World, ids: seq<string>)
    requires DoPublish(env, w, topic, batch) == (v, Published(ids))
    ensures PublishError(env, w.state, topic, batch).None? && topic in w.state.topics
    ensures Publishes(w, topic, AppendAll(env, topic, Append(w.state.topics[topic], w.state.minted, []), batch, w.clock),
                      v, ids)
  {
  }

  /** If two publishes succeed, so does one of both batches. */
  lemma TogetherSucceeds(env: Env, w: World, topic: string, b: seq<NewMessage>, c: seq<NewMessage>, v: World,
                         first: seq<string>)
    requires DoPublish(env, w, topic, b) == (v, Published(first))
    requires PublishError(env, v.state, topic, c).None?
    ensures DoPublish(env, w, topic, b + c).1.Published?
  {
    AppendKeepsSchema(env, topic, Append(w.state.topics[topic], w.state.minted, []), b, w.clock);
    ErrorTogether(env, w.state, v.state, topic, b, c);
  }

  /** The same broker, up to the clock and the times of the messages of one topic. */
  ghost predicate SameButTimes(u: World, x: World, topic: string) {
    && topic in u.state.topics && topic in x.state.topics
    && SameTopic(u.state.topics[topic], x.state.topics[topic])
    && u.state == x.state.(topics := x.state.topics[topic := u.state.topics[topic]])
    && u.epochs == x.epochs
  }

  lemma SameWorlds(w: World, topic: string, d: Append, v: World, first: seq<string>, elapsed: nat,
                   e: Append, u: World, second: seq<string>, f: Append, x: World, ids: seq<string>)
    requires Publishes(w, topic, d, v, first) && Publishes(v.(clock := v.clock + elapsed), topic, e, u, second)
    requires Publishes(w, topic, f, x, ids) && SameAppend(e.(ids := d.ids + e.ids), f)
    ensures ids == first + second && SameButTimes(u, x, topic)
  {
    assert w.state.topics[topic := d.topic][topic := e.topic] == w.state.topics[topic := e.topic];
    assert w.state.topics[topic := f.topic][topic := e.topic] == w.state.topics[topic := e.topic];
  }

  /** Two publishes that succeed, the second any time after the first, and one of both batches
      come to the same, up to the times of the messages. */
  lemma PublishTogetherOrApart(env: Env, w: World, topic: string, b: seq<NewMessage>, c: seq<NewMessage>,
                               v: World, first: seq<string>, elapsed: nat, u: World, second: seq<string>,
                               x: World, reply: Reply)
    requires DoPublish(env, w, topic, b) == (v, Published(first))
    requires DoPublish(env, v.(clock := v.clock + elapsed), topic, c) == (u, Published(second))
    requires DoPublish(env, w, topic, b + c) == (x, reply)
    ensures reply == Published(first + second) && SameButTimes(u, x, topic)
  {
    PublishedAs(env, w, topic, b, v, first);
    PublishedAs(env, v.(clock := v.clock + elapsed), topic, c, u, second);
    TogetherSucceeds(env, w, topic, b, c, v, first);
    PublishedAs(env, w, topic, b + c, x, reply.ids);
    var a := Append(w.state.topics[topic], w.state.minted, []);
    var d := AppendAll(env, topic, a, b, w.clock);
    assert Append(v.state.topics[topic], v.state.minted, []) == d.(ids := []);
    var e := AppendAll(env, topic, d.(ids := []), c, w.clock + elapsed);
    AppendTogetherOrApart(env, topic, a, b, c, w.clock, w.clock + elapsed, d, e);
    SameWorlds(w, topic, d, v, first, elapsed, e, u, second, AppendAll(env, topic, a, b + c, w.clock), x, reply.ids);
  }

  lemma {:induction false} AppendKeepsSchema(env: Env, topic: string, a: Append, batch: seq<NewMessage>, now: Time)
    ensures AppendAll(env, topic, a, batch, now).topic.schemaName == a.topic.schemaName
  {
    if batch != [] {
      AppendKeepsSchema(env, topic, a, batch[..|batch| - 1], now);
    }
  }

  // ----- Stuck messages -----

  ghost predicate IsLost(t: Tracked, i: nat) {
    LifeOf(t.epoch.trace, i).phase.Lost?
  }

  /** `j` lies before the epoch or is lost. */
  ghost predicate OutOfReach(t: Tracked, j: nat) {
    j < t.epoch.start || IsLost(t, j)
  }

  /** Message `i` is lost, or ordering is on and an earlier message of its key is out of reach. */
  ghost predicate Stuck(t: Tracked, log: seq<Message>, i: nat) {
    IsLost(t, i) || (t.sub.spec.ordering && exists j: nat :: j < i && SameKey(log, i, j) && OutOfReach(t, j))
  }

  lemma StuckUnsettled(t: Tracked, log: seq<Message>, minted: nat, i: nat)
    requires Sound(t, log, minted) && (t.sub.spec.ordering ==> t.epoch.ordered) && Stuck(t, log, i)
    ensures i !in t.sub.acked && i !in LeasedIn(t.sub.inflight)
  {
    assert Agrees(t, i);
    if !IsLost(t, i) {
      var j: nat :| j < i && SameKey(log, i, j) && OutOfReach(t, j);
      assert Agrees(t, j);
    }
  }

  /** With ordering on for the whole epoch (or off now) a stuck message is never leased and never
      settled: not one behind a message before the last seek, not one behind a lost message. */
  lemma StuckNeverSettles(w: World, n: string, i: nat)
    requires Valid(w) && n in w.state.subscriptions
    requires w.state.subscriptions[n].spec.ordering ==> w.epochs[n].ordered
    requires Stuck(TrackedOf(w, n), LogFor(w, n), i)
    ensures var s := w.state.subscriptions[n];
            i !in s.acked && i !in LeasedIn(s.inflight)
  {
    SubscriptionValid(w, n);
    StuckUnsettled(TrackedOf(w, n), LogFor(w, n), w.state.minted, i);
  }
}
