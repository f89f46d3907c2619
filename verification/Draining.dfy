/** Liveness: a consumer that pulls and acknowledges in time settles all that is not stuck, from any state,
    and at least one more message in every round once nothing is leased and every retry is due. */
module Draining {
  import opened Basics
  import opened Model
  import opened Lifecycle
  import opened Tracking
  import opened Consumer
  import opened Pulling
  import opened PullSafety
  import opened PullResults
  import opened Publishing
  import opened Broker
  import opened Guarantees
  import opened Backlog

  // ----- A quiescent subscription -----

  ghost predicate AllDue(queue: seq<RetryEntry>, due: Time) {
    forall r :: r in queue ==> r.availableAt <= due
  }

  predicate BuriesElsewhere(spec: SubscriptionSpec) {
    spec.deadLetter.Some? ==> spec.deadLetter.value.topic != spec.topic
  }

  /** Nothing is leased, every retry is due by then, and dead letters go elsewhere. */
  ghost predicate Quiescent(t: Tracked, due: Time) {
    t.sub.inflight == map[] && AllDue(t.sub.retryQueue, due) && BuriesElsewhere(t.sub.spec)
  }

  /** The messages of the epoch that are neither settled nor stuck. */
  ghost function Outstanding(t: Tracked, log: seq<Message>): set<nat> {
    set i | i in Upto(|log|) && t.epoch.start <= i && i !in t.sub.acked && !Stuck(t, log, i)
  }

  /** From `t` to `u` the same messages are lost and stuck, and no stuck one has been settled. */
  ghost predicate Onward(t: Tracked, u: Tracked, log: seq<Message>) {
    && u.sub.spec == t.sub.spec && u.epoch.start == t.epoch.start
    && t.sub.acked <= u.sub.acked
    && (forall i: nat :: IsLost(u, i) <==> IsLost(t, i))
    && (forall i: nat :: Stuck(t, log, i) && i in u.sub.acked ==> i in t.sub.acked)
  }

  lemma SameStuck(t: Tracked, u: Tracked, log: seq<Message>, i: nat)
    requires Onward(t, u, log)
    ensures Stuck(u, log, i) <==> Stuck(t, log, i)
  {
    if j: nat :| j < i && SameKey(log, i, j) && OutOfReach(u, j) {
      assert OutOfReach(t, j);
    }
    if j: nat :| j < i && SameKey(log, i, j) && OutOfReach(t, j) {
      assert OutOfReach(u, j);
    }
  }

  lemma OnwardAgain(t: Tracked, u: Tracked, v: Tracked, log: seq<Message>)
    requires Onward(t, u, log) && Onward(u, v, log)
    ensures Onward(t, v, log)
  {
    forall i: nat | Stuck(t, log, i) && i in v.sub.acked ensures i in t.sub.acked {
      SameStuck(t, u, log, i);
    }
  }

  lemma FewerOutstanding(t: Tracked, u: Tracked, log: seq<Message>)
    requires Onward(t, u, log)
    ensures Outstanding(u, log) <= Outstanding(t, log)
  {
    forall i | i in Outstanding(u, log) ensures i in Outstanding(t, log) {
      SameStuck(t, u, log, i);
    }
  }

  // ----- The pull of a round -----

  /** What the loop leaves as it was, and what it keeps true. */
  ghost predicate StillCalm(before: Work, w: Work, due: Time) {
    && AllDue(w.t.sub.retryQueue, due)
    && LogIn(w) == LogIn(before)
    && Onward(before.t, w.t, LogIn(before))
    && (forall i: nat :: Stuck(before.t, LogIn(before), i) ==> i !in LeasedIn(w.t.sub.inflight))
  }

  lemma LostAfter(h: History, e: Event)
    requires !e.kind.AckedLate? && !LifeOf(h, e.index).phase.Lost?
    ensures forall i: nat :: LifeOf(h + [e], i).phase.Lost? <==> LifeOf(h, i).phase.Lost?
  {
    LifeAfter(h, e);
  }

  /** A stuck index that is examined is found blocked. */
  lemma StuckIsHeld(before: Work, w: Work, i: nat, now: Time, due: Time)
    requires AtHand(w, i, now) && StillCalm(before, w, due) && Stuck(before.t, LogIn(before), i)
    ensures Judge(w.t.sub, w.topics, LogIn(w), i).Hold?
  {
    assert !IsLost(w.t, i);
    var j: nat :| j < i && SameKey(LogIn(w), i, j) && OutOfReach(before.t, j);
    assert Agrees(w.t, j);
    assert IsLost(w.t, j) <==> IsLost(before.t, j);
    assert IsBlocked(w.t.sub, LogIn(w), i);
  }

  lemma ExamineLeases(w: Work, i: nat, now: Time)
    requires i < |LogIn(w)|
    ensures var v := Examine(w, i, now);
            && LeasedIn(v.t.sub.inflight) <= LeasedIn(w.t.sub.inflight) + {i}
            && w.t.sub.acked <= v.t.sub.acked <= w.t.sub.acked + {i}
            && (Judge(w.t.sub, w.topics, LogIn(w), i).Hold? ==>
                 v.t.sub.inflight == w.t.sub.inflight && v.t.sub.acked == w.t.sub.acked)
            && (forall r :: r in v.t.sub.retryQueue ==> r in w.t.sub.retryQueue || r == RetryEntry(i, now))
  {
  }

  lemma ExamineRecords(w: Work, i: nat, now: Time) returns (e: Event)
    requires i < |LogIn(w)|
    ensures Examine(w, i, now).t.epoch == Record(w.t.epoch, e) && e.index == i && !e.kind.AckedLate?
    ensures Examine(w, i, now).t.sub.spec == w.t.sub.spec
  {
    e := Examine(w, i, now).t.epoch.trace[|w.t.epoch.trace|];
  }

  lemma ExamineKeepsLog(w: Work, i: nat, now: Time)
    requires i < |LogIn(w)|
    requires BuriesElsewhere(w.t.sub.spec)
    ensures LogIn(Examine(w, i, now)) == LogIn(w)
  {
  }

  lemma ExamineCalm(before: Work, w: Work, i: nat, now: Time, due: Time)
    requires AtHand(w, i, now) && StillCalm(before, w, due) && now <= due
    requires BuriesElsewhere(w.t.sub.spec)
    ensures StillCalm(before, Examine(w, i, now), due)
  {
    var e := ExamineRecords(w, i, now);
    LostAfter(w.t.epoch.trace, e);
    ExamineKeepsLog(w, i, now);
    ExamineLeases(w, i, now);
    if Stuck(before.t, LogIn(before), i) {
      StuckIsHeld(before, w, i, now, due);
    }
    CalmWhen(before, w, i, now, due, Examine(w, i, now));
  }

  lemma CalmWhen(before: Work, w: Work, i: nat, now: Time, due: Time, v: Work)
    requires StillCalm(before, w, due) && now <= due
    requires LogIn(v) == LogIn(w) && v.t.sub.spec == w.t.sub.spec && v.t.epoch.start == w.t.epoch.start
    requires forall j: nat :: IsLost(v.t, j) <==> IsLost(w.t, j)
    requires LeasedIn(v.t.sub.inflight) <= LeasedIn(w.t.sub.inflight) + {i}
    requires w.t.sub.acked <= v.t.sub.acked <= w.t.sub.acked + {i}
    requires Stuck(before.t, LogIn(before), i) ==>
               LeasedIn(v.t.sub.inflight) == LeasedIn(w.t.sub.inflight) && v.t.sub.acked == w.t.sub.acked
    requires forall r :: r in v.t.sub.retryQueue ==> r in w.t.sub.retryQueue || r == RetryEntry(i, now)
    ensures StillCalm(before, v, due)
  {
  }

  lemma TurnCalm(before: Work, w: Work, now: Time, due: Time, topicLen: nat)
    requires WorkSound(w) && topicLen <= |LogIn(w)| && InBounds(w, topicLen)
    requires Turn(w, now, topicLen).Some? && StillCalm(before, w, due) && now <= due
    requires BuriesElsewhere(w.t.sub.spec)
    ensures StillCalm(before, Turn(w, now, topicLen).value, due)
  {
    var v, i := TurnExamines(w, now, topicLen);
    assert forall r :: r in v.t.sub.retryQueue ==> r in w.t.sub.retryQueue;
    CalmWhen(before, w, i, now, due, v);
    ExamineCalm(before, v, i, now, due);
  }

  lemma {:induction false} LoopCalm(before: Work, w: Work, now: Time, due: Time, limit: nat, topicLen: nat)
    requires WorkSound(w) && topicLen <= |LogIn(w)| && InBounds(w, topicLen)
    requires StillCalm(before, w, due) && now <= due
    requires BuriesElsewhere(w.t.sub.spec)
    ensures StillCalm(before, PullLoop(w, now, limit, topicLen), due)
    decreases Measure(w, now, topicLen)
  {
    if |w.deliveries| < limit && Turn(w, now, topicLen).Some? {
      TurnSound(w, now, topicLen);
      TurnLessens(w, now, topicLen);
      TurnInBounds(w, now, topicLen);
      TurnCalm(before, w, now, due, topicLen);
      LoopCalm(before, Turn(w, now, topicLen).value, now, due, limit, topicLen);
    }
  }

  lemma CalmStarts(before: Work, due: Time)
    requires Quiescent(before.t, due)
    ensures StillCalm(before, before, due)
  {
  }

  /** Behind a stuck message of the same key a message is stuck. */
  lemma StuckBehind(t: Tracked, log: seq<Message>, i: nat, j: nat)
    requires t.sub.spec.ordering && j < i && SameKey(log, i, j)
    requires j < t.epoch.start || Stuck(t, log, j)
    ensures Stuck(t, log, i)
  {
    if j < t.epoch.start || IsLost(t, j) {
      assert OutOfReach(t, j);
    } else {
      var k: nat :| k < j && SameKey(log, j, k) && OutOfReach(t, k);
      assert SameKey(log, i, k);
    }
  }

  /** After an idle pull a message neither settled nor lost is waiting and was found blocked. */
  lemma IdleIsBlocked(before: Work, v: Work, now: Time, limit: nat, i: nat)
    requires Quiescent(before.t, now) && WorkSound(v) && StillCalm(before, v, now)
    requires limit >= 1 && Ends(before, v, now, limit, |LogIn(before)|)
    requires v.deliveries == []
    requires v.t.epoch.start <= i < |LogIn(before)| && i !in v.t.sub.acked && !IsLost(v.t, i)
    ensures WasBlocked(before, v, i)
  {
    assert v.t.sub.inflight == map[] by {
      assert forall k :: k in v.t.sub.inflight ==> k in before.t.sub.inflight;
    }
    assert LeasedIn(v.t.sub.inflight) == {};
    assert Agrees(v.t, i);
    assert i in QueuedIn(v.t.sub.retryQueue);
    var p :| 0 <= p < |v.t.sub.retryQueue| && v.t.sub.retryQueue[p].index == i;
    assert v.t.sub.retryQueue[p] in v.t.sub.retryQueue;
  }

  /** A pull that hands nothing out and settles nothing has nothing left to do: an unsettled
      message that is not stuck would be blocked by an earlier such one, and so on for ever. */
  lemma {:induction false} IdlePullMeansDone(before: Work, v: Work, now: Time, limit: nat, i: nat)
    requires Quiescent(before.t, now) && WorkSound(v) && StillCalm(before, v, now)
    requires limit >= 1 && Ends(before, v, now, limit, |LogIn(before)|)
    requires v.deliveries == [] && v.t.sub.acked == before.t.sub.acked
    requires v.t.epoch.start <= i < |LogIn(before)|
    ensures i in v.t.sub.acked || Stuck(v.t, LogIn(before), i)
    decreases i
  {
    if i !in v.t.sub.acked && !IsLost(v.t, i) {
      IdleIsBlocked(before, v, now, limit, i);
      var j: nat, p: nat :| BlockedBy(before, v, i, j, p);
      if j >= v.t.epoch.start {
        IdlePullMeansDone(before, v, now, limit, j);
      }
      StuckBehind(v.t, LogIn(before), i, j);
    }
  }

  // ----- The acknowledgement of a round -----

  function AckIds(deliveries: seq<Delivery>): (ids: seq<string>)
    ensures |ids| == |deliveries| && forall d :: 0 <= d < |ids| ==> ids[d] == deliveries[d].ackId
  {
    seq(|deliveries|, d requires 0 <= d < |deliveries| => deliveries[d].ackId)
  }

  /** An acknowledgement this long after the delivery is in time: only exactly-once sets a limit,
      the subscription's deadline. */
  predicate Timely(spec: SubscriptionSpec, after: nat) {
    spec.exactlyOnce ==> after <= SECOND * NormalizeAckDeadline(spec.ackDeadlineSeconds)
  }

  /** The ids are distinct and name leases that can be acknowledged at `now`. */
  ghost predicate InTime(sub: Subscription, ids: seq<string>, now: Time) {
    && (forall d :: 0 <= d < |ids| ==> ids[d] in sub.inflight && !IsLate(sub, ids[d], now))
    && (forall c, d :: 0 <= c < d < |ids| ==> ids[c] != ids[d])
  }

  lemma RestInTime(sub: Subscription, ids: seq<string>, now: Time, rest: Subscription)
    requires InTime(sub, ids, now) && ids != []
    requires rest.inflight == sub.inflight - {ids[0]} && rest.spec == sub.spec
    ensures InTime(rest, ids[1..], now)
  {
    assert forall d :: 0 <= d < |ids[1..]| ==> ids[1..][d] == ids[d + 1];
  }

  lemma AckOneOnward(t: Tracked, k: string, now: Time, log: seq<Message>)
    requires k in t.sub.inflight && !IsLost(t, t.sub.inflight[k].index)
    ensures var u := AckOne(t, k, now, log);
            && u.sub.acked == t.sub.acked + {t.sub.inflight[k].index}
            && u.sub.inflight == t.sub.inflight - {k}
            && LeasedIn(u.sub.inflight) <= LeasedIn(t.sub.inflight)
            && t.sub.inflight[k].index in LeasedIn(t.sub.inflight)
            && (forall i: nat :: IsLost(u, i) <==> IsLost(t, i))
  {
    LostAfter(t.epoch.trace, Event(t.sub.inflight[k].index, now, Acked));
  }

  /** What acknowledging in time does: exactly leased messages are settled, and none is lost. */
  ghost predicate AckedWell(t: Tracked, u: Tracked) {
    && u.sub.retryQueue == t.sub.retryQueue && u.sub.spec == t.sub.spec
    && u.epoch.start == t.epoch.start
    && t.sub.acked <= u.sub.acked <= t.sub.acked + LeasedIn(t.sub.inflight)
    && (forall i: nat :: IsLost(u, i) <==> IsLost(t, i))
  }

  lemma {:induction false} AckInTime(t: Tracked, ids: seq<string>, now: Time, log: seq<Message>, minted: nat)
    requires Sound(t, log, minted) && InTime(t.sub, ids, now)
    ensures var (u, ok) := AckAll(t, ids, now, log);
            && ok && AckedWell(t, u)
            && u.sub.inflight == Without(t.sub.inflight, ids)
            && (ids != [] ==> t.sub.inflight[ids[0]].index in u.sub.acked)
    decreases |ids|
  {
    if ids != [] {
      var u := AckOne(t, ids[0], now, log);
      assert t.sub.inflight[ids[0]].index in LeasedIn(t.sub.inflight);
      assert Agrees(t, t.sub.inflight[ids[0]].index);
      AckOneOnward(t, ids[0], now, log);
      AckOneSound(t, ids[0], now, log, minted);
      RestInTime(t.sub, ids, now, u.sub);
      AckInTime(u, ids[1..], now, log, minted);
    }
  }

  lemma DeliveredInTime(before: Work, v: Work, now: Time, later: Time)
    requires DeliveriesRight(before, v, now) && before.t.sub.inflight == map[]
    requires now <= later && Timely(v.t.sub.spec, later - now)
    ensures InTime(v.t.sub, AckIds(v.deliveries), later)
    ensures Without(v.t.sub.inflight, AckIds(v.deliveries)) == map[]
  {
    var ids := AckIds(v.deliveries);
    forall d | 0 <= d < |ids|
      ensures ids[d] in v.t.sub.inflight && !IsLate(v.t.sub, ids[d], later)
      ensures v.t.sub.inflight[ids[d]].index == v.handed[d]
    {
      assert Delivers(v, v.deliveries[d], v.handed[d], now);
    }
    forall c, d | 0 <= c < d < |ids| ensures ids[c] != ids[d] {
      assert v.handed[c] != v.handed[d];
    }
    WithoutIs(v.t.sub.inflight, ids);
    forall k | k in v.t.sub.inflight ensures k in ids {
      var d :| 0 <= d < |v.deliveries| && v.deliveries[d].ackId == k;
      assert ids[d] == k;
    }
  }

  // ----- One round, on the subscription -----

  /** The subscription after a pull and the acknowledgement of all it returned; if every retry was
      due then, at least one outstanding message has been settled. */
  lemma RoundSettles(before: Work, v: Work, u: Tracked, now: Time, due: Time, limit: nat, later: Time,
                     log: seq<Message>)
    requires Sound(before.t, log, before.minted) && LogIn(before) == log && Quiescent(before.t, due)
    requires WorkSound(v) && StillCalm(before, v, due) && now <= due && limit >= 1
    requires Ends(before, v, now, limit, |log|)
    requires now <= later && Timely(before.t.sub.spec, later - now)
    requires u == AckAll(v.t, AckIds(v.deliveries), later, log).0
    ensures Quiescent(u, due) && Onward(before.t, u, log)
    ensures due == now && Outstanding(before.t, log) != {} ==> Outstanding(u, log) != Outstanding(before.t, log)
  {
    DeliveredInTime(before, v, now, later);
    AckInTime(v.t, AckIds(v.deliveries), later, log, v.minted);
    OnwardAfterAck(before, v, u, due, log);
    if due == now && Outstanding(before.t, log) != {} {
      var i := SettledInRound(before, v, u, now, limit, log);
      assert i in Outstanding(before.t, log) && i !in Outstanding(u, log);
    }
  }

  lemma OnwardAfterAck(before: Work, v: Work, u: Tracked, due: Time, log: seq<Message>)
    requires LogIn(before) == log && StillCalm(before, v, due) && AckedWell(v.t, u)
    ensures Onward(before.t, u, log)
  {
  }

  // ----- Leases that run out -----

  /** By `now` every lease has expired; by `due` every retry may go out, including those that the
      expired leases turn into. */
  ghost predicate Clears(t: Tracked, now: Time, due: Time) {
    && (forall k :: k in t.sub.inflight ==> t.sub.inflight[k].deadline <= now)
    && AllDue(t.sub.retryQueue, due) && now <= due && BuriesElsewhere(t.sub.spec)
    && (t.sub.inflight == map[] || now + SECOND * MaxBackoff(t.sub.spec.retry) <= due)
  }

  lemma BackoffBounded(retry: Option<RetrySpec>, attempt: nat)
    ensures BackoffSeconds(retry, attempt) <= MaxBackoff(retry)
  {
  }

  lemma ReclaimOneOnward(t: Tracked, k: string, now: Time, due: Time, log: seq<Message>, minted: nat)
    requires Sound(t, log, minted) && k in t.sub.inflight && t.sub.inflight[k].deadline <= now
    requires AllDue(t.sub.retryQueue, due) && now + SECOND * MaxBackoff(t.sub.spec.retry) <= due
    ensures var u := ReclaimOne(t, k, now);
            AllDue(u.sub.retryQueue, due) && Onward(t, u, log)
  {
    ReclaimOneSound(t, k, now, log, minted);
    var i := t.sub.inflight[k].index;
    assert i in LeasedIn(t.sub.inflight);
    assert Agrees(t, i);
    LostAfter(t.epoch.trace, Event(i, now, Reclaimed(t.sub.spec.retry)));
    BackoffBounded(t.sub.spec.retry, AttemptForBackoff(t.sub, i));
  }

  lemma {:induction false} ReclaimOnward(t: Tracked, ids: seq<string>, now: Time, due: Time, log: seq<Message>,
                                         minted: nat)
    requires Sound(t, log, minted) && AllExpired(t.sub.inflight, ids, now)
    requires AllDue(t.sub.retryQueue, due)
    requires ids == [] || now + SECOND * MaxBackoff(t.sub.spec.retry) <= due
    ensures var u := Reclaim(t, ids, now);
            AllDue(u.sub.retryQueue, due) && Onward(t, u, log)
    decreases |ids|
  {
    if ids != [] {
      var u := ReclaimOne(t, ids[0], now);
      RestExpired(t.sub.inflight, ids, now);
      ReclaimOneSound(t, ids[0], now, log, minted);
      ReclaimOneOnward(t, ids[0], now, due, log, minted);
      ReclaimOnward(u, ids[1..], now, due, log, minted);
      OnwardAgain(t, u, Reclaim(t, ids, now), log);
    }
  }

  /** Some message outstanding before a round is settled in it. */
  lemma SettledInRound(before: Work, v: Work, u: Tracked, now: Time, limit: nat, log: seq<Message>)
    returns (i: nat)
    requires LogIn(before) == log && Quiescent(before.t, now) && Sound(before.t, log, before.minted)
    requires WorkSound(v) && StillCalm(before, v, now) && limit >= 1
    requires Ends(before, v, now, limit, |log|)
    requires v.t.sub.acked <= u.sub.acked
    requires v.deliveries != [] ==> v.deliveries[0].ackId in v.t.sub.inflight
    requires v.deliveries != [] ==> v.t.sub.inflight[v.deliveries[0].ackId].index in u.sub.acked
    requires Outstanding(before.t, log) != {}
    ensures i in Outstanding(before.t, log) && i in u.sub.acked
  {
    if v.deliveries != [] {
      assert Delivers(v, v.deliveries[0], v.handed[0], now);
      i := v.handed[0];
      assert i in LeasedIn(v.t.sub.inflight);
      assert Agrees(v.t, i);
    } else {
      i :| i in Outstanding(before.t, log);
      if v.t.sub.acked == before.t.sub.acked {
        IdlePullMeansDone(before, v, now, limit, i);
        SameStuck(before.t, v.t, log, i);
        assert false;
      } else {
        i :| i in v.t.sub.acked && i !in before.t.sub.acked;
        assert Agrees(v.t, i);
      }
    }
  }

  // ----- Rounds of the broker -----

  /** A pull after `wait`, and the acknowledgement of its deliveries after `ackAfter` more. */
  datatype Round = Round(max: u32, order: seq<string>, wait: nat, ackAfter: nat)

  function IdsIn(reply: Reply): seq<string> {
    match reply
    case Pulled(deliveries) => AckIds(deliveries)
    case _ => []
  }

  function Later(w: World, elapsed: nat): World {
    w.(clock := w.clock + elapsed)
  }

  ghost function AfterRound(w: World, name: string, r: Round): (v: World)
    requires Valid(w)
    ensures Valid(v)
  {
    TickValid(w, r.wait);
    PullValid(Later(w, r.wait), name, r.max, r.order);
    var pulled := DoPull(Later(w, r.wait), name, r.max, r.order);
    TickValid(pulled.0, r.ackAfter);
    AcknowledgeValid(Later(pulled.0, r.ackAfter), name, IdsIn(pulled.1));
    DoAcknowledge(Later(pulled.0, r.ackAfter), name, IdsIn(pulled.1)).0
  }

  lemma PullCall(env: Env, w: World, name: string, r: Round)
    requires Valid(w)
    ensures Valid(Later(w, r.wait))
    ensures Apply(env, w, Call(r.wait, Pull(name, r.max, r.order)))
         == DoPull(Later(w, r.wait), name, r.max, r.order)
  {
    TickValid(w, r.wait);
  }

  lemma AckCall(env: Env, w: World, name: string, after: nat, ids: seq<string>)
    requires Valid(w)
    ensures Apply(env, w, Call(after, Acknowledge(name, ids))) == DoAcknowledge(Later(w, after), name, ids)
  {
    TickValid(w, after);
  }

  /** A round is two calls of the broker. */
  lemma RoundIsTwoCalls(env: Env, w: World, name: string, r: Round, p: World, reply: Reply)
    requires Valid(w) && (p, reply) == Apply(env, w, Call(r.wait, Pull(name, r.max, r.order)))
    ensures AfterRound(w, name, r) == Apply(env, p, Call(r.ackAfter, Acknowledge(name, IdsIn(reply)))).0
  {
    PullCall(env, w, name, r);
    AckCall(env, p, name, r.ackAfter, IdsIn(reply));
  }

  ghost function AfterRounds(w: World, name: string, rounds: seq<Round>): (v: World)
    requires Valid(w)
    ensures Valid(v)
    decreases |rounds|
  {
    if rounds == [] then w else AfterRounds(AfterRound(w, name, rounds[0]), name, rounds[1..])
  }

  /** The subscription is there and quiescent. */
  ghost predicate CalmAt(w: World, name: string) {
    Valid(w) && name in w.state.subscriptions && Quiescent(TrackedOf(w, name), w.clock)
  }

  ghost function OutstandingAt(w: World, name: string): set<nat>
    requires Valid(w) && name in w.state.subscriptions
  {
    Outstanding(TrackedOf(w, name), LogFor(w, name))
  }

  lemma CalmLater(w: World, name: string, elapsed: nat)
    requires CalmAt(w, name)
    ensures CalmAt(Later(w, elapsed), name)
    ensures TrackedOf(Later(w, elapsed), name) == TrackedOf(w, name)
    ensures LogFor(Later(w, elapsed), name) == LogFor(w, name)
  {
    TickValid(w, elapsed);
    assert TrackedOf(Later(w, elapsed), name) == TrackedOf(w, name);
  }

  lemma {:induction false} EnumerationSize(order: seq<string>, ids: set<string>)
    requires Enumerates(order, ids)
    ensures |order| == |ids|
    decreases |order|
  {
    if order == [] {
      assert ids == {};
    } else {
      var rest := order[1..];
      assert forall p :: 0 <= p < |rest| ==> rest[p] == order[p + 1];
      forall k ensures k in ids - {order[0]} <==> k in rest {
        assert k in order <==> k == order[0] || k in rest;
      }
      EnumerationSize(rest, ids - {order[0]});
    }
  }

  /** The subscription is there, and clears. */
  ghost predicate ClearingAt(w: World, name: string, due: Time) {
    Valid(w) && name in w.state.subscriptions && Clears(TrackedOf(w, name), w.clock, due)
  }

  /** What a pull starts from once every lease has expired: nothing leased. */
  lemma Cleared(w: World, name: string, order: seq<string>, due: Time) returns (before: Work)
    requires ClearingAt(w, name, due)
    ensures var visit := VisitOrder(order, Expired(w.state.subscriptions[name].inflight, w.clock));
            before == StartWork(w.state, Reclaim(TrackedOf(w, name), visit, w.clock))
    ensures WorkSound(before) && LogIn(before) == LogFor(w, name)
    ensures Quiescent(before.t, due) && Onward(TrackedOf(w, name), before.t, LogFor(w, name))
    ensures w.state.subscriptions[name].inflight == map[] ==> before.t == TrackedOf(w, name)
  {
    var t := TrackedOf(w, name);
    var visit := VisitOrder(order, Expired(t.sub.inflight, w.clock));
    SubscriptionValid(w, name);
    EnumeratedExpired(t.sub.inflight, visit, w.clock);
    EnumerationSize(visit, Expired(t.sub.inflight, w.clock));
    assert Expired(t.sub.inflight, w.clock) == t.sub.inflight.Keys;
    ReclaimExpiredSound(w, name, visit);
    ReclaimOnward(t, visit, w.clock, due, LogFor(w, name), w.state.minted);
    before := StartWork(w.state, Reclaim(t, visit, w.clock));
  }

  /** What a pull then is. */
  lemma ClearPull(w: World, name: string, max: u32, order: seq<string>, due: Time) returns (before: Work, v: Work)
    requires ClearingAt(w, name, due)
    ensures v == PullWork(w, name, max, order)
    ensures LogIn(before) == LogFor(w, name) && before.minted == w.state.minted
    ensures Onward(TrackedOf(w, name), before.t, LogFor(w, name)) && Quiescent(before.t, due)
    ensures w.state.subscriptions[name].inflight == map[] ==> before.t == TrackedOf(w, name)
    ensures WorkSound(before) && WorkSound(v) && StillCalm(before, v, due)
    ensures Ends(before, v, w.clock, PullLimit(max), |LogIn(before)|)
  {
    before := Cleared(w, name, order, due);
    v := PullWork(w, name, max, order);
    WorkInBounds(before, |LogIn(before)|);
    ResultStarts(before, w.clock);
    PullLoopSound(before, w.clock, PullLimit(max), |LogIn(before)|);
    PullLoopRight(before, before, w.clock, PullLimit(max), |LogIn(before)|);
    CalmStarts(before, due);
    LoopCalm(before, before, w.clock, due, PullLimit(max), |LogIn(before)|);
  }

  lemma PullEffect(w: World, name: string, max: u32, order: seq<string>, v: Work)
    requires Valid(w) && name in w.state.subscriptions && v == PullWork(w, name, max, order)
    requires w.state.subscriptions[name].spec.topic in w.state.topics
    ensures var (p, reply) := DoPull(w, name, max, order);
            && Valid(p) && reply == Pulled(v.deliveries) && p.clock == w.clock
            && name in p.state.subscriptions && TrackedOf(p, name) == v.t
            && p.state.topics == v.topics && p.state.minted == v.minted
  {
    PullValid(w, name, max, order);
  }

  lemma AckEffect(w: World, name: string, ids: seq<string>)
    requires Valid(w) && name in w.state.subscriptions
    ensures var q := DoAcknowledge(w, name, ids).0;
            && Valid(q) && name in q.state.subscriptions && q.state.topics == w.state.topics
            && q.clock == w.clock && q.state.minted == w.state.minted
            && TrackedOf(q, name)
               == AckAll(TrackedOf(w, name), ids, w.clock, LogFor(w, name)).0
  {
    AcknowledgeValid(w, name, ids);
  }

  /** What a round does for a subscription that clears; if it is quiescent, it makes progress. */
  ghost predicate Progress(w: World, q: World, name: string, due: Time)
    requires Valid(w) && name in w.state.subscriptions
  {
    && Valid(q) && name in q.state.subscriptions && w.clock <= q.clock
    && Quiescent(TrackedOf(q, name), due)
    && LogFor(q, name) == LogFor(w, name)
    && Onward(TrackedOf(w, name), TrackedOf(q, name), LogFor(w, name))
    && (CalmAt(w, name) && due == w.clock && OutstandingAt(w, name) != {} ==>
          OutstandingAt(q, name) != OutstandingAt(w, name))
  }

  lemma AckRound(w: World, before: Work, v: Work, late: World, name: string, due: Time, limit: nat)
    requires ClearingAt(w, name, due) && LogIn(before) == LogFor(w, name) && before.minted == w.state.minted
    requires Onward(TrackedOf(w, name), before.t, LogFor(w, name)) && Quiescent(before.t, due)
    requires w.state.subscriptions[name].inflight == map[] ==> before.t == TrackedOf(w, name)
    requires WorkSound(before) && WorkSound(v) && StillCalm(before, v, due) && limit >= 1
    requires Ends(before, v, w.clock, limit, |LogIn(before)|)
    requires Valid(late) && name in late.state.subscriptions && TrackedOf(late, name) == v.t
    requires late.state.topics == v.topics && late.state.minted == v.minted
    requires w.clock <= late.clock && Timely(w.state.subscriptions[name].spec, late.clock - w.clock)
    ensures Progress(w, DoAcknowledge(late, name, AckIds(v.deliveries)).0, name, due)
  {
    var log := LogIn(before);
    var u := AckAll(v.t, AckIds(v.deliveries), late.clock, log).0;
    AckEffect(late, name, AckIds(v.deliveries));
    AckAllSound(v.t, AckIds(v.deliveries), late.clock, log, v.minted);
    RoundSettles(before, v, u, w.clock, due, limit, late.clock, log);
    OnwardAgain(TrackedOf(w, name), before.t, u, log);
    ProgressOf(w, DoAcknowledge(late, name, AckIds(v.deliveries)).0, name, due, before.t, u, log);
  }

  lemma ProgressOf(w: World, q: World, name: string, due: Time, t: Tracked, u: Tracked, log: seq<Message>)
    requires ClearingAt(w, name, due) && log == LogFor(w, name)
    requires w.state.subscriptions[name].inflight == map[] ==> t == TrackedOf(w, name)
    requires Valid(q) && name in q.state.subscriptions && TrackedOf(q, name) == u && w.clock <= q.clock
    requires log == LogOf(q.state.topics, u.sub.spec.topic)
    requires Quiescent(u, due) && Onward(TrackedOf(w, name), u, log)
    requires due == w.clock && Outstanding(t, log) != {} ==> Outstanding(u, log) != Outstanding(t, log)
    ensures Progress(w, q, name, due)
  {
  }

  lemma LaterStill(p: World, name: string, elapsed: nat)
    requires Valid(p) && name in p.state.subscriptions
    ensures Valid(Later(p, elapsed)) && TrackedOf(Later(p, elapsed), name) == TrackedOf(p, name)
  {
    TickValid(p, elapsed);
  }

  /** The pull of a round leaves `p`, with `reply`. */
  lemma PulledInRound(w: World, name: string, max: u32, order: seq<string>, p: World, reply: Reply, due: Time)
    returns (before: Work, v: Work)
    requires ClearingAt(w, name, due) && (p, reply) == DoPull(w, name, max, order)
    ensures LogIn(before) == LogFor(w, name) && before.minted == w.state.minted
    ensures Onward(TrackedOf(w, name), before.t, LogFor(w, name)) && Quiescent(before.t, due)
    ensures w.state.subscriptions[name].inflight == map[] ==> before.t == TrackedOf(w, name)
    ensures WorkSound(before) && WorkSound(v) && StillCalm(before, v, due)
    ensures Ends(before, v, w.clock, PullLimit(max), |LogIn(before)|)
    ensures Valid(p) && p.clock == w.clock && name in p.state.subscriptions && TrackedOf(p, name) == v.t
    ensures p.state.topics == v.topics && p.state.minted == v.minted && IdsIn(reply) == AckIds(v.deliveries)
  {
    SubscriptionValid(w, name);
    before, v := ClearPull(w, name, max, order, due);
    PullEffect(w, name, max, order, v);
  }

  lemma RoundHere(w: World, name: string, max: u32, order: seq<string>, p: World, reply: Reply, ackAfter: nat,
                  due: Time)
    requires ClearingAt(w, name, due) && Timely(w.state.subscriptions[name].spec, ackAfter)
    requires (p, reply) == DoPull(w, name, max, order)
    ensures Valid(p) && Valid(Later(p, ackAfter))
    ensures Progress(w, DoAcknowledge(Later(p, ackAfter), name, IdsIn(reply)).0, name, due)
  {
    var before, v := PulledInRound(w, name, max, order, p, reply, due);
    LaterStill(p, name, ackAfter);
    AckRound(w, before, v, Later(p, ackAfter), name, due, PullLimit(max));
  }

  lemma RoundProgress(w: World, name: string, r: Round, due: Time)
    requires Valid(w) && ClearingAt(Later(w, r.wait), name, due)
    requires Timely(w.state.subscriptions[name].spec, r.ackAfter)
    ensures Progress(Later(w, r.wait), AfterRound(w, name, r), name, due)
  {
    var pulled := DoPull(Later(w, r.wait), name, r.max, r.order);
    RoundHere(Later(w, r.wait), name, r.max, r.order, pulled.0, pulled.1, r.ackAfter, due);
  }

  lemma ProperSubsetSmaller(a: set<nat>, b: set<nat>)
    requires a <= b
    ensures |a| <= |b| && (a != b ==> |a| < |b|)
  {
    assert b == a + (b - a);
    if a != b {
      var x :| x in b - a;
    }
  }

  /** Rounds go onward, and enough of them leave nothing outstanding. */
  lemma {:induction false} RoundsGoOnward(w: World, name: string, rounds: seq<Round>)
    requires CalmAt(w, name)
    requires forall k :: 0 <= k < |rounds| ==> Timely(w.state.subscriptions[name].spec, rounds[k].ackAfter)
    ensures var v := AfterRounds(w, name, rounds);
            && CalmAt(v, name) && LogFor(v, name) == LogFor(w, name)
            && Onward(TrackedOf(w, name), TrackedOf(v, name), LogFor(w, name))
            && (|rounds| >= |OutstandingAt(w, name)| ==> OutstandingAt(v, name) == {})
    decreases |rounds|
  {
    if rounds != [] {
      var v := AfterRound(w, name, rounds[0]);
      CalmLater(w, name, rounds[0].wait);
      RoundProgress(w, name, rounds[0], w.clock + rounds[0].wait);
      FewerOutstanding(TrackedOf(w, name), TrackedOf(v, name), LogFor(w, name));
      ProperSubsetSmaller(OutstandingAt(v, name), OutstandingAt(w, name));
      RoundsGoOnward(v, name, rounds[1..]);
      OnwardAgain(TrackedOf(w, name), TrackedOf(v, name),
                  TrackedOf(AfterRounds(v, name, rounds[1..]), name), LogFor(w, name));
    }
  }

  /** Drain, exactly: from any valid world in which the subscription is quiescent, after as many
      rounds as it has messages outstanding (whatever their sizes and waits) a message of the
      epoch is settled if and only if it was settled before or is not stuck; nothing is leased. */
  lemma RoundsDrain(w: World, name: string, rounds: seq<Round>)
    requires CalmAt(w, name) && |rounds| >= |OutstandingAt(w, name)|
    requires forall k :: 0 <= k < |rounds| ==> Timely(w.state.subscriptions[name].spec, rounds[k].ackAfter)
    ensures var v := AfterRounds(w, name, rounds);
            && CalmAt(v, name)
            && v.epochs[name].start == w.epochs[name].start
            && forall i :: w.epochs[name].start <= i < |LogFor(w, name)| ==>
                 (i in v.state.subscriptions[name].acked
                  <==> i in w.state.subscriptions[name].acked || !Stuck(TrackedOf(w, name), LogFor(w, name), i))
  {
    RoundsGoOnward(w, name, rounds);
    var v, log := AfterRounds(w, name, rounds), LogFor(w, name);
    forall i | w.epochs[name].start <= i < |log|
      ensures i in v.state.subscriptions[name].acked
         <==> i in w.state.subscriptions[name].acked || !Stuck(TrackedOf(w, name), log, i)
    {
      SameStuck(TrackedOf(w, name), TrackedOf(v, name), log, i);
      assert i !in OutstandingAt(v, name);
    }
  }

  /** With ordering on for the whole epoch, or off: settled if and only if not stuck. */
  lemma RoundsSettleAllButStuck(w: World, name: string, rounds: seq<Round>)
    requires CalmAt(w, name) && |rounds| >= |OutstandingAt(w, name)|
    requires forall k :: 0 <= k < |rounds| ==> Timely(w.state.subscriptions[name].spec, rounds[k].ackAfter)
    requires w.state.subscriptions[name].spec.ordering ==> w.epochs[name].ordered
    ensures var v := AfterRounds(w, name, rounds);
            && name in v.state.subscriptions
            && forall i :: w.epochs[name].start <= i < |LogFor(w, name)| ==>
                 (i in v.state.subscriptions[name].acked <==> !Stuck(TrackedOf(w, name), LogFor(w, name), i))
  {
    RoundsDrain(w, name, rounds);
    forall i | Stuck(TrackedOf(w, name), LogFor(w, name), i) ensures i !in w.state.subscriptions[name].acked {
      StuckNeverSettles(w, name, i);
    }
  }

  // ----- From every reachable state -----

  lemma {:induction false} LatestDeadline(inflight: map<string, Lease>) returns (d: Time)
    ensures forall k :: k in inflight ==> inflight[k].deadline <= d
    decreases inflight.Keys
  {
    d := 0;
    if k :| k in inflight {
      var rest := inflight - {k};
      var latest := LatestDeadline(rest);
      d := Max(latest, inflight[k].deadline);
      assert forall j :: j in inflight ==> j == k || (j in rest && rest[j] == inflight[j]);
    }
  }

  lemma {:induction false} LatestRetry(queue: seq<RetryEntry>) returns (d: Time)
    ensures AllDue(queue, d)
  {
    d := 0;
    if queue != [] {
      d := LatestRetry(queue[..|queue| - 1]);
      d := Max(d, queue[|queue| - 1].availableAt);
    }
  }

  /** Every subscription whose dead letters go elsewhere clears in time. */
  lemma EverythingClears(t: Tracked, now: Time) returns (wait: nat, due: Time)
    requires BuriesElsewhere(t.sub.spec)
    ensures Clears(t, now + wait, due)
  {
    var last := LatestDeadline(t.sub.inflight);
    var retry := LatestRetry(t.sub.retryQueue);
    wait := Max(last - now, 0);
    due := Max(retry, now + wait + SECOND * MaxBackoff(t.sub.spec.retry));
  }

  /** One round, once every lease has expired, and a pause past every backoff leave the
      subscription quiescent, whatever state it was in. */
  lemma ClearingRound(w: World, name: string, first: Round, pause: nat, due: Time)
    requires Valid(w) && name in w.state.subscriptions
    requires Timely(w.state.subscriptions[name].spec, first.ackAfter)
    requires Clears(TrackedOf(w, name), w.clock + first.wait, due)
    requires due <= AfterRound(w, name, first).clock + pause
    ensures var v := Later(AfterRound(w, name, first), pause);
            && CalmAt(v, name) && LogFor(v, name) == LogFor(w, name)
            && Onward(TrackedOf(w, name), TrackedOf(v, name), LogFor(w, name))
  {
    LaterStill(w, name, first.wait);
    RoundProgress(w, name, first, due);
    LaterStill(AfterRound(w, name, first), name, pause);
  }

  /** Drain from every reachable state in which dead letters go elsewhere: wait until every lease has
      expired, do a round, pause until every retry is due, and do as many rounds as there were
      messages outstanding. Then a message of the epoch is settled if and only if it was settled at
      the beginning or was not stuck. */
  lemma EverythingDrains(w: World, name: string, first: Round, pause: nat, due: Time, rounds: seq<Round>)
    requires Valid(w) && name in w.state.subscriptions
    requires Timely(w.state.subscriptions[name].spec, first.ackAfter)
    requires Clears(TrackedOf(w, name), w.clock + first.wait, due)
    requires due <= AfterRound(w, name, first).clock + pause
    requires |rounds| >= |OutstandingAt(w, name)|
    requires forall k :: 0 <= k < |rounds| ==> Timely(w.state.subscriptions[name].spec, rounds[k].ackAfter)
    ensures Valid(Later(AfterRound(w, name, first), pause))
    ensures var v := AfterRounds(Later(AfterRound(w, name, first), pause), name, rounds);
            && CalmAt(v, name)
            && v.epochs[name].start == w.epochs[name].start
            && forall i :: w.epochs[name].start <= i < |LogFor(w, name)| ==>
                 (i in v.state.subscriptions[name].acked
                  <==> i in w.state.subscriptions[name].acked || !Stuck(TrackedOf(w, name), LogFor(w, name), i))
  {
    var u := Later(AfterRound(w, name, first), pause);
    ClearingRound(w, name, first, pause, due);
    FewerOutstanding(TrackedOf(w, name), TrackedOf(u, name), LogFor(w, name));
    ProperSubsetSmaller(OutstandingAt(u, name), OutstandingAt(w, name));
    RoundsDrain(u, name, rounds);
    SettledThrough(w, u, AfterRounds(u, name, rounds), name);
  }

  lemma SettledThrough(w: World, u: World, v: World, name: string)
    requires Valid(w) && Valid(u) && Valid(v)
    requires name in w.state.subscriptions && name in u.state.subscriptions && name in v.state.subscriptions
    requires LogFor(u, name) == LogFor(w, name)
    requires Onward(TrackedOf(w, name), TrackedOf(u, name), LogFor(w, name))
    requires forall i :: u.epochs[name].start <= i < |LogFor(u, name)| ==>
               (i in v.state.subscriptions[name].acked
                <==> i in u.state.subscriptions[name].acked || !Stuck(TrackedOf(u, name), LogFor(u, name), i))
    ensures forall i :: w.epochs[name].start <= i < |LogFor(w, name)| ==>
              (i in v.state.subscriptions[name].acked
               <==> i in w.state.subscriptions[name].acked || !Stuck(TrackedOf(w, name), LogFor(w, name), i))
  {
    forall i | w.epochs[name].start <= i < |LogFor(w, name)|
      ensures i in v.state.subscriptions[name].acked
         <==> i in w.state.subscriptions[name].acked || !Stuck(TrackedOf(w, name), LogFor(w, name), i)
    {
      SameStuck(TrackedOf(w, name), TrackedOf(u, name), LogFor(w, name), i);
    }
  }
}
