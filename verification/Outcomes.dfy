/** What each call comes to, told from its arguments and the state before it: acknowledgements and
    deadline changes of whole lists of ids, the leases that a pull takes back, and the replies. */
module Outcomes {
  import opened Basics
  import opened Model
  import opened Lifecycle
  import opened Tracking
  import opened Consumer
  import opened Pulling
  import opened Publishing
  import opened Broker
  import opened Guarantees
  import opened Continuity

  // ----- Acknowledging a list of ids -----

  /** Exactly-once is on and the lease under `k` had its deadline before `now`. */
  predicate Late(sub: Subscription, k: string, now: Time) {
    sub.spec.exactlyOnce && k in sub.inflight && sub.inflight[k].deadline < now
  }

  /** Position `f` of the list is the first late id, or its end. */
  ghost predicate FirstLate(sub: Subscription, ids: seq<string>, now: Time, f: nat) {
    f <= |ids| && (forall p :: 0 <= p < f ==> !Late(sub, ids[p], now)) && (f < |ids| ==> Late(sub, ids[f], now))
  }

  /** The indices leased under the ids. */
  ghost function IndicesUnder(inflight: map<string, Lease>, ids: seq<string>): set<nat> {
    set k | k in ids && k in inflight :: inflight[k].index
  }

  ghost function IdSet(ids: seq<string>): set<string> {
    set k | k in ids
  }

  /** The leased ids in front of the first late one are acknowledged and their leases gone; the lease
      of the late one is gone too; everything else about the subscription is as it was. */
  ghost predicate Acknowledged(t: Tracked, u: Tracked, ids: seq<string>, f: nat)
    requires f <= |ids|
  {
    && u.sub.acked == t.sub.acked + IndicesUnder(t.sub.inflight, ids[..f])
    && u.sub.inflight == t.sub.inflight - IdSet(ids[..f]) - (if f < |ids| then {ids[f]} else {})
    && u.sub == t.sub.(acked := u.sub.acked, inflight := u.sub.inflight, orderingAcked := u.sub.orderingAcked)
  }

  lemma AcknowledgedUnknown(t: Tracked, u: Tracked, ids: seq<string>, f: nat)
    requires ids != [] && ids[0] !in t.sub.inflight && 1 <= f <= |ids| && Acknowledged(t, u, ids[1..], f - 1)
    ensures Acknowledged(t, u, ids, f)
  {
    var rest := ids[1..];
    assert ids[..f] == [ids[0]] + rest[..f - 1];
    assert IdSet(ids[..f]) == {ids[0]} + IdSet(rest[..f - 1]);
    assert IndicesUnder(t.sub.inflight, ids[..f]) == IndicesUnder(t.sub.inflight, rest[..f - 1]);
  }

  lemma AcknowledgedKnown(t: Tracked, u: Tracked, ids: seq<string>, f: nat, now: Time, log: seq<Message>)
    requires ids != [] && ids[0] in t.sub.inflight && 1 <= f <= |ids|
    requires Acknowledged(AckOne(t, ids[0], now, log), u, ids[1..], f - 1)
    ensures Acknowledged(t, u, ids, f)
  {
    var rest, less := ids[1..], t.sub.inflight - {ids[0]};
    var front := rest[..f - 1];
    assert ids[..f] == [ids[0]] + front;
    assert IdSet(ids[..f]) == {ids[0]} + IdSet(front);
    assert {t.sub.inflight[ids[0]].index} + IndicesUnder(less, front) == IndicesUnder(t.sub.inflight, ids[..f]) by {
      forall i | i in IndicesUnder(t.sub.inflight, ids[..f])
        ensures i in {t.sub.inflight[ids[0]].index} + IndicesUnder(less, front)
      {
        var k :| k in ids[..f] && k in t.sub.inflight && t.sub.inflight[k].index == i;
        assert k != ids[0] ==> k in front && k in less && less[k].index == i;
      }
    }
  }

  lemma FirstLateRest(t: Tracked, ids: seq<string>, now: Time, f: nat, log: seq<Message>)
    requires FirstLate(t.sub, ids, now, f) && ids != [] && !Late(t.sub, ids[0], now)
    ensures f >= 1 && FirstLate(t.sub, ids[1..], now, f - 1)
    ensures ids[0] in t.sub.inflight ==> FirstLate(AckOne(t, ids[0], now, log).sub, ids[1..], now, f - 1)
  {
    var rest := ids[1..];
    assert forall p :: 0 <= p < |rest| ==> rest[p] == ids[p + 1];
  }

  /** Whatever the list: exactly the leased ids in front of the first late one are acknowledged, and
      the reply is a success if and only if none is late. */
  lemma {:induction false} AckAllOutcome(t: Tracked, ids: seq<string>, now: Time, log: seq<Message>, f: nat)
    requires FirstLate(t.sub, ids, now, f)
    ensures Acknowledged(t, AckAll(t, ids, now, log).0, ids, f)
    ensures AckAll(t, ids, now, log).1 <==> f == |ids|
    decreases |ids|
  {
    if ids == [] {
      assert t.sub.inflight - IdSet([]) == t.sub.inflight;
    } else if Late(t.sub, ids[0], now) {
      assert ids[..0] == [] && t.sub.inflight - IdSet([]) == t.sub.inflight;
    } else {
      FirstLateRest(t, ids, now, f, log);
      var u := AckAll(t, ids, now, log).0;
      if ids[0] !in t.sub.inflight {
        AckAllOutcome(t, ids[1..], now, log, f - 1);
        AcknowledgedUnknown(t, u, ids, f);
      } else {
        AckAllOutcome(AckOne(t, ids[0], now, log), ids[1..], now, log, f - 1);
        AcknowledgedKnown(t, u, ids, f, now, log);
      }
    }
  }

  lemma UnderLeased(inflight: map<string, Lease>, ids: seq<string>)
    ensures IndicesUnder(inflight, ids) <= LeasedIn(inflight)
    ensures UniqueLeases(inflight) ==>
              LeasedIn(inflight - IdSet(ids)) == LeasedIn(inflight) - IndicesUnder(inflight, ids)
  {
    var less := inflight - IdSet(ids);
    if UniqueLeases(inflight) {
      forall i | i in LeasedIn(inflight) - IndicesUnder(inflight, ids) ensures i in LeasedIn(less) {
        var k :| k in inflight && inflight[k].index == i;
        assert k in less && less[k].index == i;
      }
      forall i | i in LeasedIn(less) ensures i in LeasedIn(inflight) - IndicesUnder(inflight, ids) {
        var k :| k in less && less[k].index == i;
        assert inflight[k].index == i;
      }
    }
  }

  /** The late id is none of those in front of it. */
  lemma LateNotBefore(sub: Subscription, ids: seq<string>, now: Time, f: nat)
    requires FirstLate(sub, ids, now, f) && f < |ids|
    ensures ids[f] !in ids[..f]
  {
    forall p | 0 <= p < f ensures ids[p] != ids[f] {
      assert !Late(sub, ids[p], now);
    }
  }

  /** Exactly the message of the first late id is lost. */
  lemma AckAllLoses(t: Tracked, ids: seq<string>, now: Time, log: seq<Message>, minted: nat, f: nat, u: Tracked)
    requires Sound(t, log, minted) && FirstLate(t.sub, ids, now, f) && u == AckAll(t, ids, now, log).0
    ensures LostOf(u) == LostOf(t) + if f < |ids| then {t.sub.inflight[ids[f]].index} else {}
  {
    AckAllOutcome(t, ids, now, log, f);
    AckAllSound(t, ids, now, log, minted);
    TracksConserves(t);
    TracksConserves(u);
    var less := t.sub.inflight - IdSet(ids[..f]);
    UnderLeased(t.sub.inflight, ids[..f]);
    if f < |ids| {
      LateNotBefore(t.sub, ids, now, f);
      assert UniqueLeases(less) by {
        assert forall k :: k in less ==> less[k] == t.sub.inflight[k];
      }
      LeaseRemoved(less, ids[f]);
      assert t.sub.inflight[ids[f]].index in LeasedIn(t.sub.inflight);
    } else {
      assert u.sub.inflight == less;
    }
    LostByCount(t, u, if f < |ids| then {t.sub.inflight[ids[f]].index} else {});
  }

  /** What is in no other container is lost. */
  lemma LostByCount(t: Tracked, u: Tracked, lost: set<nat>)
    requires Conserved(t) && Conserved(u) && u.epoch.start == t.epoch.start && u.sub.nextIndex == t.sub.nextIndex
    requires u.sub.retryQueue == t.sub.retryQueue && lost <= LeasedIn(t.sub.inflight)
    requires u.sub.acked + LeasedIn(u.sub.inflight) == t.sub.acked + LeasedIn(t.sub.inflight) - lost
    ensures LostOf(u) == LostOf(t) + lost
  {
    forall i: nat ensures i in LostOf(u) <==> i in LostOf(t) + lost {
      assert i in t.sub.acked + LeasedIn(t.sub.inflight) + QueuedIn(t.sub.retryQueue) + LostOf(t)
        <==> t.epoch.start <= i < t.sub.nextIndex;
      assert i in u.sub.acked + LeasedIn(u.sub.inflight) + QueuedIn(u.sub.retryQueue) + LostOf(u)
        <==> u.epoch.start <= i < u.sub.nextIndex;
    }
  }

  /** A list is worked off from the front: its second part comes after the first, unless that fails. */
  lemma {:induction false} AckAllInTurn(t: Tracked, ids: seq<string>, more: seq<string>, now: Time, log: seq<Message>)
    ensures var u := AckAll(t, ids, now, log);
            AckAll(t, ids + more, now, log) == if u.1 then AckAll(u.0, more, now, log) else u
    decreases |ids|
  {
    if ids == [] {
      assert ids + more == more;
    } else {
      assert (ids + more)[1..] == ids[1..] + more;
      if ids[0] !in t.sub.inflight {
        AckAllInTurn(t, ids[1..], more, now, log);
      } else if !IsLate(t.sub, ids[0], now) {
        AckAllInTurn(AckOne(t, ids[0], now, log), ids[1..], more, now, log);
      }
    }
  }

  // ----- Changing the deadlines of a list of ids -----

  /** The leases with the listed ones due at `deadline`. */
  function Prolonged(inflight: map<string, Lease>, ids: seq<string>, deadline: Time): map<string, Lease> {
    map k | k in inflight :: if k in ids then Lease(inflight[k].index, deadline) else inflight[k]
  }

  /** With a positive number of seconds: the listed leases get exactly that time from now on, and
      nothing else changes. */
  lemma {:induction false} ExtendAllOutcome(t: Tracked, ids: seq<string>, now: Time, seconds: nat)
    requires seconds > 0
    ensures ModifyAll(t, ids, now, seconds).sub
         == t.sub.(inflight := Prolonged(t.sub.inflight, ids, now + SECOND * seconds))
    decreases |ids|
  {
    if ids == [] {
      assert Prolonged(t.sub.inflight, [], now + SECOND * seconds) == t.sub.inflight;
    } else {
      var u := ModifyOne(t, ids[0], now, seconds);
      ExtendAllOutcome(u, ids[1..], now, seconds);
      assert Prolonged(u.sub.inflight, ids[1..], now + SECOND * seconds)
          == Prolonged(t.sub.inflight, ids, now + SECOND * seconds);
    }
  }

  /** Every leased index has been counted. */
  ghost predicate Counted(sub: Subscription) {
    forall k :: k in sub.inflight ==> AttemptsOf(sub, sub.inflight[k].index) >= 1
  }

  lemma SoundCounts(t: Tracked, log: seq<Message>, minted: nat)
    requires Sound(t, log, minted)
    ensures Counted(t.sub)
  {
    forall k | k in t.sub.inflight ensures AttemptsOf(t.sub, t.sub.inflight[k].index) >= 1 {
      var i := t.sub.inflight[k].index;
      assert i in LeasedIn(t.sub.inflight);
      assert Agrees(t, i);
      LeasedWasDelivered(t.epoch.trace, |t.epoch.trace|, i);
    }
  }

  /** The entry of an index given back now: it waits for the smallest backoff, doubled for every
      attempt after the first and at most ten times, but no longer than the largest. */
  function Release(sub: Subscription, i: nat, now: Time): RetryEntry
    requires AttemptsOf(sub, i) >= 1
  {
    var longest, shortest := MaxBackoff(sub.spec.retry), MinBackoff(sub.spec.retry);
    RetryEntry(i, now + SECOND * Min(longest, shortest * Pow2(Min(AttemptsOf(sub, i) - 1, 10))))
  }

  lemma RetryIsRelease(sub: Subscription, i: nat, now: Time)
    requires AttemptsOf(sub, i) >= 1
    ensures RetryOf(sub, i, now) == Release(sub, i, now)
  {
    BackoffIsCappedExponential(sub.spec.retry, AttemptsOf(sub, i));
  }

  /** The indices of the listed leases, the last listed first, and each at its first mention. */
  ghost function Returned(inflight: map<string, Lease>, ids: seq<string>): (r: seq<nat>)
    ensures forall i :: i in r ==> i in LeasedIn(inflight)
  {
    if ids == [] then []
    else
      var front, k := ids[..|ids| - 1], ids[|ids| - 1];
      (if k in inflight && k !in front then [inflight[k].index] else []) + Returned(inflight, front)
  }

  /** Returning the first id and then the others. */
  lemma {:induction false} ReturnedFirst(inflight: map<string, Lease>, k: string, ids: seq<string>)
    ensures Returned(inflight, [k] + ids)
         == Returned(inflight - {k}, ids) + if k in inflight then [inflight[k].index] else []
    decreases |ids|
  {
    if ids == [] {
      assert [k] + ids == [k] && [k][..0] == [];
    } else {
      var front, last := ids[..|ids| - 1], ids[|ids| - 1];
      ReturnedFirst(inflight, k, front);
      assert ([k] + ids)[..|ids|] == [k] + front;
    }
  }

  /** `queue` is `old_` with the entries of the listed indices in front. */
  ghost predicate InFront(queue: seq<RetryEntry>, old_: seq<RetryEntry>, indices: seq<nat>, entry: nat -> RetryEntry) {
    && |queue| == |indices| + |old_| && queue[|indices|..] == old_
    && forall p :: 0 <= p < |indices| ==> queue[p] == entry(indices[p])
  }

  lemma InFrontThen(queue: seq<RetryEntry>, old_: seq<RetryEntry>, indices: seq<nat>, entry: nat -> RetryEntry, i: nat)
    requires InFront(queue, [entry(i)] + old_, indices, entry)
    ensures InFront(queue, old_, indices + [i], entry)
  {
    assert queue[|indices|] == ([entry(i)] + old_)[0];
    assert queue[|indices|..][1..] == queue[|indices| + 1..];
  }

  lemma NackStep(t: Tracked, k: string, now: Time, entry: nat -> RetryEntry)
    requires k in t.sub.inflight && entry(t.sub.inflight[k].index) == RetryOf(t.sub, t.sub.inflight[k].index, now)
    ensures NackOne(t, k, now).sub
         == t.sub.(inflight := t.sub.inflight - {k}, retryQueue := [entry(t.sub.inflight[k].index)] + t.sub.retryQueue)
    ensures forall i :: RetryOf(NackOne(t, k, now).sub, i, now) == RetryOf(t.sub, i, now)
  {
  }

  lemma {:induction false} NackAllReturns(t: Tracked, ids: seq<string>, now: Time, entry: nat -> RetryEntry)
    requires forall i :: entry(i) == RetryOf(t.sub, i, now)
    ensures var u := ModifyAll(t, ids, now, 0);
            && u.sub == t.sub.(inflight := t.sub.inflight - IdSet(ids), retryQueue := u.sub.retryQueue)
            && InFront(u.sub.retryQueue, t.sub.retryQueue, Returned(t.sub.inflight, ids), entry)
    decreases |ids|
  {
    if ids == [] {
      assert t.sub.inflight - IdSet([]) == t.sub.inflight;
    } else {
      var u, rest := ModifyOne(t, ids[0], now, 0), ids[1..];
      assert u.sub.inflight == t.sub.inflight - {ids[0]};
      ReturnedFirst(t.sub.inflight, ids[0], rest);
      if ids[0] in t.sub.inflight {
        NackStep(t, ids[0], now, entry);
      }
      NackAllReturns(u, rest, now, entry);
      assert [ids[0]] + rest == ids && IdSet(ids) == {ids[0]} + IdSet(rest);
      assert t.sub.inflight - IdSet(ids) == u.sub.inflight - IdSet(rest);
      if ids[0] in t.sub.inflight {
        InFrontThen(ModifyAll(t, ids, now, 0).sub.retryQueue, t.sub.retryQueue, Returned(u.sub.inflight, rest), entry,
                    t.sub.inflight[ids[0]].index);
      }
    }
  }

  /** The listed leases have ended and their messages stand in front of the queue, each with its
      backoff from now; nothing else has changed. */
  ghost predicate GivenBack(s: Subscription, r: Subscription, ids: seq<string>, now: Time) {
    var indices := Returned(s.inflight, ids);
    && r == s.(inflight := s.inflight - IdSet(ids), retryQueue := r.retryQueue)
    && |r.retryQueue| == |indices| + |s.retryQueue| && r.retryQueue[|indices|..] == s.retryQueue
    && (forall p :: 0 <= p < |indices| ==>
          AttemptsOf(s, indices[p]) >= 1 && r.retryQueue[p] == Release(s, indices[p], now))
  }

  lemma ReturnedCounted(sub: Subscription, ids: seq<string>, now: Time, p: nat)
    requires Counted(sub) && p < |Returned(sub.inflight, ids)|
    ensures var i := Returned(sub.inflight, ids)[p];
            AttemptsOf(sub, i) >= 1 && RetryOf(sub, i, now) == Release(sub, i, now)
  {
    var i := Returned(sub.inflight, ids)[p];
    assert i in LeasedIn(sub.inflight);
    var k :| k in sub.inflight && sub.inflight[k].index == i;
    RetryIsRelease(sub, i, now);
  }

  lemma NackAllOutcome(t: Tracked, ids: seq<string>, now: Time, log: seq<Message>, minted: nat)
    requires Sound(t, log, minted)
    ensures GivenBack(t.sub, ModifyAll(t, ids, now, 0).sub, ids, now)
  {
    SoundCounts(t, log, minted);
    NackAllReturns(t, ids, now, (i: nat) => RetryOf(t.sub, i, now));
    var indices := Returned(t.sub.inflight, ids);
    forall p | 0 <= p < |indices|
      ensures AttemptsOf(t.sub, indices[p]) >= 1 && RetryOf(t.sub, indices[p], now) == Release(t.sub, indices[p], now)
    {
      ReturnedCounted(t.sub, ids, now, p);
    }
  }

  /** What a deadline change makes of a subscription. */
  ghost predicate DeadlinesChanged(s: Subscription, r: Subscription, ids: seq<string>, seconds: nat, now: Time) {
    if seconds > 0 then r == s.(inflight := Prolonged(s.inflight, ids, now + SECOND * seconds))
    else GivenBack(s, r, ids, now)
  }

  lemma ModifyAllOutcome(t: Tracked, ids: seq<string>, now: Time, seconds: nat, log: seq<Message>, minted: nat)
    requires Sound(t, log, minted)
    ensures DeadlinesChanged(t.sub, ModifyAll(t, ids, now, seconds).sub, ids, seconds, now)
  {
    if seconds > 0 {
      ExtendAllOutcome(t, ids, now, seconds);
    } else {
      NackAllOutcome(t, ids, now, log, minted);
    }
  }

  /** One lease: it gets the time asked for, or its message goes to the front of the queue. */
  lemma ModifyOutcome(t: Tracked, k: string, now: Time, seconds: nat, log: seq<Message>, minted: nat)
    requires Sound(t, log, minted) && k in t.sub.inflight
    ensures var s, r, i := t.sub, ModifyAll(t, [k], now, seconds).sub, t.sub.inflight[k].index;
            if seconds > 0
            then r == s.(inflight := s.inflight[k := Lease(i, now + SECOND * seconds)])
            else AttemptsOf(s, i) >= 1
                 && r == s.(inflight := s.inflight - {k}, retryQueue := [Release(s, i, now)] + s.retryQueue)
  {
    ModifyAllOutcome(t, [k], now, seconds, log, minted);
    var s, r, i := t.sub, ModifyAll(t, [k], now, seconds).sub, t.sub.inflight[k].index;
    if seconds > 0 {
      assert Prolonged(s.inflight, [k], now + SECOND * seconds) == s.inflight[k := Lease(i, now + SECOND * seconds)];
    } else {
      assert [k][..0] == [] && IdSet([k]) == {k};
      assert Returned(s.inflight, []) == [];
      assert Returned(s.inflight, [k]) == [i];
      assert r.retryQueue == [r.retryQueue[0]] + r.retryQueue[1..];
    }
  }

  // ----- A deadline holds until it is changed -----

  lemma {:induction false} LifeStays(h: History, a: nat, b: nat, i: nat)
    requires a <= b <= |h| && forall q :: a <= q < b ==> h[q].index != i
    ensures LifeAt(h, b, i) == LifeAt(h, a, i)
    decreases b
  {
    if a < b {
      LifeStays(h, a, b - 1, i);
    }
  }

  /** Event `p` is the first of message `i` from position `from` on. */
  ghost predicate FirstOf(h: History, from: nat, p: nat, i: nat) {
    from <= p < |h| && h[p].index == i && forall q :: from <= q < p ==> h[q].index != i
  }

  /** What can happen next to a message leased until `deadline`: nothing but an acknowledgement, a
      nack or another change before then, and neither a delivery nor any other examination. */
  ghost predicate HonoursGrant(e: Event, deadline: Time) {
    && (e.kind.Acked? || e.kind.AckedLate? || e.kind.Extended? || e.kind.Nacked? || e.kind.Reclaimed?)
    && (e.kind.Reclaimed? ==> deadline <= e.at)
    && (e.kind.AckedLate? ==> deadline < e.at)
  }

  lemma LeaseHonoured(h: History, from: nat, p: nat, i: nat, deadline: Time)
    requires Legal(h) && FirstOf(h, from, p, i) && LifeAt(h, from, i).phase == Leased(deadline)
    ensures HonoursGrant(h[p], deadline)
  {
    LifeStays(h, from, p, i);
    assert LegalAt(h, p);
  }

  // ----- The calls -----

  /** Only subscription `name` has changed. */
  ghost predicate OnlySubscription(w: World, v: World, name: string) {
    && name in w.state.subscriptions && name in v.state.subscriptions
    && v.state == w.state.(subscriptions := w.state.subscriptions[name := v.state.subscriptions[name]])
    && name in w.epochs && name in v.epochs && v == w.(state := v.state, epochs := w.epochs[name := v.epochs[name]])
  }

  /** An acknowledge call: an unknown subscription is an error; otherwise the leased ids in front of the
      first late one are acknowledged, the message of the late one is lost, and the reply is a success
      exactly if there is none. */
  lemma AcknowledgeResult(w: World, name: string, ids: seq<string>, v: World, reply: Reply, f: nat)
    requires Valid(w) && v == DoAcknowledge(w, name, ids).0 && reply == DoAcknowledge(w, name, ids).1
    requires name in w.state.subscriptions ==> FirstLate(w.state.subscriptions[name], ids, w.clock, f)
    ensures name !in w.state.subscriptions ==> reply == Failed(NotFound) && v == w
    ensures name in w.state.subscriptions ==>
              && OnlySubscription(w, v, name)
              && Acknowledged(TrackedOf(w, name), TrackedOf(v, name), ids, f)
              && LostOf(TrackedOf(v, name)) == LostOf(TrackedOf(w, name))
                 + (if f < |ids| then {w.state.subscriptions[name].inflight[ids[f]].index} else {})
              && reply == if f == |ids| then Accepted else Failed(FailedPrecondition)
  {
    if name in w.state.subscriptions {
      var t := TrackedOf(w, name);
      SubscriptionValid(w, name);
      AckAllOutcome(t, ids, w.clock, LogFor(w, name), f);
      AckAllLoses(t, ids, w.clock, LogFor(w, name), w.state.minted, f, AckAll(t, ids, w.clock, LogFor(w, name)).0);
      assert TrackedOf(v, name) == AckAll(t, ids, w.clock, LogFor(w, name)).0;
    }
  }

  /** A deadline change: more than 600 seconds is an error, and so is an unknown subscription; otherwise
      the listed leases get the time asked for, or end if it is zero. */
  lemma ModifyResult(w: World, name: string, ids: seq<string>, seconds: u32, v: World, reply: Reply)
    requires Valid(w) && v == DoModify(w, name, ids, seconds).0 && reply == DoModify(w, name, ids, seconds).1
    ensures seconds > 600 ==> reply == Failed(InvalidArgument) && v == w
    ensures seconds <= 600 && name !in w.state.subscriptions ==> reply == Failed(NotFound) && v == w
    ensures seconds <= 600 && name in w.state.subscriptions ==>
              && OnlySubscription(w, v, name) && reply == Accepted
              && DeadlinesChanged(w.state.subscriptions[name], v.state.subscriptions[name], ids, seconds, w.clock)
  {
    if name in w.state.subscriptions {
      SubscriptionValid(w, name);
      ModifyAllOutcome(TrackedOf(w, name), ids, w.clock, seconds, LogFor(w, name), w.state.minted);
    }
  }

  /** What the epoch told of a message, it still tells after any calls without a seek. */
  lemma EpochStillTells(env: Env, v: World, calls: seq<Call>, x: World, name: string, i: nat)
    requires Valid(v) && Valid(x) && name in v.state.subscriptions && name in x.state.subscriptions
    requires x == RunFrom(env, v, calls) && LeavesEpoch(calls, name)
    ensures TraceOf(v, name) <= TraceOf(x, name)
    ensures LifeAt(TraceOf(x, name), |TraceOf(v, name)|, i) == LifeOf(TraceOf(v, name), i)
  {
    EpochAlong(env, v, calls, name);
    var h, g := TraceOf(v, name), TraceOf(x, name);
    assert g == h + g[|h|..];
    LifeOfPrefix(h, g[|h|..], |h|, i);
  }

  /** A lease is kept: over any calls without a seek, the first thing to happen to its message is an
      acknowledgement, a nack or a change of its deadline, or comes no earlier than its deadline. */
  lemma LeaseKept(env: Env, v: World, name: string, k: string, calls: seq<Call>, x: World, p: nat)
    requires Valid(v) && Valid(x) && name in v.state.subscriptions && name in x.state.subscriptions
    requires k in v.state.subscriptions[name].inflight && x == RunFrom(env, v, calls) && LeavesEpoch(calls, name)
    requires FirstOf(TraceOf(x, name), |TraceOf(v, name)|, p, v.state.subscriptions[name].inflight[k].index)
    ensures HonoursGrant(TraceOf(x, name)[p], v.state.subscriptions[name].inflight[k].deadline)
  {
    var l := v.state.subscriptions[name].inflight[k];
    SubscriptionValid(v, name);
    SubscriptionValid(x, name);
    EpochStillTells(env, v, calls, x, name, l.index);
    LeaseHonoured(TraceOf(x, name), |TraceOf(v, name)|, p, l.index, l.deadline);
  }

  /** So the time that a deadline change grants is kept. */
  lemma GrantHonoured(env: Env, w: World, name: string, ids: seq<string>, seconds: u32, v: World, k: string,
                      calls: seq<Call>, x: World, p: nat)
    requires Valid(w) && Valid(v) && Valid(x) && 0 < seconds <= 600 && name in w.state.subscriptions
    requires k in ids && k in w.state.subscriptions[name].inflight
    requires v == DoModify(w, name, ids, seconds).0 && x == RunFrom(env, v, calls) && LeavesEpoch(calls, name)
    requires name in v.state.subscriptions && name in x.state.subscriptions
    requires FirstOf(TraceOf(x, name), |TraceOf(v, name)|, p, w.state.subscriptions[name].inflight[k].index)
    ensures HonoursGrant(TraceOf(x, name)[p], w.clock + SECOND * seconds)
  {
    ModifyResult(w, name, ids, seconds, v, DoModify(w, name, ids, seconds).1);
    LeaseKept(env, v, name, k, calls, x, p);
  }
}
