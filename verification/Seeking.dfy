/** What a seek makes of a subscription, over everything that happens afterwards. */
module Seeking {
  import opened Basics
  import opened Model
  import opened Lifecycle
  import opened Tracking
  import opened Consumer
  import opened Pulling
  import opened PullSafety
  import opened PullResults
  import opened Publishing
  import opened Broker
  import opened Guarantees
  import opened Continuity
  import opened Draining

  // ----- The reach of an epoch -----

  lemma {:induction false} NotFreshAfter(h: History, p: nat, m: nat)
    requires p < m <= |h|
    ensures !LifeAt(h, m, h[p].index).phase.Fresh?
    decreases m
  {
    if p < m - 1 {
      NotFreshAfter(h, p, m - 1);
    }
  }

  /** In every valid world whatever happened in an epoch happened to messages between its start
      and the cursor. */
  lemma EventsInEpoch(w: World, n: string, p: nat)
    requires Valid(w) && n in w.state.subscriptions && p < |TraceOf(w, n)|
    ensures w.epochs[n].start <= TraceOf(w, n)[p].index < w.state.subscriptions[n].nextIndex <= |LogFor(w, n)|
  {
    SubscriptionValid(w, n);
    NotFreshAfter(TraceOf(w, n), p, |TraceOf(w, n)|);
    assert Agrees(TrackedOf(w, n), TraceOf(w, n)[p].index);
  }

  lemma AckedInEpoch(w: World, n: string, i: nat)
    requires Valid(w) && n in w.state.subscriptions && i in w.state.subscriptions[n].acked
    ensures w.epochs[n].start <= i
  {
    SubscriptionValid(w, n);
    assert Agrees(TrackedOf(w, n), i);
  }

  /** The epoch of `n` in `x` began at `cursor`, and nothing before it has been touched since. */
  ghost predicate RunsFrom(x: World, n: string, cursor: nat)
    requires Valid(x)
  {
    && n in x.state.subscriptions && x.epochs[n].start == cursor
    && forall p :: 0 <= p < |TraceOf(x, n)| ==> cursor <= TraceOf(x, n)[p].index < |LogFor(x, n)|
  }

  lemma StartRuns(x: World, n: string)
    requires Valid(x) && n in x.state.subscriptions
    ensures RunsFrom(x, n, x.epochs[n].start)
  {
    forall p | 0 <= p < |TraceOf(x, n)|
      ensures x.epochs[n].start <= TraceOf(x, n)[p].index < |LogFor(x, n)|
    {
      EventsInEpoch(x, n, p);
    }
  }

  /** Over any calls that do not seek it, a subscription stays in its epoch, on the same log. */
  lemma EpochRuns(env: Env, v: World, n: string, calls: seq<Call>, x: World)
    requires Valid(v) && n in v.state.subscriptions && LeavesEpoch(calls, n) && x == RunFrom(env, v, calls)
    ensures RunsFrom(x, n, v.epochs[n].start) && LogFor(v, n) <= LogFor(x, n)
  {
    EpochAlong(env, v, calls, n);
    TopicsAlong(env, v, calls);
    SubscriptionValid(v, n);
    StartRuns(x, n);
  }

  /** Enough rounds settle exactly the messages from the start of the epoch on that are not stuck. */
  lemma DrainsFrom(x: World, n: string, cursor: nat, rounds: seq<Round>)
    requires CalmAt(x, n) && RunsFrom(x, n, cursor) && |rounds| >= |OutstandingAt(x, n)|
    requires forall k :: 0 <= k < |rounds| ==> Timely(x.state.subscriptions[n].spec, rounds[k].ackAfter)
    requires x.state.subscriptions[n].spec.ordering ==> x.epochs[n].ordered
    ensures var y := AfterRounds(x, n, rounds);
            && n in y.state.subscriptions
            && forall i: nat :: i < |LogFor(x, n)| ==>
                 (i in y.state.subscriptions[n].acked
                  <==> cursor <= i && !Stuck(TrackedOf(x, n), LogFor(x, n), i))
  {
    var y := AfterRounds(x, n, rounds);
    RoundsDrain(x, n, rounds);
    RoundsSettleAllButStuck(x, n, rounds);
    forall i: nat | i in y.state.subscriptions[n].acked ensures cursor <= i {
      AckedInEpoch(y, n, i);
    }
  }

  // ----- A stuck message stays stuck -----

  lemma {:induction false} LostAlong(h: History, k: nat, m: nat, i: nat)
    requires Legal(h) && k <= m <= |h| && LifeAt(h, k, i).phase.Lost?
    ensures LifeAt(h, m, i).phase.Lost?
    decreases m
  {
    if k < m {
      LostAlong(h, k, m - 1, i);
      assert LegalAt(h, m - 1);
    }
  }

  lemma LostLater(t: Tracked, u: Tracked, i: nat)
    requires Legal(u.epoch.trace) && EpochContinues(t.epoch, u.epoch) && IsLost(t, i)
    ensures IsLost(u, i)
  {
    var h, more := t.epoch.trace, u.epoch.trace[|t.epoch.trace|..];
    assert u.epoch.trace == h + more;
    LifeOfPrefix(h, more, |h|, i);
    LostAlong(u.epoch.trace, |h|, |u.epoch.trace|, i);
  }

  lemma StuckLater(t: Tracked, u: Tracked, log: seq<Message>, more: seq<Message>, minted: nat, i: nat)
    requires Sound(u, more, minted) && EpochContinues(t.epoch, u.epoch) && log <= more
    requires Stuck(t, log, i) && (IsLost(t, i) || u.epoch.ordered)
    ensures Stuck(u, more, i)
  {
    if IsLost(t, i) {
      LostLater(t, u, i);
    } else {
      var j: nat :| j < i && SameKey(log, i, j) && OutOfReach(t, j);
      if IsLost(t, j) {
        LostLater(t, u, j);
      }
      assert SameKey(more, i, j) && OutOfReach(u, j);
    }
  }

  lemma StuckUntouched(t: Tracked, log: seq<Message>, minted: nat, i: nat)
    requires Sound(t, log, minted) && Stuck(t, log, i) && (IsLost(t, i) || t.epoch.ordered)
    ensures i !in t.sub.acked && i !in LeasedIn(t.sub.inflight)
  {
    if IsLost(t, i) {
      assert Agrees(t, i);
    } else {
      StuckUnsettled(t, log, minted, i);
    }
  }

  /** Once stuck, stuck until a seek: over any calls that neither seek nor delete the subscription,
      provided it is lost or ordering has been on all the time at the end. */
  lemma StuckForGood(env: Env, w: World, n: string, i: nat, calls: seq<Call>, x: World)
    requires Valid(w) && n in w.state.subscriptions && Stuck(TrackedOf(w, n), LogFor(w, n), i)
    requires LeavesEpoch(calls, n) && x == RunFrom(env, w, calls)
    requires IsLost(TrackedOf(w, n), i) || (n in x.epochs && x.epochs[n].ordered)
    ensures n in x.state.subscriptions && Stuck(TrackedOf(x, n), LogFor(x, n), i)
    ensures i !in x.state.subscriptions[n].acked && i !in LeasedIn(x.state.subscriptions[n].inflight)
  {
    EpochRuns(env, w, n, calls, x);
    EpochAlong(env, w, calls, n);
    SubscriptionValid(x, n);
    StuckLater(TrackedOf(w, n), TrackedOf(x, n), LogFor(w, n), LogFor(x, n), x.state.minted, i);
    if IsLost(TrackedOf(w, n), i) {
      LostLater(TrackedOf(w, n), TrackedOf(x, n), i);
    }
    StuckUntouched(TrackedOf(x, n), LogFor(x, n), x.state.minted, i);
  }

  // ----- Seeking to a time -----

  /** Message `i` was published at or after `time`, or later than the first `known` messages. */
  predicate Since(log: seq<Message>, known: nat, time: Time, i: nat) {
    i >= known || (i < |log| && log[i].publishedAt >= time)
  }

  lemma SeekBegins(w: World, name: string, time: Time, v: World)
    requires Valid(w) && name in w.state.subscriptions && v == DoSeekToTime(w, name, time).0
    ensures Valid(v) && DoSeekToTime(w, name, time).1 == Accepted
    ensures name in v.state.subscriptions && LogFor(v, name) == LogFor(w, name) && v.clock == w.clock
    ensures TrackedOf(v, name) == BeginEpoch(w.state.subscriptions[name].spec, v.epochs[name].start)
    ensures forall i: nat :: v.epochs[name].start <= i <==> Since(LogFor(w, name), |LogFor(w, name)|, time, i)
  {
    SeeksValid(w, name, time, "");
    SubscriptionValid(w, name);
    var topic := w.state.subscriptions[name].spec.topic;
    var log := w.state.topics[topic].messages;
    assert TopicSound(w.state.topics[topic], w.state.minted, w.clock);
    var cursor := FirstSince(log, time, 0);
    assert forall i :: cursor <= i < |log| ==> log[cursor].publishedAt <= log[i].publishedAt;
  }

  /** After a seek to a time, and any calls that do not seek again, everything delivered, settled or
      otherwise touched was published at or after that time (or after the seek), and all such
      messages are in reach. */
  lemma SeekReplaysFromTime(env: Env, w: World, name: string, time: Time, v: World, calls: seq<Call>, x: World)
    requires Valid(w) && name in w.state.subscriptions && v == DoSeekToTime(w, name, time).0 && Valid(v)
    requires LeavesEpoch(calls, name) && x == RunFrom(env, v, calls)
    ensures name in x.state.subscriptions && LogFor(w, name) <= LogFor(x, name)
    ensures forall p :: 0 <= p < |TraceOf(x, name)| ==>
              Since(LogFor(x, name), |LogFor(w, name)|, time, TraceOf(x, name)[p].index)
    ensures forall i: nat :: x.epochs[name].start <= i <==> Since(LogFor(x, name), |LogFor(w, name)|, time, i)
  {
    SeekBegins(w, name, time, v);
    EpochRuns(env, v, name, calls, x);
    SinceGrows(LogFor(w, name), LogFor(x, name), time);
  }

  lemma SinceGrows(log: seq<Message>, more: seq<Message>, time: Time)
    requires log <= more
    ensures forall i: nat :: Since(more, |log|, time, i) <==> Since(log, |log|, time, i)
  {
  }

  /** A message published before the time shares the key of message `i`, which comes later. */
  ghost predicate BehindOlder(log: seq<Message>, time: Time, i: nat) {
    exists j: nat :: j < i && SameKey(log, i, j) && log[j].publishedAt < time
  }

  lemma StuckAfterSeek(w: World, name: string, time: Time, v: World, i: nat)
    requires Valid(w) && name in w.state.subscriptions && v == DoSeekToTime(w, name, time).0
    requires Valid(v) && name in v.state.subscriptions && i < |LogFor(w, name)|
    ensures Stuck(TrackedOf(v, name), LogFor(w, name), i)
       <==> w.state.subscriptions[name].spec.ordering && BehindOlder(LogFor(w, name), time, i)
  {
    SeekBegins(w, name, time, v);
    var t, log := TrackedOf(v, name), LogFor(w, name);
    forall j: nat | j < |log| ensures OutOfReach(t, j) <==> log[j].publishedAt < time {
      assert t.epoch.start <= j <==> Since(log, |log|, time, j);
    }
  }

  /** A seek to a time and enough rounds settle exactly the messages published at or after that
      time, except, with ordering on, those that share a key with an older one. */
  lemma SeekThenDrain(w: World, name: string, time: Time, v: World, rounds: seq<Round>)
    requires Valid(w) && name in w.state.subscriptions && v == DoSeekToTime(w, name, time).0
    requires var spec := w.state.subscriptions[name].spec;
             && (spec.deadLetter.Some? ==> spec.deadLetter.value.topic != spec.topic)
             && forall k :: 0 <= k < |rounds| ==> Timely(spec, rounds[k].ackAfter)
    requires Valid(v) && name in v.state.subscriptions && |rounds| >= |OutstandingAt(v, name)|
    ensures var y, log := AfterRounds(v, name, rounds), LogFor(w, name);
            && name in y.state.subscriptions
            && forall i: nat :: i < |log| ==>
                 (i in y.state.subscriptions[name].acked
                  <==> log[i].publishedAt >= time
                       && !(w.state.subscriptions[name].spec.ordering && BehindOlder(log, time, i)))
  {
    SeekBegins(w, name, time, v);
    StartRuns(v, name);
    DrainsFrom(v, name, v.epochs[name].start, rounds);
    forall i: nat | i < |LogFor(w, name)|
      ensures v.epochs[name].start <= i <==> LogFor(w, name)[i].publishedAt >= time
      ensures Stuck(TrackedOf(v, name), LogFor(w, name), i)
         <==> w.state.subscriptions[name].spec.ordering && BehindOlder(LogFor(w, name), time, i)
    {
      assert v.epochs[name].start <= i <==> Since(LogFor(w, name), |LogFor(w, name)|, time, i);
      StuckAfterSeek(w, name, time, v, i);
    }
  }

  // ----- Seeking to a snapshot -----

  lemma SnapshotBegins(w: World, s: string, m: string, v: World)
    requires Valid(w) && s in w.state.snapshots && m in w.state.subscriptions
    requires w.state.subscriptions[m].spec.topic == w.state.snapshots[s].topic
    requires v == DoSeekToSnapshot(w, m, s).0
    ensures Valid(v) && DoSeekToSnapshot(w, m, s).1 == Accepted
    ensures m in v.state.subscriptions && LogFor(v, m) == LogFor(w, m)
    ensures TrackedOf(v, m) == BeginEpoch(w.state.subscriptions[m].spec, w.state.snapshots[s].topicIndex)
  {
    SeeksValid(w, m, 0, s);
  }

  /** Whatever happens between taking a snapshot and seeking to it (short of deleting it), and
      after that (short of seeking again), everything touched lies at or after the cursor that the
      snapshot was taken at. `DrainsFrom` says what enough rounds then settle. */
  lemma SnapshotRestoresCursor(env: Env, w: World, s: string, n: string, u: World, calls: seq<Call>,
                               v: World, m: string, z: World, more: seq<Call>, x: World)
    requires Valid(w) && (u, Accepted) == DoCreateSnapshot(w, s, n) && Valid(u)
    requires LeavesSnapshot(calls, s) && v == RunFrom(env, u, calls)
    requires m in v.state.subscriptions
    requires v.state.subscriptions[m].spec.topic == w.state.subscriptions[n].spec.topic
    requires z == DoSeekToSnapshot(v, m, s).0 && Valid(z)
    requires LeavesEpoch(more, m) && x == RunFrom(env, z, more)
    ensures DoSeekToSnapshot(v, m, s).1 == Accepted
    ensures RunsFrom(x, m, w.state.subscriptions[n].nextIndex)
  {
    SnapshotAlong(env, u, calls, s);
    SnapshotBegins(v, s, m, z);
    EpochRuns(env, z, m, more, x);
  }

  // ----- Acknowledgement ids over a seek -----

  function Times(events: seq<(nat, nat)>, i: nat): nat {
    if events == [] then 0
    else Times(events[..|events| - 1], i) + if events[|events| - 1].0 == i then 1 else 0
  }

  lemma {:induction false} HandedTimes(h: History, k: nat, i: nat)
    requires k <= |h|
    ensures DeliveriesBefore(h, k, i) == Times(HandedBy(h[..k], 0), i)
  {
    if k > 0 {
      HandedTimes(h, k - 1, i);
      var e, front := h[k - 1], HandedBy(h[..k - 1], 0);
      assert h[..k][..k - 1] == h[..k - 1];
      if e.kind.Delivered? {
        assert (front + [(e.index, e.kind.attempt)])[..|front|] == front;
      } else {
        assert front + [] == front;
      }
    }
  }

  lemma {:induction false} OnceAtMost(events: seq<(nat, nat)>, i: nat)
    requires forall c, d :: 0 <= c < d < |events| ==> events[c].0 != events[d].0
    ensures Times(events, i) <= 1
    ensures Times(events, i) == 1 ==> exists d :: 0 <= d < |events| && events[d].0 == i
  {
    if events != [] {
      OnceAtMost(events[..|events| - 1], i);
    }
  }

  /** After the first pull of an epoch every lease is for the first attempt and in time. */
  lemma FirstPullFirstAttempt(before: Work, v: Work, now: Time, i: nat)
    requires WorkSound(v) && ResultRight(before, v, now)
    requires before.t.epoch.trace == [] && before.t.sub.inflight == map[]
    requires LifeOf(v.t.epoch.trace, i).phase.Leased?
    ensures AttemptsOf(v.t.sub, i) == 1 && now <= LifeOf(v.t.epoch.trace, i).phase.deadline
  {
    var h := v.t.epoch.trace;
    assert Agrees(v.t, i);
    LeasedWasDelivered(h, |h|, i);
    LifeCountsDeliveries(h, |h|, i);
    HandedTimes(h, |h|, i);
    assert h[..|h|] == h;
    OnceAtMost(HandedBy(h, 0), i);
    var k :| k in v.t.sub.inflight && v.t.sub.inflight[k].index == i;
    var d :| 0 <= d < |v.deliveries| && v.deliveries[d].ackId == k;
    assert Delivers(v, v.deliveries[d], v.handed[d], now);
  }

  /** A pull with no leases outstanding. */
  lemma PullUnleased(w: World, name: string, max: u32, order: seq<string>, p: World, reply: Reply)
    returns (before: Work, v: Work)
    requires Valid(w) && name in w.state.subscriptions && w.state.subscriptions[name].inflight == map[]
    requires (p, reply) == DoPull(w, name, max, order)
    ensures before.t == TrackedOf(w, name) && WorkSound(v) && ResultRight(before, v, w.clock)
    ensures Valid(p) && p.clock == w.clock && name in p.state.subscriptions && TrackedOf(p, name) == v.t
    ensures p.state.topics == v.topics && v.t.epoch == w.epochs[name].(trace := v.t.epoch.trace)
    ensures v.t.sub.spec.name == name
  {
    var t := TrackedOf(w, name);
    SubscriptionValid(w, name);
    EnumerationSize(VisitOrder(order, Expired(t.sub.inflight, w.clock)), Expired(t.sub.inflight, w.clock));
    assert Expired(t.sub.inflight, w.clock) == {};
    before, v := StartWork(w.state, t), PullWork(w, name, max, order);
    PullReply(w, name, max, order);
    PullWorkSound(w, name, max, order);
    PullEffect(w, name, max, order, v);
  }

  lemma FirstIdSettles(before: Work, v: Work, now: Time, i: nat)
    requires WorkSound(v) && ResultRight(before, v, now) && v.t.epoch.fenced
    requires before.t.epoch.trace == [] && before.t.sub.inflight == map[]
    ensures var u := AckAll(v.t, [AckKey(v.t.sub.spec.name, i, 1)], now, LogIn(v)).0;
            i !in v.t.sub.acked && i in u.sub.acked <==> i in LeasedIn(v.t.sub.inflight)
  {
    EffectiveAck(v.t, LogIn(v), v.minted, i, 1, now);
    assert Agrees(v.t, i);
    if LifeOf(v.t.epoch.trace, i).phase.Leased? {
      FirstPullFirstAttempt(before, v, now, i);
    }
  }

  lemma FirstIdAfterPull(w: World, name: string, max: u32, order: seq<string>, p: World, reply: Reply, i: nat)
    requires Valid(w) && name in w.state.subscriptions && w.state.subscriptions[name].inflight == map[]
    requires w.epochs[name].trace == [] && w.epochs[name].fenced
    requires (p, reply) == DoPull(w, name, max, order)
    ensures Valid(p) && name in p.state.subscriptions
    ensures var u := AckAll(TrackedOf(p, name), [AckKey(name, i, 1)], p.clock, LogFor(p, name)).0;
            && i !in p.state.subscriptions[name].acked && i in u.sub.acked
            <==> i in LeasedIn(p.state.subscriptions[name].inflight)
  {
    var before, v := PullUnleased(w, name, max, order, p, reply);
    FirstIdSettles(before, v, w.clock, i);
  }

  /** `v` is `w` after a seek of the subscription, to a time or to a snapshot. */
  ghost predicate SoughtFrom(w: World, v: World, name: string) {
    || (exists time :: v == DoSeekToTime(w, name, time).0)
    || (exists s :: (v, Accepted) == DoSeekToSnapshot(w, name, s))
  }

  lemma SoughtBegins(w: World, v: World, name: string)
    requires Valid(w) && name in w.state.subscriptions && SoughtFrom(w, v, name)
    ensures Valid(v) && name in v.state.subscriptions
    ensures TrackedOf(v, name) == BeginEpoch(w.state.subscriptions[name].spec, v.epochs[name].start)
  {
    if time :| v == DoSeekToTime(w, name, time).0 {
      SeekBegins(w, name, time, v);
    } else {
      var s :| (v, Accepted) == DoSeekToSnapshot(w, name, s);
      SnapshotBegins(w, s, name, v);
    }
  }

  /** With exactly-once on, after any seek and a pull the ids of first attempts, such as were handed
      out before the seek, settle exactly the messages just delivered. */
  lemma OldIdsSettleNewLeases(w: World, name: string, v: World, max: u32, order: seq<string>,
                              p: World, reply: Reply, q: World, i: nat)
    requires Valid(w) && name in w.state.subscriptions && w.state.subscriptions[name].spec.exactlyOnce
    requires SoughtFrom(w, v, name) && Valid(v) && (p, reply) == DoPull(v, name, max, order)
    requires Valid(p) && q == DoAcknowledge(p, name, [AckKey(name, i, 1)]).0
    ensures name in p.state.subscriptions && name in q.state.subscriptions
    ensures i !in p.state.subscriptions[name].acked && i in q.state.subscriptions[name].acked
       <==> i in LeasedIn(p.state.subscriptions[name].inflight)
  {
    SoughtBegins(w, v, name);
    FirstIdAfterPull(v, name, max, order, p, reply, i);
  }
}
