/** The backlog figure of the inventory report, against what is really outstanding. */
module Backlog {
  import opened Basics
  import opened Model
  import opened Tracking
  import opened Broker
  import opened Guarantees

  function UnackedBelow(acked: set<nat>, n: nat): nat {
    if n == 0 then 0 else UnackedBelow(acked, n - 1) + if n - 1 in acked then 0 else 1
  }

  /** The figure reported: unacknowledged indices behind the cursor, messages ahead of it, and
      the retry queue. */
  function Reported(sub: Subscription, topicLen: nat): nat {
    UnackedBelow(sub.acked, Min(sub.nextIndex, topicLen)) + Max(topicLen - sub.nextIndex, 0) + |sub.retryQueue|
  }

  method ReportBacklog(sub: Subscription, topicLen: nat) returns (backlog: nat)
    ensures backlog == Reported(sub, topicLen)
  {
    var behind := 0;
    for i := 0 to Min(sub.nextIndex, topicLen)
      invariant behind == UnackedBelow(sub.acked, i)
    {
      if i !in sub.acked { behind := behind + 1; }
    }
    backlog := behind + Max(topicLen - sub.nextIndex, 0) + |sub.retryQueue|;
  }

  ghost function Unacked(acked: set<nat>, lo: nat, hi: nat): set<nat> {
    set i | i in Upto(hi) && lo <= i && i !in acked
  }

  function Upto(n: nat): (s: set<nat>)
    ensures forall i: nat :: i in s <==> i < n
  {
    if n == 0 then {} else Upto(n - 1) + {n - 1}
  }

  lemma {:induction false} UnackedCount(acked: set<nat>, lo: nat, hi: nat)
    requires lo <= hi && forall i :: i in acked ==> lo <= i
    ensures UnackedBelow(acked, hi) == lo + |Unacked(acked, lo, hi)|
    decreases hi
  {
    if hi == lo {
      assert Unacked(acked, lo, hi) == {};
      NoneAckedBelow(acked, lo);
    } else {
      UnackedCount(acked, lo, hi - 1);
      if hi - 1 in acked {
        assert Unacked(acked, lo, hi) == Unacked(acked, lo, hi - 1);
      } else {
        assert Unacked(acked, lo, hi) == Unacked(acked, lo, hi - 1) + {hi - 1};
      }
    }
  }

  lemma {:induction false} NoneAckedBelow(acked: set<nat>, n: nat)
    requires forall i :: i in acked ==> n <= i
    ensures UnackedBelow(acked, n) == n
  {
    if n > 0 {
      NoneAckedBelow(acked, n - 1);
    }
  }

  lemma {:induction false} LeaseCount(inflight: map<string, Lease>)
    requires UniqueLeases(inflight)
    ensures |LeasedIn(inflight)| == |inflight|
    decreases inflight.Keys
  {
    if inflight.Keys == {} {
      assert inflight == map[];
      assert LeasedIn(inflight) == {};
    } else {
      var k :| k in inflight.Keys;
      LeaseRemoved(inflight, k);
      LeaseCount(inflight - {k});
      assert inflight == (inflight - {k})[k := inflight[k]];
    }
  }

  lemma {:induction false} EntryCount(queue: seq<RetryEntry>)
    requires UniqueEntries(queue)
    ensures |QueuedIn(queue)| == |queue|
  {
    if queue == [] {
      assert QueuedIn(queue) == {};
    } else {
      var front, r := queue[..|queue| - 1], queue[|queue| - 1];
      EntryCount(front);
      assert queue == front + [r];
      assert r.index !in QueuedIn(front);
      EntryPushedBack(front, r);
    }
  }

  /** In every sound state the figure is the outstanding work (leased, queued and not yet read)
      plus the cursor at the start of the epoch, the queue once more, and the lost messages. */
  lemma BacklogIdentity(t: Tracked, topicLen: nat)
    requires Tracks(t) && t.sub.nextIndex <= topicLen
    ensures Reported(t.sub, topicLen)
         == (|t.sub.inflight| + |t.sub.retryQueue| + (topicLen - t.sub.nextIndex))
          + t.epoch.start + |t.sub.retryQueue| + |LostOf(t)|
  {
    LeaseCount(t.sub.inflight);
    EntryCount(t.sub.retryQueue);
    OutstandingCount(t);
    forall i | i in t.sub.acked ensures t.epoch.start <= i {
      assert Agrees(t, i);
    }
    UnackedCount(t.sub.acked, t.epoch.start, t.sub.nextIndex);
  }

  lemma UnackedIs(t: Tracked, i: nat)
    requires Tracks(t)
    ensures var leased, queued, lost := LeasedIn(t.sub.inflight), QueuedIn(t.sub.retryQueue), LostOf(t);
            && (i in Unacked(t.sub.acked, t.epoch.start, t.sub.nextIndex) <==> i in leased || i in queued || i in lost)
            && (i in leased ==> i !in queued && i !in lost) && (i in queued ==> i !in lost)
  {
    assert Agrees(t, i);
  }

  lemma SizeOfThree(a: set<nat>, b: set<nat>, c: set<nat>)
    requires a !! b && (a + b) !! c
    ensures |a + b + c| == |a| + |b| + |c|
  {
    assert |a + b + c| == |a + b| + |c|;
  }

  lemma OutstandingCount(t: Tracked)
    requires Tracks(t)
    ensures |Unacked(t.sub.acked, t.epoch.start, t.sub.nextIndex)|
         == |LeasedIn(t.sub.inflight)| + |QueuedIn(t.sub.retryQueue)| + |LostOf(t)|
  {
    var leased, queued, lost := LeasedIn(t.sub.inflight), QueuedIn(t.sub.retryQueue), LostOf(t);
    forall i: nat
      ensures i in Unacked(t.sub.acked, t.epoch.start, t.sub.nextIndex) <==> i in leased + queued + lost
      ensures i in leased ==> i !in queued && i !in lost
      ensures i in queued ==> i !in lost
    {
      UnackedIs(t, i);
    }
    assert Unacked(t.sub.acked, t.epoch.start, t.sub.nextIndex) == leased + queued + lost;
    SizeOfThree(leased, queued, lost);
  }

  /** So it never under-reports, and is exact if and only if the epoch began at the start of the
      log and nothing is queued or lost. */
  lemma BacklogNeverUnderReports(t: Tracked, topicLen: nat)
    requires Tracks(t) && t.sub.nextIndex <= topicLen
    ensures var outstanding := |t.sub.inflight| + |t.sub.retryQueue| + (topicLen - t.sub.nextIndex);
            && Reported(t.sub, topicLen) >= outstanding
            && (Reported(t.sub, topicLen) == outstanding
                <==> t.epoch.start == 0 && t.sub.retryQueue == [] && LostOf(t) == {})
  {
    BacklogIdentity(t, topicLen);
  }

  /** In every reachable state, for the figure given for any subscription. */
  lemma BacklogReported(w: World, n: string)
    requires Valid(w) && n in w.state.subscriptions
    ensures var s, topicLen := w.state.subscriptions[n], |LogFor(w, n)|;
            var outstanding := |s.inflight| + |s.retryQueue| + Max(topicLen - s.nextIndex, 0);
            && Reported(s, topicLen)
               == outstanding + w.epochs[n].start + |s.retryQueue| + |LostOf(TrackedOf(w, n))|
            && (Reported(s, topicLen) == outstanding
                <==> w.epochs[n].start == 0 && s.retryQueue == [] && LostOf(TrackedOf(w, n)) == {})
  {
    SubscriptionValid(w, n);
    BacklogIdentity(TrackedOf(w, n), |LogFor(w, n)|);
    BacklogNeverUnderReports(TrackedOf(w, n), |LogFor(w, n)|);
  }
}
