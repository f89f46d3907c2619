/** The relation between a subscription's four containers and the life cycles of its messages:
    the invariant behind every delivery guarantee. */
module Tracking {
  import opened Model
  import opened Lifecycle

  /** What is known of the time since the last seek (or the creation): the cursor then, the
      events since, and whether a flag was on all the time (or ever). */
  datatype Epoch = Epoch(start: nat, trace: History, ordered: bool, fenced: bool, everFenced: bool)

  datatype Tracked = Tracked(sub: Subscription, epoch: Epoch)

  // ----- Containers as sets of indices -----

  function LeasedIn(inflight: map<string, Lease>): set<nat> {
    set k | k in inflight :: inflight[k].index
  }

  function QueuedIn(queue: seq<RetryEntry>): set<nat> {
    set p | 0 <= p < |queue| :: queue[p].index
  }

  ghost predicate UniqueLeases(inflight: map<string, Lease>) {
    forall k, l :: k in inflight && l in inflight && inflight[k].index == inflight[l].index ==> k == l
  }

  ghost predicate UniqueEntries(queue: seq<RetryEntry>) {
    forall p, q :: 0 <= p < q < |queue| ==> queue[p].index != queue[q].index
  }

  function AttemptsOf(sub: Subscription, i: nat): nat {
    if i in sub.attempts then sub.attempts[i] else 0
  }

  function RemoveAt<T>(s: seq<T>, p: nat): seq<T>
    requires p < |s|
  {
    s[..p] + s[p + 1..]
  }

  lemma LeaseAdded(inflight: map<string, Lease>, k: string, l: Lease)
    requires UniqueLeases(inflight) && k !in inflight && l.index !in LeasedIn(inflight)
    ensures UniqueLeases(inflight[k := l])
    ensures LeasedIn(inflight[k := l]) == LeasedIn(inflight) + {l.index}
  {
    var more := inflight[k := l];
    assert forall j :: j in inflight ==> more[j] == inflight[j] && inflight[j].index in LeasedIn(inflight);
    assert more[k] == l;
    forall i | i in LeasedIn(inflight) + {l.index} ensures i in LeasedIn(more) {
      if i != l.index {
        var j :| j in inflight && inflight[j].index == i;
        assert more[j].index == i;
      }
    }
  }

  lemma LeaseRemoved(inflight: map<string, Lease>, k: string)
    requires UniqueLeases(inflight) && k in inflight
    ensures UniqueLeases(inflight - {k})
    ensures LeasedIn(inflight - {k}) == LeasedIn(inflight) - {inflight[k].index}
    ensures inflight[k].index in LeasedIn(inflight)
  {
    var less := inflight - {k};
    assert forall j :: j in less ==> less[j] == inflight[j];
    forall i | i in LeasedIn(inflight) - {inflight[k].index} ensures i in LeasedIn(less) {
      var j :| j in inflight && inflight[j].index == i;
      assert j in less && less[j].index == i;
    }
  }

  lemma EntryPushedBack(queue: seq<RetryEntry>, r: RetryEntry)
    requires UniqueEntries(queue) && r.index !in QueuedIn(queue)
    ensures UniqueEntries(queue + [r]) && QueuedIn(queue + [r]) == QueuedIn(queue) + {r.index}
  {
    var more := queue + [r];
    assert forall p :: 0 <= p < |queue| ==> more[p] == queue[p] && queue[p].index in QueuedIn(queue);
    assert more[|queue|] == r;
    forall i | i in QueuedIn(queue) ensures i in QueuedIn(more) {
      var p :| 0 <= p < |queue| && queue[p].index == i;
      assert more[p].index == i;
    }
  }

  lemma EntryPushedFront(queue: seq<RetryEntry>, r: RetryEntry)
    requires UniqueEntries(queue) && r.index !in QueuedIn(queue)
    ensures UniqueEntries([r] + queue) && QueuedIn([r] + queue) == QueuedIn(queue) + {r.index}
  {
    var more := [r] + queue;
    assert forall p :: 1 <= p < |more| ==> more[p] == queue[p - 1] && more[p].index in QueuedIn(queue);
    assert more[0] == r;
    forall i | i in QueuedIn(queue) ensures i in QueuedIn(more) {
      var p :| 0 <= p < |queue| && queue[p].index == i;
      assert more[p + 1].index == i;
    }
  }

  lemma EntryRemoved(queue: seq<RetryEntry>, p: nat)
    requires UniqueEntries(queue) && p < |queue|
    ensures UniqueEntries(RemoveAt(queue, p))
    ensures QueuedIn(RemoveAt(queue, p)) == QueuedIn(queue) - {queue[p].index}
    ensures forall r :: r in RemoveAt(queue, p) ==> r in queue
    ensures queue[p].index in QueuedIn(queue)
  {
    var less := RemoveAt(queue, p);
    assert forall q :: 0 <= q < |less| ==> less[q] == queue[if q < p then q else q + 1];
    forall i | i in QueuedIn(queue) - {queue[p].index} ensures i in QueuedIn(less) {
      var q :| 0 <= q < |queue| && queue[q].index == i;
      assert less[if q < p then q else q - 1] == queue[q];
    }
  }

  // ----- The invariant -----

  /** Each container holds exactly the indices in the corresponding phase. */
  ghost predicate Agrees(t: Tracked, i: nat) {
    var life := LifeOf(t.epoch.trace, i);
    && (life.phase.Fresh? <==> !(t.epoch.start <= i < t.sub.nextIndex))
    && (life.phase.Done? <==> i in t.sub.acked)
    && (life.phase.Leased? <==> i in LeasedIn(t.sub.inflight))
    && (life.phase.Waiting? <==> i in QueuedIn(t.sub.retryQueue))
    && (!life.phase.Done? ==> AttemptsOf(t.sub, i) == life.deliveries)
  }

  ghost predicate LeasesTimed(t: Tracked) {
    forall k :: k in t.sub.inflight ==>
      LifeOf(t.epoch.trace, t.sub.inflight[k].index).phase == Leased(t.sub.inflight[k].deadline)
  }

  ghost predicate EntriesTimed(t: Tracked) {
    forall r :: r in t.sub.retryQueue ==>
      LifeOf(t.epoch.trace, r.index).phase == Waiting(r.availableAt)
  }

  ghost predicate Shaped(t: Tracked) {
    && t.epoch.start <= t.sub.nextIndex
    && Legal(t.epoch.trace)
    && UniqueLeases(t.sub.inflight)
    && UniqueEntries(t.sub.retryQueue)
    && LeasesTimed(t)
    && EntriesTimed(t)
  }

  ghost predicate Tracks(t: Tracked) {
    Shaped(t) && forall i :: Agrees(t, i)
  }

  /** Index `i` has been taken out of its container and not yet put into one. */
  ghost predicate InHand(t: Tracked, i: nat) {
    && Shaped(t)
    && (forall j :: j != i ==> Agrees(t, j))
    && t.epoch.start <= i < t.sub.nextIndex
    && i !in t.sub.acked && i !in LeasedIn(t.sub.inflight) && i !in QueuedIn(t.sub.retryQueue)
    && AttemptsOf(t.sub, i) == LifeOf(t.epoch.trace, i).deliveries
  }

  function Record(epoch: Epoch, e: Event): Epoch {
    epoch.(trace := epoch.trace + [e])
  }

  /** `s` is `t.sub` with index `i` put into the one container that its phase after `e` calls
      for, and with the attempt counts of all other indices untouched. */
  ghost predicate Places(t: Tracked, s: Subscription, e: Event) {
    var phase := Next(LifeOf(t.epoch.trace, e.index), e).phase;
    && s.nextIndex == t.sub.nextIndex
    && s.acked == t.sub.acked + (if phase.Done? then {e.index} else {})
    && LeasedIn(s.inflight) == LeasedIn(t.sub.inflight) + (if phase.Leased? then {e.index} else {})
    && QueuedIn(s.retryQueue) == QueuedIn(t.sub.retryQueue) + (if phase.Waiting? then {e.index} else {})
    && UniqueLeases(s.inflight) && UniqueEntries(s.retryQueue)
    && (forall k :: k in s.inflight ==>
          || (k in t.sub.inflight && s.inflight[k] == t.sub.inflight[k])
          || (phase.Leased? && s.inflight[k] == Lease(e.index, phase.deadline)))
    && (forall r :: r in s.retryQueue ==>
          r in t.sub.retryQueue || (phase.Waiting? && r == RetryEntry(e.index, phase.notBefore)))
    && (forall j :: j != e.index ==> AttemptsOf(s, j) == AttemptsOf(t.sub, j))
    && (!phase.Done? ==> AttemptsOf(s, e.index) == Next(LifeOf(t.epoch.trace, e.index), e).deliveries)
  }

  lemma PutDown(t: Tracked, s: Subscription, e: Event)
    requires InHand(t, e.index) && Allowed(LifeOf(t.epoch.trace, e.index), e) && Places(t, s, e)
    ensures Tracks(Tracked(s, Record(t.epoch, e)))
  {
    var u := Tracked(s, Record(t.epoch, e));
    LifeAfter(t.epoch.trace, e);
    LegalAfter(t.epoch.trace, e);
    forall j ensures Agrees(u, j) {
      assert j != e.index ==> Agrees(t, j);
    }
    forall k | k in s.inflight
      ensures LifeOf(u.epoch.trace, s.inflight[k].index).phase == Leased(s.inflight[k].deadline)
    {
      if k in t.sub.inflight && s.inflight[k] == t.sub.inflight[k] {
        assert s.inflight[k].index in LeasedIn(t.sub.inflight);
      }
    }
    forall r | r in s.retryQueue ensures LifeOf(u.epoch.trace, r.index).phase == Waiting(r.availableAt) {
      if r in t.sub.retryQueue {
        assert r.index in QueuedIn(t.sub.retryQueue);
      }
    }
  }

  // ----- Taking an index out of its container -----

  lemma TakeEntry(t: Tracked, p: nat)
    requires Tracks(t) && p < |t.sub.retryQueue|
    ensures var r := t.sub.retryQueue[p];
            && InHand(t.(sub := t.sub.(retryQueue := RemoveAt(t.sub.retryQueue, p))), r.index)
            && LifeOf(t.epoch.trace, r.index).phase == Waiting(r.availableAt)
  {
    var r := t.sub.retryQueue[p];
    EntryRemoved(t.sub.retryQueue, p);
    var u := t.(sub := t.sub.(retryQueue := RemoveAt(t.sub.retryQueue, p)));
    assert Agrees(t, r.index);
    forall j | j != r.index ensures Agrees(u, j) {
      assert Agrees(t, j);
    }
  }

  lemma TakeFresh(t: Tracked)
    requires Tracks(t)
    ensures InHand(t.(sub := t.sub.(nextIndex := t.sub.nextIndex + 1)), t.sub.nextIndex)
    ensures LifeOf(t.epoch.trace, t.sub.nextIndex).phase == Fresh
  {
    var u := t.(sub := t.sub.(nextIndex := t.sub.nextIndex + 1));
    assert Agrees(t, t.sub.nextIndex);
    forall j | j != t.sub.nextIndex ensures Agrees(u, j) {
      assert Agrees(t, j);
    }
  }

  lemma TakeLease(t: Tracked, k: string)
    requires Tracks(t) && k in t.sub.inflight
    ensures var l := t.sub.inflight[k];
            && InHand(t.(sub := t.sub.(inflight := t.sub.inflight - {k})), l.index)
            && LifeOf(t.epoch.trace, l.index).phase == Leased(l.deadline)
            && LifeOf(t.epoch.trace, l.index).deliveries == AttemptsOf(t.sub, l.index)
  {
    var l := t.sub.inflight[k];
    LeaseRemoved(t.sub.inflight, k);
    var u := t.(sub := t.sub.(inflight := t.sub.inflight - {k}));
    assert Agrees(t, l.index);
    forall j | j != l.index ensures Agrees(u, j) {
      assert Agrees(t, j);
    }
  }

  // ----- Conservation -----

  /** The indices in no container although examined. */
  ghost function LostOf(t: Tracked): set<nat> {
    set i | t.epoch.start <= i < t.sub.nextIndex && LifeOf(t.epoch.trace, i).phase.Lost?
  }

  /** The indices examined since the epoch began split, without overlap or repetition, into
      acknowledged, leased, queued and lost ones. */
  ghost predicate Conserved(t: Tracked) {
    var leased, queued, lost := LeasedIn(t.sub.inflight), QueuedIn(t.sub.retryQueue), LostOf(t);
    && t.epoch.start <= t.sub.nextIndex
    && (forall i: nat :: i in t.sub.acked + leased + queued + lost <==> t.epoch.start <= i < t.sub.nextIndex)
    && t.sub.acked !! leased !! queued !! lost
    && UniqueLeases(t.sub.inflight)
    && UniqueEntries(t.sub.retryQueue)
  }

  lemma TracksConserves(t: Tracked)
    requires Tracks(t)
    ensures Conserved(t)
  {
    var leased, queued, lost := LeasedIn(t.sub.inflight), QueuedIn(t.sub.retryQueue), LostOf(t);
    forall i: nat
      ensures i in t.sub.acked + leased + queued + lost <==> t.epoch.start <= i < t.sub.nextIndex
      ensures i in t.sub.acked ==> i !in leased && i !in queued && i !in lost
      ensures i in leased ==> i !in queued && i !in lost
      ensures i in queued ==> i !in lost
    {
      assert Agrees(t, i);
    }
  }

  /** A new epoch: empty containers, nothing recorded. */
  lemma NewEpoch(t: Tracked)
    requires t.sub.acked == {} && t.sub.inflight == map[] && t.sub.retryQueue == []
    requires t.sub.attempts == map[]
    requires t.epoch.start == t.sub.nextIndex && t.epoch.trace == []
    ensures Tracks(t)
  {
  }
}
