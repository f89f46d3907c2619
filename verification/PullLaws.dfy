/** Every pull on every valid world: the leases it takes back, the order in which it examines the
    messages, what it decides about each, and the retry queue that it leaves. */
module PullLaws {
  import opened Basics
  import opened Model
  import opened Lifecycle
  import opened Tracking
  import opened Consumer
  import opened Pulling
  import opened PullSafety
  import opened PullResults
  import opened Broker
  import opened Verdicts
  import opened Schedule
  import opened Guarantees
  import opened Outcomes

  // ----- Taking expired leases back -----

  /** `back` names each expired lease once. */
  ghost predicate EachExpired(inflight: map<string, Lease>, back: seq<string>, now: Time) {
    && (forall k :: k in back <==> k in inflight && inflight[k].deadline <= now)
    && (forall p, q :: 0 <= p < q < |back| ==> back[p] != back[q])
  }

  /** The queue has gained an entry for each lease in `back`, in that order. */
  ghost predicate EntriesAdded(inflight: map<string, Lease>, back: seq<string>, was: seq<RetryEntry>,
                               is_: seq<RetryEntry>, entry: nat -> RetryEntry)
  {
    && |is_| == |was| + |back| && was <= is_
    && forall p :: 0 <= p < |back| ==> back[p] in inflight && is_[|was| + p] == entry(inflight[back[p]].index)
  }

  /** The history has gained the event of each. */
  ghost predicate EventsAdded(inflight: map<string, Lease>, back: seq<string>, was: History, is_: History,
                              policy: Option<RetrySpec>, now: Time)
  {
    && |is_| == |was| + |back| && was <= is_
    && forall p :: 0 <= p < |back| ==>
         back[p] in inflight && is_[|was| + p] == Event(inflight[back[p]].index, now, Reclaimed(policy))
  }

  lemma EntriesThen(inflight: map<string, Lease>, back: seq<string>, was: seq<RetryEntry>, is_: seq<RetryEntry>,
                    entry: nat -> RetryEntry)
    requires back != [] && back[0] in inflight
    requires EntriesAdded(inflight - {back[0]}, back[1..], was + [entry(inflight[back[0]].index)], is_, entry)
    ensures EntriesAdded(inflight, back, was, is_, entry)
  {
    var more := was + [entry(inflight[back[0]].index)];
    assert more[|was|] == is_[|was|] && forall p :: 0 <= p < |was| ==> more[p] == was[p];
    forall p | 0 <= p < |back| ensures back[p] in inflight && is_[|was| + p] == entry(inflight[back[p]].index) {
      if p > 0 {
        assert back[1..][p - 1] == back[p] && is_[|more| + (p - 1)] == is_[|was| + p];
      }
    }
  }

  lemma EventsThen(inflight: map<string, Lease>, back: seq<string>, was: History, is_: History,
                   policy: Option<RetrySpec>, now: Time)
    requires back != [] && back[0] in inflight
    requires EventsAdded(inflight - {back[0]}, back[1..],
                         was + [Event(inflight[back[0]].index, now, Reclaimed(policy))], is_, policy, now)
    ensures EventsAdded(inflight, back, was, is_, policy, now)
  {
    var more := was + [Event(inflight[back[0]].index, now, Reclaimed(policy))];
    assert more[|was|] == is_[|was|] && forall p :: 0 <= p < |was| ==> more[p] == was[p];
    forall p | 0 <= p < |back|
      ensures back[p] in inflight && is_[|was| + p] == Event(inflight[back[p]].index, now, Reclaimed(policy))
    {
      if p > 0 {
        assert back[1..][p - 1] == back[p] && is_[|more| + (p - 1)] == is_[|was| + p];
      }
    }
  }

  lemma ReclaimStep(t: Tracked, k: string, now: Time, log: seq<Message>, minted: nat, entry: nat -> RetryEntry)
    requires Sound(t, log, minted) && k in t.sub.inflight
    requires forall i :: entry(i) == RetryOf(t.sub, i, now)
    ensures var i, u := t.sub.inflight[k].index, ReclaimOne(t, k, now);
            && u.sub == t.sub.(inflight := t.sub.inflight - {k}, retryQueue := t.sub.retryQueue + [entry(i)])
            && u.epoch == t.epoch.(trace := t.epoch.trace + [Event(i, now, Reclaimed(t.sub.spec.retry))])
            && forall j :: RetryOf(u.sub, j, now) == RetryOf(t.sub, j, now)
  {
    assert t.sub.inflight[k].index in LeasedIn(t.sub.inflight);
    assert Agrees(t, t.sub.inflight[k].index);
  }

  lemma {:induction false} ReclaimReturns(t: Tracked, back: seq<string>, now: Time, log: seq<Message>, minted: nat,
                                          entry: nat -> RetryEntry)
    requires Sound(t, log, minted) && AllExpired(t.sub.inflight, back, now)
    requires forall i :: entry(i) == RetryOf(t.sub, i, now)
    ensures var u := Reclaim(t, back, now);
            && u.sub == t.sub.(inflight := u.sub.inflight, retryQueue := u.sub.retryQueue)
            && EntriesAdded(t.sub.inflight, back, t.sub.retryQueue, u.sub.retryQueue, entry)
            && u.epoch == t.epoch.(trace := u.epoch.trace)
            && EventsAdded(t.sub.inflight, back, t.epoch.trace, u.epoch.trace, t.sub.spec.retry, now)
    decreases |back|
  {
    if back != [] {
      var u := ReclaimOne(t, back[0], now);
      RestExpired(t.sub.inflight, back, now);
      ReclaimOneSound(t, back[0], now, log, minted);
      ReclaimStep(t, back[0], now, log, minted, entry);
      ReclaimReturns(u, back[1..], now, log, minted, entry);
      var v := Reclaim(u, back[1..], now);
      EntriesThen(t.sub.inflight, back, t.sub.retryQueue, v.sub.retryQueue, entry);
      EventsThen(t.sub.inflight, back, t.epoch.trace, v.epoch.trace, t.sub.spec.retry, now);
    }
  }

  /** From `t` to `r` exactly the expired leases, in the order of `back`, have ended; their messages
      stand at the end of the queue, each with its backoff from now under the retry policy in force;
      each has its event, and nothing else has changed. */
  ghost predicate TakenBack(t: Tracked, r: Tracked, back: seq<string>, now: Time) {
    var inflight, was := t.sub.inflight, t.sub.retryQueue;
    && EachExpired(inflight, back, now)
    && r.sub == t.sub.(inflight := inflight - IdSet(back), retryQueue := r.sub.retryQueue)
    && |r.sub.retryQueue| == |was| + |back| && was <= r.sub.retryQueue
    && (forall p :: 0 <= p < |back| ==>
          && AttemptsOf(t.sub, inflight[back[p]].index) >= 1
          && r.sub.retryQueue[|was| + p] == Release(t.sub, inflight[back[p]].index, now))
    && r.epoch == t.epoch.(trace := r.epoch.trace)
    && EventsAdded(inflight, back, t.epoch.trace, r.epoch.trace, t.sub.spec.retry, now)
  }

  lemma ReclaimTakesBack(t: Tracked, back: seq<string>, now: Time, log: seq<Message>, minted: nat)
    requires Sound(t, log, minted) && Enumerates(back, Expired(t.sub.inflight, now))
    ensures TakenBack(t, Reclaim(t, back, now), back, now)
  {
    var inflight := t.sub.inflight;
    var entry := (i: nat) => RetryOf(t.sub, i, now);
    EnumeratedExpired(inflight, back, now);
    ReclaimSound(t, back, now, log, minted);
    ReclaimReturns(t, back, now, log, minted, entry);
    SoundCounts(t, log, minted);
    assert IdSet(back) == Expired(inflight, now);
    forall p | 0 <= p < |back|
      ensures AttemptsOf(t.sub, inflight[back[p]].index) >= 1
      ensures entry(inflight[back[p]].index) == Release(t.sub, inflight[back[p]].index, now)
    {
      RetryIsRelease(t.sub, inflight[back[p]].index, now);
    }
  }

  // ----- The whole pull -----

  /** A pull: from `t`, over `r` with the expired leases taken back, to `v`. */
  ghost predicate Pulls(w: World, name: string, max: u32, t: Tracked, r: Tracked, back: seq<string>, v: Work)
  {
    var from, log := |r.epoch.trace|, LogOf(w.state.topics, t.sub.spec.topic);
    && TakenBack(t, r, back, w.clock)
    && r.epoch.trace <= v.t.epoch.trace && v.t.sub.spec == t.sub.spec
    && AllJudged(t.sub.spec, w.state.topics.Keys, LogIn(v), v.t.epoch.trace, from, w.clock)
    && var examined, plan := IndicesFrom(v.t.epoch.trace, from), Planned(r.sub, w.clock, |log|);
    && examined <= plan && (|v.deliveries| < Min(Max(max, 1), 1000) ==> examined == plan)
    && v.t.sub.retryQueue == Except(r.sub.retryQueue, examined) + HeldFrom(v.t.epoch.trace, from)
  }

  lemma StartsOnPlan(s: State, r: Tracked, now: Time, topicLen: nat)
    ensures WorkJudged(StartWork(s, r), |r.epoch.trace|, now)
    ensures OnPlan(StartWork(s, r), |r.epoch.trace|, now, topicLen, Planned(r.sub, now, topicLen))
  {
  }

  lemma {:induction false} ExceptNone(queue: seq<RetryEntry>)
    ensures Except(queue, []) == queue
  {
    if queue != [] {
      ExceptNone(queue[..|queue| - 1]);
    }
  }

  lemma StartsQueue(s: State, r: Tracked)
    requires Tracks(r)
    ensures QueueRight(r.sub.retryQueue, StartWork(s, r), |r.epoch.trace|) && UniqueEntries(r.sub.retryQueue)
  {
    ExceptNone(r.sub.retryQueue);
    forall e | e in r.sub.retryQueue ensures e.index < r.sub.nextIndex {
      assert e.index in QueuedIn(r.sub.retryQueue);
      assert Agrees(r, e.index);
    }
  }

  /** A pull takes back exactly the expired leases; then it examines the due retries in the order of
      the queue and the messages from the cursor on, until the limit or the end; each examination
      comes to what the history so far calls for; and the queue keeps its order, with those found
      blocked at the end. */
  lemma PullIsLawful(w: World, name: string, max: u32, order: seq<string>)
    requires Valid(w) && name in w.state.subscriptions
    ensures var t := TrackedOf(w, name);
            var back := VisitOrder(order, Expired(t.sub.inflight, w.clock));
            Pulls(w, name, max, t, Reclaim(t, back, w.clock), back, PullWork(w, name, max, order))
  {
    var t := TrackedOf(w, name);
    var back := VisitOrder(order, Expired(t.sub.inflight, w.clock));
    var r := Reclaim(t, back, w.clock);
    var work, from := StartWork(w.state, r), |r.epoch.trace|;
    var topicLen, limit := |LogIn(work)|, PullLimit(max);
    SubscriptionValid(w, name);
    ReclaimTakesBack(t, back, w.clock, LogFor(w, name), w.state.minted);
    ReclaimExpiredSound(w, name, back);
    WorkInBounds(work, topicLen);
    StartsOnPlan(w.state, r, w.clock, topicLen);
    StartsQueue(w.state, r);
    LoopJudges(work, from, w.clock, limit, topicLen);
    LoopFollowsPlan(work, from, w.clock, limit, topicLen, Planned(r.sub, w.clock, topicLen));
    LoopQueue(r.sub.retryQueue, work, from, w.clock, limit, topicLen);
    PullReply(w, name, max, order);
  }
}
