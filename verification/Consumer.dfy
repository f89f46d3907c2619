/** What a subscription promises besides the tracking of its containers, and the steps that give
    leases up: reclaiming expired ones, acknowledging, and changing deadlines. */
module Consumer {
  import opened Model
  import opened Lifecycle
  import opened Tracking
  import Filter

  // ----- Promises over the log -----

  predicate Passes(filter: string, attributes: Filter.Attributes) {
    var f := Filter.Parse(filter);
    f.Some? && Filter.Matches(f.value, attributes)
  }

  predicate SameKey(log: seq<Message>, i: nat, j: nat) {
    i < |log| && j < |log| && log[i].orderingKey != "" && log[j].orderingKey == log[i].orderingKey
  }

  /** Everything of one key that is acknowledged or leased comes after nothing unacknowledged. */
  ghost predicate InKeyOrder(sub: Subscription, log: seq<Message>) {
    forall i, j :: i in sub.acked + LeasedIn(sub.inflight) && j < i && SameKey(log, i, j) ==> j in sub.acked
  }

  ghost predicate KeyFits(sub: Subscription, minted: nat, k: string, i: nat) {
    || (exists a: nat :: a <= AttemptsOf(sub, i) && k == AckKey(sub.spec.name, i, a))
    || (exists n: nat :: n < minted && k == Uuid(n))
  }

  /** Every lease is filed under its own key text or under a generated id already drawn. */
  ghost predicate KeysFit(sub: Subscription, minted: nat) {
    forall k :: k in sub.inflight ==> KeyFits(sub, minted, k, sub.inflight[k].index)
  }

  /** Under exactly-once every lease is filed under (index, current attempt). */
  ghost predicate KeysCurrent(sub: Subscription) {
    forall k :: k in sub.inflight ==>
      k == AckKey(sub.spec.name, sub.inflight[k].index, AttemptsOf(sub, sub.inflight[k].index))
  }

  ghost predicate OrderingAckedFits(sub: Subscription, log: seq<Message>) {
    forall key :: key in sub.orderingAcked ==>
      var i := sub.orderingAcked[key];
      i in sub.acked && i < |log| && log[i].orderingKey == key
  }

  ghost predicate OnlyMatching(t: Tracked, log: seq<Message>) {
    forall i: nat :: LifeOf(t.epoch.trace, i).deliveries > 0 ==>
      i < |log| && Passes(t.sub.spec.filter, log[i].attributes)
  }

  ghost predicate NoLateAcks(h: History) {
    forall p :: 0 <= p < |h| ==> !h[p].kind.AckedLate?
  }

  /** The flags of the epoch record tell the truth about the flags of the subscription. */
  ghost predicate FlagsTrue(t: Tracked) {
    && (t.epoch.ordered ==> t.sub.spec.ordering)
    && (t.epoch.fenced ==> t.sub.spec.exactlyOnce)
    && (!t.epoch.everFenced ==> !t.sub.spec.exactlyOnce && NoLateAcks(t.epoch.trace))
  }

  ghost predicate Kept(t: Tracked, log: seq<Message>, minted: nat) {
    && t.sub.nextIndex <= |log|
    && Filter.Parse(t.sub.spec.filter).Some?
    && FlagsTrue(t)
    && KeysFit(t.sub, minted)
    && (t.epoch.fenced ==> KeysCurrent(t.sub))
    && (t.epoch.ordered ==> InKeyOrder(t.sub, log))
    && OrderingAckedFits(t.sub, log)
    && OnlyMatching(t, log)
  }

  /** The invariant of one subscription over its topic's log. */
  ghost predicate Sound(t: Tracked, log: seq<Message>, minted: nat) {
    Tracks(t) && Kept(t, log, minted)
  }

  lemma SoundGrows(t: Tracked, log: seq<Message>, minted: nat, log': seq<Message>, minted': nat)
    requires Sound(t, log, minted) && log <= log' && minted <= minted'
    ensures Sound(t, log', minted')
  {
    assert forall i :: 0 <= i < |log| ==> log'[i] == log[i];
    forall k | k in t.sub.inflight ensures KeyFits(t.sub, minted', k, t.sub.inflight[k].index) {
      assert KeyFits(t.sub, minted, k, t.sub.inflight[k].index);
    }
    if t.epoch.ordered {
      forall i, j | i in t.sub.acked + LeasedIn(t.sub.inflight) && j < i && SameKey(log', i, j)
        ensures j in t.sub.acked
      {
        assert Agrees(t, i);
        assert SameKey(log, i, j);
      }
    }
  }

  /** A step that hands nothing out: leases at most disappear or get a new deadline, and only
      leased indices become acknowledged. */
  ghost predicate Quiet(t: Tracked, u: Tracked, log: seq<Message>) {
    && u.sub.spec == t.sub.spec && u.sub.nextIndex == t.sub.nextIndex
    && u.sub.attempts == t.sub.attempts
    && (forall k :: k in u.sub.inflight ==> k in t.sub.inflight && u.sub.inflight[k].index == t.sub.inflight[k].index)
    && t.sub.acked <= u.sub.acked <= t.sub.acked + LeasedIn(t.sub.inflight)
    && OrderingAckedFits(u.sub, log)
    && (exists e: Event :: !e.kind.Delivered? && (e.kind.AckedLate? ==> t.sub.spec.exactlyOnce)
          && u.epoch == Record(t.epoch, e))
  }

  lemma QuietKeeps(t: Tracked, u: Tracked, log: seq<Message>, minted: nat)
    requires Kept(t, log, minted) && Quiet(t, u, log)
    ensures Kept(u, log, minted)
  {
    var e: Event :| !e.kind.Delivered? && (e.kind.AckedLate? ==> t.sub.spec.exactlyOnce)
      && u.epoch == Record(t.epoch, e);
    LifeAfter(t.epoch.trace, e);
    forall i: nat | LifeOf(u.epoch.trace, i).deliveries > 0
      ensures i < |log| && Passes(u.sub.spec.filter, log[i].attributes)
    {
      assert LifeOf(t.epoch.trace, i).deliveries > 0;
    }
    forall k | k in u.sub.inflight ensures KeyFits(u.sub, minted, k, u.sub.inflight[k].index) {
      assert KeyFits(t.sub, minted, k, t.sub.inflight[k].index);
    }
    forall i | i in u.sub.acked + LeasedIn(u.sub.inflight)
      ensures i in t.sub.acked + LeasedIn(t.sub.inflight)
    {
      if i in LeasedIn(u.sub.inflight) {
        var k :| k in u.sub.inflight && u.sub.inflight[k].index == i;
        assert t.sub.inflight[k].index == i;
      }
    }
  }

  // ----- Reclaiming expired leases -----

  function AttemptForBackoff(sub: Subscription, i: nat): nat {
    if i in sub.attempts then sub.attempts[i] else 1
  }

  /** Where a message given back goes: to the retry queue after its backoff. */
  function RetryOf(sub: Subscription, i: nat, now: Time): RetryEntry {
    RetryEntry(i, now + SECOND * BackoffSeconds(sub.spec.retry, AttemptForBackoff(sub, i)))
  }

  function ReclaimOne(t: Tracked, k: string, now: Time): Tracked
    requires k in t.sub.inflight
  {
    var i := t.sub.inflight[k].index;
    var s := t.sub.(inflight := t.sub.inflight - {k});
    if i in s.acked then t.(sub := s)
    else Tracked(s.(retryQueue := s.retryQueue + [RetryOf(s, i, now)]),
                 Record(t.epoch, Event(i, now, Reclaimed(s.spec.retry))))
  }

  /** Reclaims the listed leases in the order of the list. */
  function Reclaim(t: Tracked, ids: seq<string>, now: Time): Tracked
    decreases |ids|
  {
    if ids == [] then t
    else Reclaim(if ids[0] in t.sub.inflight then ReclaimOne(t, ids[0], now) else t, ids[1..], now)
  }

  /** The life of a leased message counts at least one delivery. */
  lemma {:induction false} LeasedWasDelivered(h: History, k: nat, i: nat)
    requires k <= |h| && Legal(h) && LifeAt(h, k, i).phase.Leased?
    ensures LifeAt(h, k, i).deliveries >= 1
  {
    assert LegalAt(h, k - 1);
    if !(h[k - 1].index == i && h[k - 1].kind.Delivered?) {
      LeasedWasDelivered(h, k - 1, i);
    }
  }

  lemma ReclaimOneTracks(t: Tracked, k: string, now: Time)
    requires Tracks(t) && k in t.sub.inflight && t.sub.inflight[k].deadline <= now
    ensures Tracks(ReclaimOne(t, k, now))
    ensures ReclaimOne(t, k, now).epoch
         == Record(t.epoch, Event(t.sub.inflight[k].index, now, Reclaimed(t.sub.spec.retry)))
  {
    var i := t.sub.inflight[k].index;
    TakeLease(t, k);
    LeasedWasDelivered(t.epoch.trace, |t.epoch.trace|, i);
    var held := t.(sub := t.sub.(inflight := t.sub.inflight - {k}));
    var r := RetryOf(held.sub, i, now);
    EntryPushedBack(held.sub.retryQueue, r);
    var e := Event(i, now, Reclaimed(t.sub.spec.retry));
    var s := held.sub.(retryQueue := held.sub.retryQueue + [r]);
    assert Places(held, s, e);
    PutDown(held, s, e);
  }

  lemma ReclaimOneSound(t: Tracked, k: string, now: Time, log: seq<Message>, minted: nat)
    requires Sound(t, log, minted) && k in t.sub.inflight && t.sub.inflight[k].deadline <= now
    ensures var u := ReclaimOne(t, k, now);
            && Sound(u, log, minted)
            && u.sub.inflight == t.sub.inflight - {k}
            && u.sub.acked == t.sub.acked && u.sub.spec == t.sub.spec
            && u.sub.nextIndex == t.sub.nextIndex
            && u.epoch == Record(t.epoch, Event(t.sub.inflight[k].index, now, Reclaimed(t.sub.spec.retry)))
  {
    ReclaimOneTracks(t, k, now);
    assert Quiet(t, ReclaimOne(t, k, now), log);
    QuietKeeps(t, ReclaimOne(t, k, now), log, minted);
  }

  // ----- Acknowledging -----

  function KeyAt(log: seq<Message>, i: nat): string {
    if i < |log| then log[i].orderingKey else ""
  }

  function AckOne(t: Tracked, k: string, now: Time, log: seq<Message>): Tracked
    requires k in t.sub.inflight
  {
    var i := t.sub.inflight[k].index;
    var key := KeyAt(log, i);
    Tracked(t.sub.(inflight := t.sub.inflight - {k},
                   orderingAcked := if key != "" then t.sub.orderingAcked[key := i] else t.sub.orderingAcked,
                   acked := t.sub.acked + {i}),
            Record(t.epoch, Event(i, now, Acked)))
  }

  predicate IsLate(sub: Subscription, k: string, now: Time)
    requires k in sub.inflight
  {
    sub.spec.exactlyOnce && sub.inflight[k].deadline < now
  }

  /** A late exactly-once acknowledgement drops the lease before it fails. */
  function AckLate(t: Tracked, k: string, now: Time): Tracked
    requires k in t.sub.inflight
  {
    Tracked(t.sub.(inflight := t.sub.inflight - {k}),
            Record(t.epoch, Event(t.sub.inflight[k].index, now, AckedLate)))
  }

  /** Acknowledges in order; unknown ids are ignored, a late one stops the call. */
  function AckAll(t: Tracked, ids: seq<string>, now: Time, log: seq<Message>): (Tracked, bool)
    decreases |ids|
  {
    if ids == [] then (t, true)
    else if ids[0] !in t.sub.inflight then AckAll(t, ids[1..], now, log)
    else if IsLate(t.sub, ids[0], now) then (AckLate(t, ids[0], now), false)
    else AckAll(AckOne(t, ids[0], now, log), ids[1..], now, log)
  }

  lemma AckOneTracks(t: Tracked, k: string, now: Time, log: seq<Message>)
    requires Tracks(t) && k in t.sub.inflight
    ensures Tracks(AckOne(t, k, now, log))
  {
    var i := t.sub.inflight[k].index;
    TakeLease(t, k);
    var held := t.(sub := t.sub.(inflight := t.sub.inflight - {k}));
    var s, e := AckOne(t, k, now, log).sub, Event(i, now, Acked);
    assert Places(held, s, e);
    PutDown(held, s, e);
  }

  lemma AckOneSound(t: Tracked, k: string, now: Time, log: seq<Message>, minted: nat)
    requires Sound(t, log, minted) && k in t.sub.inflight
    ensures Sound(AckOne(t, k, now, log), log, minted)
  {
    var i := t.sub.inflight[k].index;
    AckOneTracks(t, k, now, log);
    var u := AckOne(t, k, now, log);
    assert Quiet(t, u, log) by {
      assert Agrees(t, i);
      assert u.epoch == Record(t.epoch, Event(i, now, Acked));
    }
    QuietKeeps(t, u, log, minted);
  }

  lemma AckLateSound(t: Tracked, k: string, now: Time, log: seq<Message>, minted: nat)
    requires Sound(t, log, minted) && k in t.sub.inflight && IsLate(t.sub, k, now)
    ensures Sound(AckLate(t, k, now), log, minted)
  {
    var i := t.sub.inflight[k].index;
    TakeLease(t, k);
    var u := AckLate(t, k, now);
    PutDown(t.(sub := u.sub), u.sub, Event(i, now, AckedLate));
    assert u.epoch == Record(t.epoch, Event(i, now, AckedLate));
    QuietKeeps(t, u, log, minted);
  }

  lemma {:induction false} AckAllSound(t: Tracked, ids: seq<string>, now: Time, log: seq<Message>, minted: nat)
    requires Sound(t, log, minted)
    ensures Sound(AckAll(t, ids, now, log).0, log, minted)
    ensures AckAll(t, ids, now, log).0.sub.spec == t.sub.spec
    ensures AckAll(t, ids, now, log).0.epoch.start == t.epoch.start
    decreases |ids|
  {
    if ids == [] {
    } else if ids[0] !in t.sub.inflight {
      AckAllSound(t, ids[1..], now, log, minted);
    } else if IsLate(t.sub, ids[0], now) {
      AckLateSound(t, ids[0], now, log, minted);
    } else {
      AckOneSound(t, ids[0], now, log, minted);
      AckAllSound(AckOne(t, ids[0], now, log), ids[1..], now, log, minted);
    }
  }

  // ----- Changing deadlines -----

  function NackOne(t: Tracked, k: string, now: Time): Tracked
    requires k in t.sub.inflight
  {
    var i := t.sub.inflight[k].index;
    var s := t.sub.(inflight := t.sub.inflight - {k});
    Tracked(s.(retryQueue := [RetryOf(s, i, now)] + s.retryQueue),
            Record(t.epoch, Event(i, now, Nacked(s.spec.retry))))
  }

  function ExtendOne(t: Tracked, k: string, now: Time, seconds: nat): Tracked
    requires k in t.sub.inflight
  {
    var i := t.sub.inflight[k].index;
    var deadline := now + SECOND * seconds;
    Tracked(t.sub.(inflight := t.sub.inflight[k := Lease(i, deadline)]),
            Record(t.epoch, Event(i, now, Extended(deadline))))
  }

  function ModifyOne(t: Tracked, k: string, now: Time, seconds: nat): Tracked {
    if k !in t.sub.inflight then t
    else if seconds == 0 then NackOne(t, k, now)
    else ExtendOne(t, k, now, seconds)
  }

  function ModifyAll(t: Tracked, ids: seq<string>, now: Time, seconds: nat): Tracked
    decreases |ids|
  {
    if ids == [] then t else ModifyAll(ModifyOne(t, ids[0], now, seconds), ids[1..], now, seconds)
  }

  lemma NackOneTracks(t: Tracked, k: string, now: Time)
    requires Tracks(t) && k in t.sub.inflight
    ensures Tracks(NackOne(t, k, now))
  {
    var i := t.sub.inflight[k].index;
    TakeLease(t, k);
    LeasedWasDelivered(t.epoch.trace, |t.epoch.trace|, i);
    var held := t.(sub := t.sub.(inflight := t.sub.inflight - {k}));
    var r := RetryOf(held.sub, i, now);
    EntryPushedFront(held.sub.retryQueue, r);
    var e := Event(i, now, Nacked(t.sub.spec.retry));
    var s := held.sub.(retryQueue := [r] + held.sub.retryQueue);
    assert Places(held, s, e);
    PutDown(held, s, e);
  }

  lemma NackOneSound(t: Tracked, k: string, now: Time, log: seq<Message>, minted: nat)
    requires Sound(t, log, minted) && k in t.sub.inflight
    ensures Sound(NackOne(t, k, now), log, minted)
  {
    NackOneTracks(t, k, now);
    assert Quiet(t, NackOne(t, k, now), log) by {
      assert NackOne(t, k, now).epoch
          == Record(t.epoch, Event(t.sub.inflight[k].index, now, Nacked(t.sub.spec.retry)));
    }
    QuietKeeps(t, NackOne(t, k, now), log, minted);
  }

  lemma ExtendOneTracks(t: Tracked, k: string, now: Time, seconds: nat)
    requires Tracks(t) && k in t.sub.inflight && seconds > 0
    ensures Tracks(ExtendOne(t, k, now, seconds))
  {
    var i := t.sub.inflight[k].index;
    TakeLease(t, k);
    var held := t.(sub := t.sub.(inflight := t.sub.inflight - {k}));
    var u := ExtendOne(t, k, now, seconds);
    LeaseAdded(held.sub.inflight, k, u.sub.inflight[k]);
    assert held.sub.inflight[k := u.sub.inflight[k]] == u.sub.inflight;
    var e := Event(i, now, Extended(now + SECOND * seconds));
    assert Places(held, u.sub, e);
    PutDown(held, u.sub, e);
  }

  lemma ExtendOneSound(t: Tracked, k: string, now: Time, seconds: nat, log: seq<Message>, minted: nat)
    requires Sound(t, log, minted) && k in t.sub.inflight && seconds > 0
    ensures Sound(ExtendOne(t, k, now, seconds), log, minted)
  {
    ExtendOneTracks(t, k, now, seconds);
    var u := ExtendOne(t, k, now, seconds);
    assert Quiet(t, u, log) by {
      assert u.epoch == Record(t.epoch, Event(t.sub.inflight[k].index, now, Extended(now + SECOND * seconds)));
    }
    QuietKeeps(t, u, log, minted);
  }

  lemma {:induction false} ModifyAllSound(t: Tracked, ids: seq<string>, now: Time, seconds: nat,
                                          log: seq<Message>, minted: nat)
    requires Sound(t, log, minted)
    ensures Sound(ModifyAll(t, ids, now, seconds), log, minted)
    ensures ModifyAll(t, ids, now, seconds).sub.spec == t.sub.spec
    ensures ModifyAll(t, ids, now, seconds).epoch.start == t.epoch.start
    decreases |ids|
  {
    if ids != [] {
      if ids[0] in t.sub.inflight {
        if seconds == 0 {
          NackOneSound(t, ids[0], now, log, minted);
        } else {
          ExtendOneSound(t, ids[0], now, seconds, log, minted);
        }
      }
      ModifyAllSound(ModifyOne(t, ids[0], now, seconds), ids[1..], now, seconds, log, minted);
    }
  }
}
