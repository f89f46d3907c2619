/** Every turn of the pull loop keeps the subscription's invariant; what a pull returns. */
module PullSafety {
  import opened Basics
  import opened Model
  import opened Lifecycle
  import opened Tracking
  import opened Consumer
  import opened Pulling
  import opened FilterMeaning
  import Filter

  ghost predicate WorkSound(w: Work) {
    Sound(w.t, LogIn(w), w.minted)
  }

  lemma WorkInBounds(w: Work, topicLen: nat)
    requires WorkSound(w) && topicLen <= |LogIn(w)|
    ensures InBounds(w, topicLen)
  {
    var q := w.t.sub.retryQueue;
    forall p | 0 <= p < |q| ensures q[p].index < |LogIn(w)| {
      assert q[p].index in QueuedIn(q);
      assert Agrees(w.t, q[p].index);
    }
  }

  // ----- The index picked is in hand, so the loop's first test never fires -----

  lemma PickInHand(w: Work, now: Time, topicLen: nat)
    requires WorkSound(w) && topicLen <= |LogIn(w)|
    requires Pick(w.t.sub, now, topicLen, w.skipped).Some?
    ensures var (i, s) := Pick(w.t.sub, now, topicLen, w.skipped).value;
            var u := w.t.(sub := s);
            && InHand(u, i) && Ready(LifeOf(u.epoch.trace, i).phase, now)
            && i < |LogIn(w)| && s.spec == w.t.sub.spec
            && Kept(u, LogIn(w), w.minted)
            && !(i in s.acked || i in LeasedIn(s.inflight))
  {
    match FirstDue(w.t.sub.retryQueue, 0, now, w.skipped) {
      case Some(p) =>
        TakeEntry(w.t, p);
        assert w.t.sub.retryQueue[p].index in QueuedIn(w.t.sub.retryQueue);
        assert Agrees(w.t, w.t.sub.retryQueue[p].index);
        KeptPerField(w.t, w.t.(sub := w.t.sub.(retryQueue := RemoveAt(w.t.sub.retryQueue, p))), LogIn(w), w.minted);
      case None =>
        TakeFresh(w.t);
        KeptPerField(w.t, w.t.(sub := w.t.sub.(nextIndex := w.t.sub.nextIndex + 1)), LogIn(w), w.minted);
    }
  }

  lemma KeptPerField(t: Tracked, u: Tracked, log: seq<Message>, minted: nat)
    requires Kept(t, log, minted) && u.epoch == t.epoch && u.sub.nextIndex <= |log|
    requires u.sub == t.sub.(nextIndex := u.sub.nextIndex, retryQueue := u.sub.retryQueue)
    ensures Kept(u, log, minted)
  {
    forall k | k in u.sub.inflight ensures KeyFits(u.sub, minted, k, u.sub.inflight[k].index) {
      assert KeyFits(t.sub, minted, k, t.sub.inflight[k].index);
    }
  }

  // ----- Keeping the promises -----

  lemma HoldSound(t: Tracked, i: nat, now: Time, log: seq<Message>, minted: nat)
    requires InHand(t, i) && Kept(t, log, minted) && Ready(LifeOf(t.epoch.trace, i).phase, now)
    ensures Sound(Tracked(t.sub.(retryQueue := t.sub.retryQueue + [RetryEntry(i, now)]),
                          Record(t.epoch, Event(i, now, Blocked))), log, minted)
  {
    var r, e := RetryEntry(i, now), Event(i, now, Blocked);
    var u := Tracked(t.sub.(retryQueue := t.sub.retryQueue + [r]), Record(t.epoch, e));
    EntryPushedBack(t.sub.retryQueue, r);
    assert Places(t, u.sub, e);
    PutDown(t, u.sub, e);
    assert Quiet(t, u, log);
    QuietKeeps(t, u, log, minted);
  }

  /** A step on `i` that counts an attempt and leaves every lease as it was. */
  ghost predicate Counts(t: Tracked, s: Subscription, i: nat) {
    && s.spec == t.sub.spec && s.nextIndex == t.sub.nextIndex && s.orderingAcked == t.sub.orderingAcked
    && s.attempts == t.sub.attempts[i := AttemptsOf(t.sub, i) + 1]
  }

  lemma KeysAfterCount(t: Tracked, s: Subscription, i: nat, minted: nat)
    requires InHand(t, i) && Counts(t, s, i) && KeysFit(t.sub, minted)
    ensures forall k :: k in t.sub.inflight ==> KeyFits(s, minted, k, t.sub.inflight[k].index)
    ensures forall k :: k in t.sub.inflight ==>
              AttemptsOf(s, t.sub.inflight[k].index) == AttemptsOf(t.sub, t.sub.inflight[k].index)
  {
    forall k | k in t.sub.inflight
      ensures KeyFits(s, minted, k, t.sub.inflight[k].index)
      ensures AttemptsOf(s, t.sub.inflight[k].index) == AttemptsOf(t.sub, t.sub.inflight[k].index)
    {
      assert t.sub.inflight[k].index in LeasedIn(t.sub.inflight);
      assert KeyFits(t.sub, minted, k, t.sub.inflight[k].index);
    }
  }

  lemma OrderAfter(t: Tracked, s: Subscription, i: nat, log: seq<Message>)
    requires t.epoch.ordered ==> t.sub.spec.ordering && InKeyOrder(t.sub, log)
    requires i < |log| && !IsBlocked(t.sub, log, i) && t.sub.acked <= s.acked
    requires s.acked + LeasedIn(s.inflight) <= t.sub.acked + LeasedIn(t.sub.inflight) + {i}
    ensures t.epoch.ordered ==> InKeyOrder(s, log)
  {
  }

  lemma SettleKept(t: Tracked, s: Subscription, e: Event, log: seq<Message>, minted: nat)
    requires InHand(t, e.index) && Kept(t, log, minted) && e.index < |log|
    requires e.kind.DeadLettered? || e.kind.FilteredOut?
    requires Counts(t, s, e.index) && s.inflight == t.sub.inflight && s.acked == t.sub.acked + {e.index}
    requires !IsBlocked(t.sub, log, e.index)
    ensures Kept(Tracked(s, Record(t.epoch, e)), log, minted)
  {
    var u := Tracked(s, Record(t.epoch, e));
    KeysAfterCount(t, s, e.index, minted);
    OrderAfter(t, s, e.index, log);
    LifeAfter(t.epoch.trace, e);
    forall i: nat | LifeOf(u.epoch.trace, i).deliveries > 0
      ensures i < |log| && Passes(s.spec.filter, log[i].attributes)
    {
      assert LifeOf(t.epoch.trace, i).deliveries > 0;
    }
  }

  lemma SettleTracks(t: Tracked, s: Subscription, e: Event)
    requires InHand(t, e.index) && Allowed(LifeOf(t.epoch.trace, e.index), e)
    requires e.kind.DeadLettered? || e.kind.FilteredOut?
    requires Counts(t, s, e.index) && s.acked == t.sub.acked + {e.index}
    requires s.inflight == t.sub.inflight && s.retryQueue == t.sub.retryQueue
    ensures Tracks(Tracked(s, Record(t.epoch, e)))
  {
    assert Places(t, s, e);
    PutDown(t, s, e);
  }

  /** A new acknowledgement id is not in use: an insert never overwrites a lease. */
  lemma NewAckIdUnused(sub: Subscription, i: nat, minted: nat)
    requires KeysFit(sub, minted) && i !in LeasedIn(sub.inflight)
    ensures NewAckId(sub, i, AttemptsOf(sub, i) + 1, minted) !in sub.inflight
  {
    var key := NewAckId(sub, i, AttemptsOf(sub, i) + 1, minted);
    if key in sub.inflight {
      var j := sub.inflight[key].index;
      assert j in LeasedIn(sub.inflight);
      assert KeyFits(sub, minted, key, j);
      if a: nat :| a <= AttemptsOf(sub, j) && key == AckKey(sub.spec.name, j, a) {
        UuidIsNoAckKey(minted, sub.spec.name, j, a);
        AckKeyInjective(sub.spec.name, i, AttemptsOf(sub, i) + 1, j, a);
        assert false;
      } else {
        var n: nat :| n < minted && key == Uuid(n);
        if sub.spec.exactlyOnce {
          UuidIsNoAckKey(n, sub.spec.name, i, AttemptsOf(sub, i) + 1);
        } else {
          UuidInjective(n, minted);
        }
        assert false;
      }
    }
  }

  lemma HandTracks(t: Tracked, s: Subscription, e: Event, ackId: string)
    requires InHand(t, e.index) && Allowed(LifeOf(t.epoch.trace, e.index), e) && e.kind.Delivered?
    requires Counts(t, s, e.index) && ackId !in t.sub.inflight
    requires s.acked == t.sub.acked && s.retryQueue == t.sub.retryQueue
    requires s.inflight == t.sub.inflight[ackId := Lease(e.index, e.kind.deadline)]
    ensures Tracks(Tracked(s, Record(t.epoch, e)))
  {
    LeaseAdded(t.sub.inflight, ackId, Lease(e.index, e.kind.deadline));
    assert Places(t, s, e);
    PutDown(t, s, e);
  }

  lemma HandKept(t: Tracked, s: Subscription, e: Event, log: seq<Message>, minted: nat)
    requires InHand(t, e.index) && Kept(t, log, minted) && e.index < |log| && e.kind.Delivered?
    requires Counts(t, s, e.index) && s.acked == t.sub.acked
    requires var ackId := NewAckId(t.sub, e.index, AttemptsOf(t.sub, e.index) + 1, minted);
             s.inflight == t.sub.inflight[ackId := Lease(e.index, e.kind.deadline)]
    requires !IsBlocked(t.sub, log, e.index) && Passes(t.sub.spec.filter, log[e.index].attributes)
    ensures Kept(Tracked(s, Record(t.epoch, e)), log, if t.sub.spec.exactlyOnce then minted else minted + 1)
  {
    var i, minted' := e.index, if t.sub.spec.exactlyOnce then minted else minted + 1;
    var ackId := NewAckId(t.sub, i, AttemptsOf(t.sub, i) + 1, minted);
    NewAckIdUnused(t.sub, i, minted);
    LeaseAdded(t.sub.inflight, ackId, Lease(i, e.kind.deadline));
    KeysAfterCount(t, s, i, minted);
    KeysFitLater(s, t.sub.inflight, minted, minted');
    assert KeyFits(s, minted', ackId, i) by {
      assert AttemptsOf(s, i) <= AttemptsOf(s, i) && minted < minted + 1;
    }
    OrderAfter(t, s, i, log);
    MatchingAfter(t, s, e, log);
  }

  lemma KeysFitLater(s: Subscription, inflight: map<string, Lease>, minted: nat, minted': nat)
    requires minted <= minted'
    requires forall k :: k in inflight ==> KeyFits(s, minted, k, inflight[k].index)
    ensures forall k :: k in inflight ==> KeyFits(s, minted', k, inflight[k].index)
  {
  }

  lemma MatchingAfter(t: Tracked, s: Subscription, e: Event, log: seq<Message>)
    requires OnlyMatching(t, log) && s.spec == t.sub.spec
    requires e.index < |log| && Passes(t.sub.spec.filter, log[e.index].attributes)
    ensures OnlyMatching(Tracked(s, Record(t.epoch, e)), log)
  {
    LifeAfter(t.epoch.trace, e);
    var u := Tracked(s, Record(t.epoch, e));
    forall i: nat | LifeOf(u.epoch.trace, i).deliveries > 0
      ensures i < |log| && Passes(s.spec.filter, log[i].attributes)
    {
      assert i != e.index ==> LifeOf(t.epoch.trace, i).deliveries > 0;
    }
  }

  // ----- One turn -----

  /** The filter lets a message through exactly if it holds of its attributes. */
  lemma PassesIffHolds(filter: string, attributes: Filter.Attributes)
    ensures Passes(filter, attributes) <==> FilterHolds(filter, attributes)
  {
    MatchesIffHolds(filter, attributes);
  }

  lemma EmptyFilterPasses(attributes: Filter.Attributes)
    ensures Passes("", attributes)
  {
  }

  lemma KeptOutIffNotHolds(filter: string, attributes: Filter.Attributes)
    ensures filter != "" && !Passes(filter, attributes) <==> !FilterHolds(filter, attributes)
  {
    PassesIffHolds(filter, attributes);
    EmptyFilterPasses(attributes);
  }

  /** The work with index `i` taken out and ready to be examined. */
  ghost predicate AtHand(w: Work, i: nat, now: Time) {
    && i < |LogIn(w)|
    && InHand(w.t, i) && Ready(LifeOf(w.t.epoch.trace, i).phase, now)
    && Kept(w.t, LogIn(w), w.minted)
  }

  lemma BurySound(w: Work, i: nat, now: Time)
    requires AtHand(w, i, now) && Judge(w.t.sub, w.topics, LogIn(w), i).Bury?
    ensures WorkSound(BuryIn(w, i, now, w.t.sub.spec.deadLetter.value.topic))
  {
    var v := BuryIn(w, i, now, w.t.sub.spec.deadLetter.value.topic);
    var e := Event(i, now, DeadLettered(MaxAttempts(w.t.sub.spec.deadLetter.value)));
    SettleTracks(w.t, v.t.sub, e);
    SettleKept(w.t, v.t.sub, e, LogIn(w), w.minted);
    SoundGrows(v.t, LogIn(w), w.minted, LogIn(v), v.minted);
  }

  lemma DiscardSound(w: Work, i: nat, now: Time)
    requires AtHand(w, i, now) && Judge(w.t.sub, w.topics, LogIn(w), i).Discard?
    ensures WorkSound(DiscardOne(w, i, now))
  {
    var v := DiscardOne(w, i, now);
    var e := Event(i, now, FilteredOut);
    assert LifeOf(w.t.epoch.trace, i).deliveries == 0;
    SettleTracks(w.t, v.t.sub, e);
    SettleKept(w.t, v.t.sub, e, LogIn(w), w.minted);
  }

  lemma HandSound(w: Work, i: nat, now: Time)
    requires AtHand(w, i, now) && Judge(w.t.sub, w.topics, LogIn(w), i).Hand?
    ensures WorkSound(HandOut(w, i, now))
    ensures NewAckId(w.t.sub, i, AttemptsOf(w.t.sub, i) + 1, w.minted) !in w.t.sub.inflight
    ensures Passes(w.t.sub.spec.filter, LogIn(w)[i].attributes)
  {
    var v := HandOut(w, i, now);
    var deadline := now + SECOND * NormalizeAckDeadline(w.t.sub.spec.ackDeadlineSeconds);
    var e := Event(i, now, Delivered(AttemptsOf(w.t.sub, i) + 1, deadline));
    EmptyFilterPasses(LogIn(w)[i].attributes);
    NewAckIdUnused(w.t.sub, i, w.minted);
    HandTracks(w.t, v.t.sub, e, NewAckId(w.t.sub, i, AttemptsOf(w.t.sub, i) + 1, w.minted));
    HandKept(w.t, v.t.sub, e, LogIn(w), w.minted);
  }

  lemma ExamineSound(w: Work, i: nat, now: Time)
    requires AtHand(w, i, now)
    ensures WorkSound(Examine(w, i, now))
  {
    match Judge(w.t.sub, w.topics, LogIn(w), i) {
      case Hold => HoldSound(w.t, i, now, LogIn(w), w.minted);
      case Bury => BurySound(w, i, now);
      case Discard => DiscardSound(w, i, now);
      case Hand => HandSound(w, i, now);
    }
  }

  /** A turn examines the index it picked: the test for acknowledged and leased indices fails. */
  lemma TurnExamines(w: Work, now: Time, topicLen: nat) returns (v: Work, i: nat)
    requires WorkSound(w) && topicLen <= |LogIn(w)| && InBounds(w, topicLen)
    requires Turn(w, now, topicLen).Some?
    ensures AtHand(v, i, now) && Turn(w, now, topicLen) == Some(Examine(v, i, now))
    ensures v == w.(t := w.t.(sub := v.t.sub))
    ensures Pick(w.t.sub, now, topicLen, w.skipped) == Some((i, v.t.sub))
    ensures v.t.sub == w.t.sub.(nextIndex := v.t.sub.nextIndex, retryQueue := v.t.sub.retryQueue)
    ensures LogIn(v) == LogIn(w)
  {
    PickInHand(w, now, topicLen);
    var (j, s) := Pick(w.t.sub, now, topicLen, w.skipped).value;
    v, i := w.(t := w.t.(sub := s)), j;
  }

  /** Only the trace of the epoch may have grown. */
  ghost predicate SameEpoch(t: Tracked, u: Tracked) {
    u.epoch == t.epoch.(trace := u.epoch.trace) && t.epoch.trace <= u.epoch.trace
  }

  lemma ExamineSameEpoch(w: Work, i: nat, now: Time)
    requires i < |LogIn(w)|
    ensures SameEpoch(w.t, Examine(w, i, now).t)
  {
  }

  lemma TurnSound(w: Work, now: Time, topicLen: nat)
    requires WorkSound(w) && topicLen <= |LogIn(w)| && InBounds(w, topicLen)
    requires Turn(w, now, topicLen).Some?
    ensures WorkSound(Turn(w, now, topicLen).value)
    ensures LogIn(w) <= LogIn(Turn(w, now, topicLen).value)
    ensures Turn(w, now, topicLen).value.t.sub.spec == w.t.sub.spec
    ensures SameEpoch(w.t, Turn(w, now, topicLen).value.t)
  {
    var v, i := TurnExamines(w, now, topicLen);
    ExamineSound(v, i, now);
    LogOnlyGrows(v, i, now);
    ExamineSameEpoch(v, i, now);
    SameEpochFrom(w, v, Examine(v, i, now));
  }

  lemma SameEpochFrom(w: Work, v: Work, u: Work)
    requires v.t.epoch == w.t.epoch && SameEpoch(v.t, u.t)
    ensures SameEpoch(w.t, u.t)
  {
  }

  lemma {:induction false} PullLoopSound(w: Work, now: Time, limit: nat, topicLen: nat)
    requires WorkSound(w) && topicLen <= |LogIn(w)| && InBounds(w, topicLen)
    ensures var v := PullLoop(w, now, limit, topicLen);
            && WorkSound(v) && LogIn(w) <= LogIn(v)
            && v.t.sub.spec == w.t.sub.spec && SameEpoch(w.t, v.t)
    decreases Measure(w, now, topicLen)
  {
    if |w.deliveries| < limit && Turn(w, now, topicLen).Some? {
      TurnSound(w, now, topicLen);
      TurnLessens(w, now, topicLen);
      TurnInBounds(w, now, topicLen);
      PullLoopSound(Turn(w, now, topicLen).value, now, limit, topicLen);
    }
  }
}
