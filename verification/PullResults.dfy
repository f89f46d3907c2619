/** What a pull returns and leaves behind, over the whole loop. */
module PullResults {
  import opened Basics
  import opened Model
  import opened Lifecycle
  import opened Tracking
  import opened Consumer
  import opened Pulling
  import opened PullSafety
  import opened FilterMeaning

  // ----- The deliveries returned -----

  /** Delivery `d` is the message at index `i`, under a lease on `i` filed under its id for the
      configured time between 10 and 600 seconds, counted as the current attempt, and one of which the
      subscription's filter holds. */
  ghost predicate Delivers(w: Work, d: Delivery, i: nat, now: Time) {
    && i < |LogIn(w)| && d.message == LogIn(w)[i]
    && d.ackId in w.t.sub.inflight
    && w.t.sub.inflight[d.ackId]
       == Lease(i, now + SECOND * Min(Max(w.t.sub.spec.ackDeadlineSeconds, 10), 600))
    && d.attempt == AttemptsOf(w.t.sub, i) >= 1
    && FilterHolds(w.t.sub.spec.filter, d.message.attributes)
    && (if w.t.sub.spec.exactlyOnce
        then d.ackId == w.t.sub.spec.name + (":" + (Decimal(i) + (":" + Decimal(d.attempt))))
        else IsUuid(d.ackId))
    && (w.t.sub.spec.deadLetter.Some? && w.t.sub.spec.deadLetter.value.topic in w.topics ==>
          d.attempt <= Min(Max(w.t.sub.spec.deadLetter.value.maxDeliveryAttempts, 5), 100))
  }

  /** The deliveries are right, one per index, none of an index leased before. */
  ghost predicate EachDelivers(before: Work, w: Work, now: Time) {
    && |w.handed| == |w.deliveries|
    && (forall d :: 0 <= d < |w.handed| ==> Delivers(w, w.deliveries[d], w.handed[d], now))
    && (forall c, d :: 0 <= c < d < |w.handed| ==> w.handed[c] != w.handed[d])
    && (forall d :: 0 <= d < |w.handed| ==> w.handed[d] !in LeasedIn(before.t.sub.inflight))
  }

  /** The leases are those there were and those of the deliveries. */
  ghost predicate LeasesAccounted(before: map<string, Lease>, inflight: map<string, Lease>, deliveries: seq<Delivery>) {
    && (forall k :: k in inflight ==> k in before || exists d :: 0 <= d < |deliveries| && deliveries[d].ackId == k)
    && (forall k :: k in before ==> k in inflight && inflight[k] == before[k])
  }

  ghost predicate DeliveriesRight(before: Work, w: Work, now: Time) {
    EachDelivers(before, w, now) && LeasesAccounted(before.t.sub.inflight, w.t.sub.inflight, w.deliveries)
  }

  lemma NewDelivery(w: Work, i: nat, now: Time)
    requires AtHand(w, i, now) && Judge(w.t.sub, w.topics, LogIn(w), i).Hand?
    ensures var v := HandOut(w, i, now);
            var d := v.deliveries[|w.deliveries|];
            && Delivers(v, d, i, now)
            && d.ackId !in w.t.sub.inflight
            && v.t.sub.inflight == w.t.sub.inflight[d.ackId := v.t.sub.inflight[d.ackId]]
            && LogIn(v) == LogIn(w) && v.topics == w.topics && v.t.sub.spec == w.t.sub.spec
            && v.deliveries == w.deliveries + [d] && v.handed == w.handed + [i]
            && (forall j :: j != i ==> AttemptsOf(v.t.sub, j) == AttemptsOf(w.t.sub, j))
  {
    HandSound(w, i, now);
    PassesIffHolds(w.t.sub.spec.filter, LogIn(w)[i].attributes);
    UuidIsUuid(w.minted);
  }

  lemma DeliversStill(w: Work, v: Work, d: Delivery, i: nat, now: Time)
    requires Delivers(w, d, i, now) && v.t.sub.spec == w.t.sub.spec && v.topics.Keys == w.topics.Keys
    requires LogIn(w) <= LogIn(v)
    requires d.ackId in v.t.sub.inflight && v.t.sub.inflight[d.ackId] == w.t.sub.inflight[d.ackId]
    requires AttemptsOf(v.t.sub, i) == AttemptsOf(w.t.sub, i)
    ensures Delivers(v, d, i, now)
  {
  }

  lemma AccountedGrows(before: map<string, Lease>, inflight: map<string, Lease>, deliveries: seq<Delivery>)
    requires LeasesAccounted(before, inflight, deliveries)
    ensures LeasedIn(before) <= LeasedIn(inflight)
  {
    forall i | i in LeasedIn(before) ensures i in LeasedIn(inflight) {
      var k :| k in before && before[k].index == i;
      assert inflight[k].index == i;
    }
  }

  lemma AccountedOneMore(before: map<string, Lease>, inflight: map<string, Lease>, deliveries: seq<Delivery>,
                         d: Delivery, l: Lease)
    requires LeasesAccounted(before, inflight, deliveries) && d.ackId !in inflight
    ensures LeasesAccounted(before, inflight[d.ackId := l], deliveries + [d])
  {
    var more, all := inflight[d.ackId := l], deliveries + [d];
    forall k | k in more ensures k in before || exists c :: 0 <= c < |all| && all[c].ackId == k {
      if k == d.ackId {
        assert all[|deliveries|].ackId == k;
      } else if k !in before {
        var c :| 0 <= c < |deliveries| && deliveries[c].ackId == k;
        assert all[c].ackId == k;
      }
    }
  }

  lemma HandDelivers(before: Work, w: Work, i: nat, now: Time)
    requires AtHand(w, i, now) && Judge(w.t.sub, w.topics, LogIn(w), i).Hand?
    requires EachDelivers(before, w, now) && i !in LeasedIn(before.t.sub.inflight)
    ensures EachDelivers(before, HandOut(w, i, now), now)
  {
    NewDelivery(w, i, now);
    var v := HandOut(w, i, now);
    forall d | 0 <= d < |w.handed|
      ensures Delivers(v, v.deliveries[d], v.handed[d], now)
      ensures v.handed[d] != i
    {
      assert w.handed[d] in LeasedIn(w.t.sub.inflight);
      DeliversStill(w, v, w.deliveries[d], w.handed[d], now);
    }
  }

  lemma HandRight(before: Work, w: Work, i: nat, now: Time)
    requires AtHand(w, i, now) && Judge(w.t.sub, w.topics, LogIn(w), i).Hand?
    requires DeliveriesRight(before, w, now)
    ensures DeliveriesRight(before, HandOut(w, i, now), now)
  {
    var v := HandOut(w, i, now);
    var d := v.deliveries[|w.deliveries|];
    AccountedGrows(before.t.sub.inflight, w.t.sub.inflight, w.deliveries);
    NewDelivery(w, i, now);
    HandDelivers(before, w, i, now);
    AccountedOneMore(before.t.sub.inflight, w.t.sub.inflight, w.deliveries, d, v.t.sub.inflight[d.ackId]);
  }

  /** Turns that hand nothing out leave the deliveries right. */
  lemma DeliveriesStayRight(before: Work, w: Work, v: Work, i: nat, now: Time)
    requires DeliveriesRight(before, w, now)
    requires v.deliveries == w.deliveries && v.handed == w.handed
    requires v.t.sub.spec == w.t.sub.spec && v.t.sub.inflight == w.t.sub.inflight
    requires LogIn(w) <= LogIn(v) && v.topics.Keys == w.topics.Keys
    requires i !in LeasedIn(w.t.sub.inflight)
    requires forall j :: j != i ==> AttemptsOf(v.t.sub, j) == AttemptsOf(w.t.sub, j)
    ensures DeliveriesRight(before, v, now)
  {
    forall d | 0 <= d < |v.handed| ensures Delivers(v, v.deliveries[d], v.handed[d], now) {
      assert w.handed[d] in LeasedIn(w.t.sub.inflight);
      DeliversStill(w, v, w.deliveries[d], w.handed[d], now);
    }
  }

  lemma ExamineDeliveries(before: Work, w: Work, i: nat, now: Time)
    requires AtHand(w, i, now) && DeliveriesRight(before, w, now)
    ensures DeliveriesRight(before, Examine(w, i, now), now)
  {
    var v := Examine(w, i, now);
    LogOnlyGrows(w, i, now);
    if Judge(w.t.sub, w.topics, LogIn(w), i).Hand? {
      HandRight(before, w, i, now);
    } else {
      DeliveriesStayRight(before, w, v, i, now);
    }
  }

  // ----- What is left in the queue -----

  /** Event `p` of this pull found index `i` blocked: message `j`, earlier and of the same key, was
      not acknowledged then, nor before the pull. */
  ghost predicate BlockedBy(before: Work, w: Work, i: nat, j: nat, p: nat) {
    var h := w.t.epoch.trace;
    && |before.t.epoch.trace| <= p < |h| && h[p].index == i && h[p].kind.Blocked?
    && j < i && SameKey(LogIn(w), i, j)
    && j !in before.t.sub.acked && !LifeAt(h, p, j).phase.Done?
  }

  ghost predicate WasBlocked(before: Work, w: Work, i: nat) {
    before.t.sub.spec.ordering && exists j: nat, p: nat :: BlockedBy(before, w, i, j, p)
  }

  ghost predicate SkipsRight(before: Work, w: Work) {
    && w.t.sub.spec == before.t.sub.spec
    && before.t.sub.acked <= w.t.sub.acked
    && forall i :: i in w.skipped ==> WasBlocked(before, w, i)
  }

  lemma BlockedStill(before: Work, w: Work, v: Work, i: nat)
    requires WasBlocked(before, w, i) && LogIn(w) <= LogIn(v)
    requires w.t.epoch.trace <= v.t.epoch.trace
    ensures WasBlocked(before, v, i)
  {
    var j: nat, p: nat :| BlockedBy(before, w, i, j, p);
    var h, more := w.t.epoch.trace, v.t.epoch.trace[|w.t.epoch.trace|..];
    assert v.t.epoch.trace == h + more;
    LifeOfPrefix(h, more, p, j);
    assert BlockedBy(before, v, i, j, p);
  }

  /** The index examined now is found blocked by this very event. */
  lemma BlockedNow(before: Work, w: Work, i: nat, now: Time)
    requires AtHand(w, i, now) && SkipsRight(before, w) && before.t.epoch.trace <= w.t.epoch.trace
    requires IsBlocked(w.t.sub, LogIn(w), i)
    ensures WasBlocked(before, HoldBack(w, i, now), i)
  {
    var v := HoldBack(w, i, now);
    var j: nat :| j < i && SameKey(LogIn(w), i, j) && j !in w.t.sub.acked;
    var h := w.t.epoch.trace;
    LifeOfPrefix(h, [Event(i, now, Blocked)], |h|, j);
    assert Agrees(w.t, j);
    assert BlockedBy(before, v, i, j, |h|);
  }

  lemma ExamineSkips(before: Work, w: Work, i: nat, now: Time)
    requires AtHand(w, i, now) && SkipsRight(before, w) && before.t.epoch.trace <= w.t.epoch.trace
    ensures SkipsRight(before, Examine(w, i, now))
  {
    var v := Examine(w, i, now);
    LogOnlyGrows(w, i, now);
    ExamineSameEpoch(w, i, now);
    forall k | k in v.skipped ensures WasBlocked(before, v, k) {
      if k in w.skipped {
        BlockedStill(before, w, v, k);
      } else {
        BlockedNow(before, w, i, now);
      }
    }
  }

  // ----- Dead letters -----

  /** The indices dead-lettered by the events from position `from` on, in order. */
  function Buried(h: History, from: nat): seq<nat> {
    if |h| <= from then []
    else
      var last := if h[|h| - 1].kind.DeadLettered? then [h[|h| - 1].index] else [];
      Buried(h[..|h| - 1], from) + last
  }

  /** A copy under a generated id, with the data, ordering key and attributes of the original and
      two more attributes that say where it came from. */
  ghost predicate IsDeadCopy(copy: Message, name: string, original: Message, now: Time) {
    && IsUuid(copy.id) && copy.publishedAt == now
    && copy.data == original.data && copy.orderingKey == original.orderingKey
    && var source, id := "x-zyvor-dead-letter-source", "x-zyvor-original-message-id";
    && copy.attributes.Keys == original.attributes.Keys + {source, id}
    && copy.attributes[source] == name && copy.attributes[id] == original.id
    && (forall k :: k in original.attributes && k != source && k != id ==>
          copy.attributes[k] == original.attributes[k])
  }

  lemma CopyIsFaithful(name: string, m: Message, id: string, now: Time)
    requires IsUuid(id)
    ensures IsDeadCopy(DeadCopy(name, m, id, now), name, m, now)
  {
    assert SOURCE_KEY[8] != ORIGINAL_KEY[8];
  }

  /** Log `is_` is log `was` with one copy appended for each index in `buried`, in order. */
  ghost predicate CopiesAppended(was: seq<Message>, is_: seq<Message>, buried: seq<nat>, name: string,
                                 log: seq<Message>, now: Time) {
    && |is_| == |was| + |buried| && was <= is_
    && forall k :: 0 <= k < |buried| ==>
         buried[k] < |log| && IsDeadCopy(is_[|was| + k], name, log[buried[k]], now)
  }

  /** Only the dead-letter topic changes, and by exactly the copies of the messages buried. */
  ghost predicate BurialsRight(before: Work, w: Work, now: Time) {
    var spec := before.t.sub.spec;
    var buried := Buried(w.t.epoch.trace, |before.t.epoch.trace|);
    && w.t.sub.spec == spec && w.topics.Keys == before.topics.Keys
    && before.t.epoch.trace <= w.t.epoch.trace
    && (forall n :: n in w.topics ==>
          && w.topics[n] == before.topics[n].(messages := w.topics[n].messages)
          && (if spec.deadLetter.Some? && n == spec.deadLetter.value.topic
              then CopiesAppended(before.topics[n].messages, w.topics[n].messages, buried, spec.name, LogIn(w), now)
              else w.topics[n] == before.topics[n]))
    && (buried != [] ==> spec.deadLetter.Some? && spec.deadLetter.value.topic in w.topics)
  }

  lemma BuriedOne(h: History, e: Event, from: nat)
    requires from <= |h|
    ensures Buried(h + [e], from) == Buried(h, from) + (if e.kind.DeadLettered? then [e.index] else [])
  {
    assert (h + [e])[..|h|] == h;
  }

  lemma CopiesOneMore(was: seq<Message>, is_: seq<Message>, buried: seq<nat>, name: string,
                      log: seq<Message>, now: Time, i: nat, id: string, log': seq<Message>)
    requires CopiesAppended(was, is_, buried, name, log, now) && i < |log| && IsUuid(id)
    requires log <= log'
    ensures CopiesAppended(was, is_ + [DeadCopy(name, log[i], id, now)], buried + [i], name, log', now)
  {
    var copy := DeadCopy(name, log[i], id, now);
    CopyIsFaithful(name, log[i], id, now);
    var more, many := is_ + [copy], buried + [i];
    forall k | 0 <= k < |many|
      ensures many[k] < |log'| && IsDeadCopy(more[|was| + k], name, log'[many[k]], now)
    {
      if k < |buried| {
        assert many[k] == buried[k] && more[|was| + k] == is_[|was| + k];
        assert buried[k] < |log| && IsDeadCopy(is_[|was| + k], name, log[buried[k]], now);
      }
    }
  }

  lemma UuidIsUuid(n: nat)
    ensures IsUuid(Uuid(n))
  {
  }

  lemma BuryBurials(before: Work, w: Work, i: nat, now: Time)
    requires i < |LogIn(w)| && BurialsRight(before, w, now)
    requires Judge(w.t.sub, w.topics, LogIn(w), i).Bury?
    ensures BurialsRight(before, Examine(w, i, now), now)
  {
    var v := Examine(w, i, now);
    var spec := before.t.sub.spec;
    var from := |before.t.epoch.trace|;
    var dead := spec.deadLetter.value.topic;
    LogOnlyGrows(w, i, now);
    UuidIsUuid(w.minted);
    BuriedOne(w.t.epoch.trace, Event(i, now, DeadLettered(MaxAttempts(spec.deadLetter.value))), from);
    CopiesOneMore(before.topics[dead].messages, w.topics[dead].messages, Buried(w.t.epoch.trace, from),
                  spec.name, LogIn(w), now, i, Uuid(w.minted), LogIn(v));
  }

  lemma BurialsStay(before: Work, w: Work, v: Work, e: Event, now: Time)
    requires BurialsRight(before, w, now) && !e.kind.DeadLettered?
    requires v.topics == w.topics && v.t.sub.spec == w.t.sub.spec && v.t.epoch == Record(w.t.epoch, e)
    ensures BurialsRight(before, v, now)
  {
    BuriedOne(w.t.epoch.trace, e, |before.t.epoch.trace|);
    assert LogIn(v) == LogIn(w);
  }

  lemma QuietBurials(before: Work, w: Work, i: nat, now: Time)
    requires i < |LogIn(w)| && BurialsRight(before, w, now)
    requires !Judge(w.t.sub, w.topics, LogIn(w), i).Bury?
    ensures BurialsRight(before, Examine(w, i, now), now)
  {
    var v := Examine(w, i, now);
    var e := v.t.epoch.trace[|w.t.epoch.trace|];
    assert v.t.epoch == Record(w.t.epoch, e) && !e.kind.DeadLettered?;
    BurialsStay(before, w, v, e, now);
  }

  // ----- Deliveries as events -----

  /** The (index, attempt) pairs delivered by the events from position `from` on, in order. */
  function HandedBy(h: History, from: nat): seq<(nat, nat)> {
    if |h| <= from then []
    else
      var e := h[|h| - 1];
      HandedBy(h[..|h| - 1], from) + (if e.kind.Delivered? then [(e.index, e.kind.attempt)] else [])
  }

  /** The deliveries returned are the delivery events recorded, in the same order. */
  ghost predicate EventsRight(before: Work, w: Work) {
    var events := HandedBy(w.t.epoch.trace, |before.t.epoch.trace|);
    && before.t.epoch.trace <= w.t.epoch.trace
    && |events| == |w.handed| == |w.deliveries|
    && forall d :: 0 <= d < |events| ==> events[d] == (w.handed[d], w.deliveries[d].attempt)
  }

  lemma ExamineEvents(before: Work, w: Work, i: nat, now: Time)
    requires i < |LogIn(w)| && EventsRight(before, w)
    ensures EventsRight(before, Examine(w, i, now))
  {
    var v := Examine(w, i, now);
    var e := v.t.epoch.trace[|w.t.epoch.trace|];
    assert v.t.epoch.trace == w.t.epoch.trace + [e];
    assert (w.t.epoch.trace + [e])[..|w.t.epoch.trace|] == w.t.epoch.trace;
  }

  // ----- The whole loop -----

  ghost predicate ResultRight(before: Work, w: Work, now: Time) {
    && DeliveriesRight(before, w, now)
    && SkipsRight(before, w)
    && BurialsRight(before, w, now)
    && EventsRight(before, w)
  }

  lemma TakeKeepsResult(before: Work, w: Work, v: Work, now: Time)
    requires ResultRight(before, w, now)
    requires v == w.(t := w.t.(sub := v.t.sub))
    requires v.t.sub == w.t.sub.(nextIndex := v.t.sub.nextIndex, retryQueue := v.t.sub.retryQueue)
    ensures ResultRight(before, v, now)
  {
    assert LogIn(v) == LogIn(w);
    forall d | 0 <= d < |v.handed| ensures Delivers(v, v.deliveries[d], v.handed[d], now) {
      assert Delivers(w, w.deliveries[d], w.handed[d], now);
    }
    forall i | i in v.skipped ensures WasBlocked(before, v, i) {
      BlockedStill(before, w, v, i);
    }
  }

  lemma TurnRight(before: Work, w: Work, now: Time, topicLen: nat)
    requires WorkSound(w) && topicLen <= |LogIn(w)| && InBounds(w, topicLen)
    requires Turn(w, now, topicLen).Some? && ResultRight(before, w, now)
    ensures ResultRight(before, Turn(w, now, topicLen).value, now)
  {
    var v, i := TurnExamines(w, now, topicLen);
    TakeKeepsResult(before, w, v, now);
    ExamineDeliveries(before, v, i, now);
    ExamineSkips(before, v, i, now);
    ExamineEvents(before, v, i, now);
    if Judge(v.t.sub, v.topics, LogIn(v), i).Bury? {
      BuryBurials(before, v, i, now);
    } else {
      QuietBurials(before, v, i, now);
    }
  }

  /** The loop stopped because nothing was left to examine. */
  ghost predicate RanDry(w: Work, now: Time, topicLen: nat) {
    && w.t.sub.nextIndex >= topicLen
    && forall r :: r in w.t.sub.retryQueue && r.availableAt <= now ==> r.index in w.skipped
  }

  lemma DryWithoutTurn(w: Work, now: Time, topicLen: nat)
    requires InBounds(w, topicLen) && Turn(w, now, topicLen).None?
    ensures RanDry(w, now, topicLen)
  {
    assert FirstDue(w.t.sub.retryQueue, 0, now, w.skipped).None?;
  }

  lemma OneMoreAtMost(w: Work, now: Time, topicLen: nat)
    requires InBounds(w, topicLen) && Turn(w, now, topicLen).Some?
    ensures |Turn(w, now, topicLen).value.deliveries| <= |w.deliveries| + 1
  {
  }

  /** How a pull may end. */
  ghost predicate Ends(before: Work, v: Work, now: Time, limit: nat, topicLen: nat) {
    && ResultRight(before, v, now)
    && |v.deliveries| <= limit
    && (|v.deliveries| < limit ==> RanDry(v, now, topicLen))
  }

  /** At most `limit` deliveries, all as promised; with fewer, the cursor is at the end and every
      due retry left was blocked by an earlier unacknowledged message of its key. */
  lemma {:induction false} PullLoopRight(before: Work, w: Work, now: Time, limit: nat, topicLen: nat)
    requires WorkSound(w) && topicLen <= |LogIn(w)| && InBounds(w, topicLen)
    requires ResultRight(before, w, now) && |w.deliveries| <= limit
    ensures Ends(before, PullLoop(w, now, limit, topicLen), now, limit, topicLen)
    decreases Measure(w, now, topicLen)
  {
    if |w.deliveries| < limit {
      if Turn(w, now, topicLen).Some? {
        var v := Turn(w, now, topicLen).value;
        TurnSound(w, now, topicLen);
        TurnLessens(w, now, topicLen);
        TurnInBounds(w, now, topicLen);
        TurnRight(before, w, now, topicLen);
        OneMoreAtMost(w, now, topicLen);
        PullLoopRight(before, v, now, limit, topicLen);
      } else {
        DryWithoutTurn(w, now, topicLen);
      }
    }
  }

  lemma ResultStarts(w: Work, now: Time)
    requires w.deliveries == [] && w.handed == [] && w.skipped == {}
    ensures ResultRight(w, w, now)
  {
  }
}
