/** What a pull decides about each message that it examines, told from the history of the epoch
    alone: nothing here speaks of the containers or of the functions of the pull loop. */
module Verdicts {
  import opened Basics
  import opened Model
  import opened Lifecycle
  import opened Tracking
  import opened Consumer
  import opened Pulling
  import opened PullSafety
  import opened FilterMeaning

  /** With ordering on, an earlier message with the same nonempty key was not settled by the first
      `p` events. */
  ghost predicate HeldUp(spec: SubscriptionSpec, log: seq<Message>, h: History, p: nat, i: nat)
    requires p <= |h| && i < |log|
  {
    spec.ordering && log[i].orderingKey != ""
    && exists j :: 0 <= j < i && log[j].orderingKey == log[i].orderingKey && !LifeAt(h, p, j).phase.Done?
  }

  /** With a policy whose topic exists, the deliveries it allows, at least 5 and at most 100, were
      all made by the first `p` events. */
  ghost predicate UsedUp(spec: SubscriptionSpec, names: set<string>, h: History, p: nat, i: nat)
    requires p <= |h|
  {
    && spec.deadLetter.Some? && spec.deadLetter.value.topic in names
    && Min(Max(spec.deadLetter.value.maxDeliveryAttempts, 5), 100) <= DeliveriesBefore(h, p, i)
  }

  /** Event `p` is the one that the history before it calls for: blocked if held up; otherwise
      dead-lettered if the deliveries are used up; otherwise filtered out or delivered as the filter
      says, and a delivery is the next attempt, for the configured time between 10 and 600 seconds. */
  ghost predicate JudgedAt(spec: SubscriptionSpec, names: set<string>, log: seq<Message>, h: History, p: nat)
    requires p < |h| && h[p].index < |log|
  {
    var e := h[p];
    var held, used := HeldUp(spec, log, h, p, e.index), UsedUp(spec, names, h, p, e.index);
    var holds := FilterHolds(spec.filter, log[e.index].attributes);
    && (held ==> e.kind == Blocked)
    && (!held && used ==> e.kind == DeadLettered(Min(Max(spec.deadLetter.value.maxDeliveryAttempts, 5), 100)))
    && (!held && !used && !holds ==> e.kind == FilteredOut)
    && (!held && !used && holds ==>
          e.kind == Delivered(DeliveriesBefore(h, p, e.index) + 1,
                              e.at + SECOND * Min(Max(spec.ackDeadlineSeconds, 10), 600)))
  }

  // ----- One examination -----

  lemma HeldIsBlocked(w: Work, i: nat, now: Time, h: History)
    requires AtHand(w, i, now) && h == w.t.epoch.trace
    ensures HeldUp(w.t.sub.spec, LogIn(w), h, |h|, i) <==> IsBlocked(w.t.sub, LogIn(w), i)
  {
    forall j | 0 <= j < i ensures LifeAt(h, |h|, j).phase.Done? <==> j in w.t.sub.acked {
      assert Agrees(w.t, j);
    }
    if IsBlocked(w.t.sub, LogIn(w), i) {
      var j :| 0 <= j < i && SameKey(LogIn(w), i, j) && j !in w.t.sub.acked;
      assert !LifeAt(h, |h|, j).phase.Done?;
    }
    if HeldUp(w.t.sub.spec, LogIn(w), h, |h|, i) {
      var j :| 0 <= j < i && LogIn(w)[j].orderingKey == LogIn(w)[i].orderingKey && !LifeAt(h, |h|, j).phase.Done?;
      assert SameKey(LogIn(w), i, j);
    }
  }

  lemma UsedIsExhausted(w: Work, i: nat, now: Time, h: History)
    requires AtHand(w, i, now) && h == w.t.epoch.trace
    ensures UsedUp(w.t.sub.spec, w.topics.Keys, h, |h|, i) <==> Exhausted(w.t.sub, w.topics, i)
    ensures AttemptsOf(w.t.sub, i) == DeliveriesBefore(h, |h|, i)
  {
    LifeCountsDeliveries(h, |h|, i);
  }

  /** The event that an examination records, told from the subscription. */
  lemma ExamineRecords(w: Work, i: nat, now: Time)
    requires i < |LogIn(w)|
    ensures var s := w.t.sub;
            var kind :=
              if IsBlocked(s, LogIn(w), i) then Blocked
              else if Exhausted(s, w.topics, i)
              then DeadLettered(Min(Max(s.spec.deadLetter.value.maxDeliveryAttempts, 5), 100))
              else if s.spec.filter != "" && !Passes(s.spec.filter, LogIn(w)[i].attributes) then FilteredOut
              else Delivered(AttemptsOf(s, i) + 1, now + SECOND * Min(Max(s.spec.ackDeadlineSeconds, 10), 600));
            Examine(w, i, now).t.epoch.trace == w.t.epoch.trace + [Event(i, now, kind)]
  {
  }

  /** The last event of `h` is judged by the events before it. */
  lemma ExamineJudges(w: Work, i: nat, now: Time, h: History)
    requires AtHand(w, i, now) && h == Examine(w, i, now).t.epoch.trace
    ensures |h| == |w.t.epoch.trace| + 1 && h[|h| - 1].index == i && h[|h| - 1].at == now
    ensures JudgedAt(w.t.sub.spec, w.topics.Keys, LogIn(w), h, |h| - 1)
  {
    ExamineRecords(w, i, now);
    HeldIsBlocked(w, i, now, w.t.epoch.trace);
    UsedIsExhausted(w, i, now, w.t.epoch.trace);
    KeptOutIffNotHolds(w.t.sub.spec.filter, LogIn(w)[i].attributes);
    JudgedByPrefix(w.t.sub.spec, w.topics.Keys, LogIn(w), w.t.epoch.trace, h[|h| - 1]);
  }

  lemma JudgedByPrefix(spec: SubscriptionSpec, names: set<string>, log: seq<Message>, h: History, e: Event)
    requires e.index < |log|
    ensures HeldUp(spec, log, h + [e], |h|, e.index) <==> HeldUp(spec, log, h, |h|, e.index)
    ensures UsedUp(spec, names, h + [e], |h|, e.index) <==> UsedUp(spec, names, h, |h|, e.index)
    ensures DeliveriesBefore(h + [e], |h|, e.index) == DeliveriesBefore(h, |h|, e.index)
  {
    PrefixTells(h, h + [e], |h|);
  }

  /** What the first `p` events tell, a longer history tells too. */
  lemma PrefixTells(h: History, g: History, p: nat)
    requires p <= |h| && h <= g
    ensures forall i :: LifeAt(g, p, i) == LifeAt(h, p, i)
    ensures forall i :: DeliveriesBefore(g, p, i) == DeliveriesBefore(h, p, i)
  {
    assert g == h + g[|h|..];
    forall i
      ensures LifeAt(g, p, i) == LifeAt(h, p, i)
      ensures DeliveriesBefore(g, p, i) == DeliveriesBefore(h, p, i)
    {
      LifeOfPrefix(h, g[|h|..], p, i);
      LifeCountsDeliveries(g, p, i);
      LifeCountsDeliveries(h, p, i);
    }
  }

  // ----- A whole pull -----

  /** The events from position `from` on are of time `now` and judged. */
  ghost predicate AllJudged(spec: SubscriptionSpec, names: set<string>, log: seq<Message>, h: History, from: nat,
                            now: Time) {
    forall p :: from <= p < |h| ==> h[p].at == now && h[p].index < |log| && JudgedAt(spec, names, log, h, p)
  }

  lemma JudgedStill(spec: SubscriptionSpec, names: set<string>, log: seq<Message>, h: History, p: nat,
                    more: seq<Message>, g: History)
    requires p < |h| && h[p].index < |log| && JudgedAt(spec, names, log, h, p)
    requires h <= g && log <= more
    ensures JudgedAt(spec, names, more, g, p)
  {
    PrefixTells(h, g, p);
    var i := h[p].index;
    assert forall j :: 0 <= j <= i ==> more[j] == log[j];
    assert HeldUp(spec, more, g, p, i) <==> HeldUp(spec, log, h, p, i);
    assert UsedUp(spec, names, g, p, i) <==> UsedUp(spec, names, h, p, i);
  }

  lemma AllJudgedStill(spec: SubscriptionSpec, names: set<string>, log: seq<Message>, h: History, from: nat, now: Time,
                       more: seq<Message>, g: History)
    requires AllJudged(spec, names, log, h, from, now) && from <= |h| && |g| == |h| + 1 && h <= g && log <= more
    requires g[|h|].at == now && g[|h|].index < |more| && JudgedAt(spec, names, more, g, |h|)
    ensures AllJudged(spec, names, more, g, from, now)
  {
    forall p | from <= p < |g|
      ensures g[p].at == now && g[p].index < |more| && JudgedAt(spec, names, more, g, p)
    {
      if p < |h| {
        JudgedStill(spec, names, log, h, p, more, g);
      }
    }
  }

  /** So far the work since position `from` was judged. */
  ghost predicate WorkJudged(w: Work, from: nat, now: Time) {
    from <= |w.t.epoch.trace| && AllJudged(w.t.sub.spec, w.topics.Keys, LogIn(w), w.t.epoch.trace, from, now)
  }

  lemma ExamineKeepsJudged(w: Work, i: nat, from: nat, now: Time)
    requires AtHand(w, i, now) && WorkJudged(w, from, now)
    ensures WorkJudged(Examine(w, i, now), from, now)
  {
    var v := Examine(w, i, now);
    LogOnlyGrows(w, i, now);
    ExamineRecords(w, i, now);
    ExamineJudges(w, i, now, v.t.epoch.trace);
    JudgedStill(w.t.sub.spec, w.topics.Keys, LogIn(w), v.t.epoch.trace, |w.t.epoch.trace|, LogIn(v), v.t.epoch.trace);
    AllJudgedStill(w.t.sub.spec, w.topics.Keys, LogIn(w), w.t.epoch.trace, from, now, LogIn(v), v.t.epoch.trace);
  }

  lemma {:induction false} LoopJudges(w: Work, from: nat, now: Time, limit: nat, topicLen: nat)
    requires WorkSound(w) && topicLen <= |LogIn(w)| && InBounds(w, topicLen) && WorkJudged(w, from, now)
    ensures WorkJudged(PullLoop(w, now, limit, topicLen), from, now)
    decreases Measure(w, now, topicLen)
  {
    if |w.deliveries| < limit && Turn(w, now, topicLen).Some? {
      var v, i := TurnExamines(w, now, topicLen);
      ExamineKeepsJudged(v, i, from, now);
      TurnSound(w, now, topicLen);
      TurnLessens(w, now, topicLen);
      TurnInBounds(w, now, topicLen);
      LoopJudges(Turn(w, now, topicLen).value, from, now, limit, topicLen);
    }
  }
}
