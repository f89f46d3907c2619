/** The order of a pull: which messages it examines, one after the other, and the retry queue that
    it leaves behind. */
module Schedule {
  import opened Basics
  import opened Model
  import opened Lifecycle
  import opened Tracking
  import opened Consumer
  import opened Pulling
  import opened PullSafety

  /** The indices from the cursor to the end. */
  function Ahead(cursor: nat, topicLen: nat): seq<nat> {
    seq(Max(topicLen - cursor, 0), k requires 0 <= k < Max(topicLen - cursor, 0) => cursor + k)
  }

  /** What there is to examine: the due retries in the order of the queue, then the rest of the log. */
  function Planned(sub: Subscription, now: Time, topicLen: nat): seq<nat> {
    DueIndices(sub.retryQueue, now, {}) + Ahead(sub.nextIndex, topicLen)
  }

  /** The indices of the events from position `from` on. */
  function IndicesFrom(h: History, from: nat): seq<nat> {
    if |h| <= from then [] else IndicesFrom(h[..|h| - 1], from) + [h[|h| - 1].index]
  }

  /** An entry, due at once, for each message found blocked from position `from` on. */
  function HeldFrom(h: History, from: nat): seq<RetryEntry> {
    if |h| <= from then []
    else
      var e := h[|h| - 1];
      HeldFrom(h[..|h| - 1], from) + if e.kind.Blocked? then [RetryEntry(e.index, e.at)] else []
  }

  /** What has been examined and what is still to be examined make up the plan. */
  ghost predicate OnPlan(w: Work, from: nat, now: Time, topicLen: nat, plan: seq<nat>) {
    && from <= |w.t.epoch.trace|
    && IndicesFrom(w.t.epoch.trace, from)
       + (DueIndices(w.t.sub.retryQueue, now, w.skipped) + Ahead(w.t.sub.nextIndex, topicLen)) == plan
  }

  lemma AheadOne(cursor: nat, topicLen: nat)
    requires cursor < topicLen
    ensures Ahead(cursor, topicLen) == [cursor] + Ahead(cursor + 1, topicLen)
  {
  }

  lemma PickIsNext(sub: Subscription, now: Time, topicLen: nat, skipped: set<nat>, i: nat, s: Subscription)
    requires Pick(sub, now, topicLen, skipped) == Some((i, s))
    ensures DueIndices(sub.retryQueue, now, skipped) + Ahead(sub.nextIndex, topicLen)
         == [i] + (DueIndices(s.retryQueue, now, skipped) + Ahead(s.nextIndex, topicLen))
  {
    match FirstDue(sub.retryQueue, 0, now, skipped) {
      case Some(p) => DueRemoved(sub.retryQueue, p, now, skipped);
      case None =>
        NoneDue(sub.retryQueue, |sub.retryQueue|, now, skipped);
        assert sub.retryQueue[..|sub.retryQueue|] == sub.retryQueue;
        AheadOne(i, topicLen);
    }
  }

  lemma PickNone(sub: Subscription, now: Time, topicLen: nat, skipped: set<nat>)
    requires Pick(sub, now, topicLen, skipped).None?
    ensures DueIndices(sub.retryQueue, now, skipped) + Ahead(sub.nextIndex, topicLen) == []
  {
    NoneDue(sub.retryQueue, |sub.retryQueue|, now, skipped);
    assert sub.retryQueue[..|sub.retryQueue|] == sub.retryQueue;
  }

  lemma ExamineKeepsDue(w: Work, i: nat, now: Time)
    requires AtHand(w, i, now)
    ensures var v := Examine(w, i, now);
            && DueIndices(v.t.sub.retryQueue, now, v.skipped) == DueIndices(w.t.sub.retryQueue, now, w.skipped)
            && v.t.sub.nextIndex == w.t.sub.nextIndex
  {
    if Judge(w.t.sub, w.topics, LogIn(w), i).Hold? {
      var q, r, skipped := w.t.sub.retryQueue, RetryEntry(i, now), w.skipped + {i};
      DueAppend(q, [r], now, skipped);
      DueOne(r, now, skipped);
      DueShrinks(q, now, w.skipped, i);
    }
  }

  lemma ExamineEvent(w: Work, i: nat, now: Time) returns (e: Event)
    requires i < |LogIn(w)|
    ensures Examine(w, i, now).t.epoch.trace == w.t.epoch.trace + [e]
    ensures e.index == i && e.at == now && (e.kind.Blocked? <==> IsBlocked(w.t.sub, LogIn(w), i))
  {
    var h := Examine(w, i, now).t.epoch.trace;
    e := h[|w.t.epoch.trace|];
  }

  lemma OneMoreIndex(h: History, e: Event, from: nat)
    requires from <= |h|
    ensures IndicesFrom(h + [e], from) == IndicesFrom(h, from) + [e.index]
    ensures HeldFrom(h + [e], from)
         == HeldFrom(h, from) + if e.kind.Blocked? then [RetryEntry(e.index, e.at)] else []
  {
    assert (h + [e])[..|h|] == h;
  }

  lemma Regroup(done: seq<nat>, i: nat, rest: seq<nat>)
    ensures done + ([i] + rest) == (done + [i]) + rest
  {
  }

  lemma TurnOnPlan(w: Work, from: nat, now: Time, topicLen: nat, plan: seq<nat>)
    requires WorkSound(w) && topicLen <= |LogIn(w)| && InBounds(w, topicLen)
    requires Turn(w, now, topicLen).Some? && OnPlan(w, from, now, topicLen, plan)
    ensures OnPlan(Turn(w, now, topicLen).value, from, now, topicLen, plan)
  {
    var v, i := TurnExamines(w, now, topicLen);
    PickIsNext(w.t.sub, now, topicLen, w.skipped, i, v.t.sub);
    ExamineKeepsDue(v, i, now);
    var e := ExamineEvent(v, i, now);
    OneMoreIndex(w.t.epoch.trace, e, from);
    Regroup(IndicesFrom(w.t.epoch.trace, from), i,
            DueIndices(v.t.sub.retryQueue, now, v.skipped) + Ahead(v.t.sub.nextIndex, topicLen));
  }

  /** The messages are examined in the order planned, and all of them unless the limit is reached. */
  lemma {:induction false} LoopFollowsPlan(w: Work, from: nat, now: Time, limit: nat, topicLen: nat, plan: seq<nat>)
    requires WorkSound(w) && topicLen <= |LogIn(w)| && InBounds(w, topicLen) && OnPlan(w, from, now, topicLen, plan)
    ensures var v := PullLoop(w, now, limit, topicLen);
            && from <= |v.t.epoch.trace| && IndicesFrom(v.t.epoch.trace, from) <= plan
            && (|v.deliveries| < limit ==> IndicesFrom(v.t.epoch.trace, from) == plan)
    decreases Measure(w, now, topicLen)
  {
    if |w.deliveries| < limit {
      if Turn(w, now, topicLen).Some? {
        TurnOnPlan(w, from, now, topicLen, plan);
        TurnSound(w, now, topicLen);
        TurnLessens(w, now, topicLen);
        TurnInBounds(w, now, topicLen);
        LoopFollowsPlan(Turn(w, now, topicLen).value, from, now, limit, topicLen, plan);
      } else {
        PickNone(w.t.sub, now, topicLen, w.skipped);
      }
    }
  }

  // ----- The queue left behind -----

  /** The entries of the indices not in `gone`. */
  function Except(queue: seq<RetryEntry>, gone: seq<nat>): seq<RetryEntry> {
    if queue == [] then []
    else
      var last := queue[|queue| - 1];
      Except(queue[..|queue| - 1], gone) + if last.index in gone then [] else [last]
  }

  /** The queue is the old one without the indices examined, then the entries of those found blocked. */
  ghost predicate QueueRight(queue: seq<RetryEntry>, w: Work, from: nat) {
    && from <= |w.t.epoch.trace|
    && w.t.sub.retryQueue == Except(queue, IndicesFrom(w.t.epoch.trace, from)) + HeldFrom(w.t.epoch.trace, from)
    && (forall r :: r in HeldFrom(w.t.epoch.trace, from) ==> r.index in w.skipped)
    && (forall r :: r in queue ==> r.index < w.t.sub.nextIndex)
  }

  lemma {:induction false} ExceptAbsent(queue: seq<RetryEntry>, gone: seq<nat>, i: nat)
    requires i !in QueuedIn(queue)
    ensures Except(queue, gone + [i]) == Except(queue, gone)
  {
    if queue != [] {
      var front := queue[..|queue| - 1];
      assert queue[|queue| - 1].index in QueuedIn(queue);
      assert forall k :: 0 <= k < |front| ==> front[k] == queue[k] && queue[k].index in QueuedIn(queue);
      ExceptAbsent(front, gone, i);
    }
  }

  /** Taking the entry of `i` out of what is left of a queue without repetition. */
  lemma {:induction false} ExceptRemoved(queue: seq<RetryEntry>, gone: seq<nat>, p: nat)
    requires UniqueEntries(queue) && p < |Except(queue, gone)|
    ensures Except(queue, gone + [Except(queue, gone)[p].index]) == RemoveAt(Except(queue, gone), p)
    ensures Except(queue, gone)[p] in queue
  {
    var front, last := queue[..|queue| - 1], queue[|queue| - 1];
    var left := Except(front, gone);
    if p < |left| {
      ExceptRemoved(front, gone, p);
      assert last.index != left[p].index;
      if last.index !in gone {
        assert RemoveAt(left + [last], p) == RemoveAt(left, p) + [last];
      }
    } else {
      assert forall k :: 0 <= k < |front| ==> front[k] == queue[k];
      ExceptAbsent(front, gone, last.index);
      assert RemoveAt(left + [last], p) == left;
    }
  }

  /** Adding the entries held back does not matter to an entry in front of them. */
  lemma RemoveInFront(left: seq<RetryEntry>, held: seq<RetryEntry>, p: nat)
    requires p < |left|
    ensures RemoveAt(left + held, p) == RemoveAt(left, p) + held
  {
  }

  lemma PickFromQueue(queue: seq<RetryEntry>, w: Work, from: nat, now: Time, p: nat)
    requires QueueRight(queue, w, from) && UniqueEntries(queue)
    requires p < |w.t.sub.retryQueue| && Due(w.t.sub.retryQueue[p], now, w.skipped)
    ensures var i := w.t.sub.retryQueue[p].index;
            RemoveAt(w.t.sub.retryQueue, p)
            == Except(queue, IndicesFrom(w.t.epoch.trace, from) + [i]) + HeldFrom(w.t.epoch.trace, from)
  {
    var gone, held := IndicesFrom(w.t.epoch.trace, from), HeldFrom(w.t.epoch.trace, from);
    var left := Except(queue, gone);
    assert forall k :: |left| <= k < |left + held| ==> (left + held)[k] in held;
    ExceptRemoved(queue, gone, p);
    RemoveInFront(left, held, p);
  }

  /** After the pick the queue lacks the index picked. */
  lemma PickLeaves(queue: seq<RetryEntry>, w: Work, from: nat, now: Time, topicLen: nat, i: nat, s: Subscription)
    requires QueueRight(queue, w, from) && UniqueEntries(queue)
    requires Pick(w.t.sub, now, topicLen, w.skipped) == Some((i, s))
    ensures s.retryQueue
         == Except(queue, IndicesFrom(w.t.epoch.trace, from) + [i]) + HeldFrom(w.t.epoch.trace, from)
    ensures w.t.sub.nextIndex <= s.nextIndex
  {
    match FirstDue(w.t.sub.retryQueue, 0, now, w.skipped) {
      case Some(p) => PickFromQueue(queue, w, from, now, p);
      case None =>
        assert forall k :: 0 <= k < |queue| ==> queue[k] in queue;
        ExceptAbsent(queue, IndicesFrom(w.t.epoch.trace, from), i);
    }
  }

  lemma ExamineHolds(w: Work, i: nat, now: Time)
    requires i < |LogIn(w)|
    ensures var v, held := Examine(w, i, now), IsBlocked(w.t.sub, LogIn(w), i);
            && v.t.sub.retryQueue == w.t.sub.retryQueue + (if held then [RetryEntry(i, now)] else [])
            && v.skipped == w.skipped + (if held then {i} else {})
            && v.t.sub.nextIndex == w.t.sub.nextIndex
  {
  }

  lemma TurnQueue(queue: seq<RetryEntry>, w: Work, from: nat, now: Time, topicLen: nat)
    requires WorkSound(w) && topicLen <= |LogIn(w)| && InBounds(w, topicLen)
    requires Turn(w, now, topicLen).Some? && QueueRight(queue, w, from) && UniqueEntries(queue)
    ensures QueueRight(queue, Turn(w, now, topicLen).value, from)
  {
    var v, i := TurnExamines(w, now, topicLen);
    PickLeaves(queue, w, from, now, topicLen, i, v.t.sub);
    ExamineHolds(v, i, now);
    var e := ExamineEvent(v, i, now);
    OneMoreIndex(w.t.epoch.trace, e, from);
  }

  /** What a pull leaves in the queue. */
  lemma {:induction false} LoopQueue(queue: seq<RetryEntry>, w: Work, from: nat, now: Time, limit: nat, topicLen: nat)
    requires WorkSound(w) && topicLen <= |LogIn(w)| && InBounds(w, topicLen)
    requires QueueRight(queue, w, from) && UniqueEntries(queue)
    ensures QueueRight(queue, PullLoop(w, now, limit, topicLen), from)
    decreases Measure(w, now, topicLen)
  {
    if |w.deliveries| < limit && Turn(w, now, topicLen).Some? {
      TurnQueue(queue, w, from, now, topicLen);
      TurnSound(w, now, topicLen);
      TurnLessens(w, now, topicLen);
      TurnInBounds(w, now, topicLen);
      LoopQueue(queue, Turn(w, now, topicLen).value, from, now, limit, topicLen);
    }
  }
}
