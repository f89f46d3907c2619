/** The pull loop of src/memory.rs as a function on the work in progress: which index comes
    next, what becomes of it, and why the loop ends. */
module Pulling {
  import opened Basics
  import opened Model
  import opened Lifecycle
  import opened Tracking
  import opened Consumer

  /** The state of a running pull: topics and subscription as changed so far, how many ids have
      been generated, the deliveries with their log indices, and the indices found blocked. */
  datatype Work = Work(
    topics: map<string, Topic>,
    t: Tracked,
    minted: nat,
    deliveries: seq<Delivery>,
    handed: seq<nat>,
    skipped: set<nat>)

  // ----- Which index comes next -----

  predicate Due(r: RetryEntry, now: Time, skipped: set<nat>) {
    r.availableAt <= now && r.index !in skipped
  }

  function FirstDue(queue: seq<RetryEntry>, from: nat, now: Time, skipped: set<nat>): (r: Option<nat>)
    requires from <= |queue|
    ensures r.Some? ==> from <= r.value < |queue| && Due(queue[r.value], now, skipped)
    ensures r.Some? ==> forall p :: from <= p < r.value ==> !Due(queue[p], now, skipped)
    ensures r.None? ==> forall p :: from <= p < |queue| ==> !Due(queue[p], now, skipped)
    decreases |queue| - from
  {
    if from == |queue| then None
    else if Due(queue[from], now, skipped) then Some(from)
    else FirstDue(queue, from + 1, now, skipped)
  }

  /** The next index to examine and the subscription without it: a due retry first, then the
      message at the cursor. */
  function Pick(sub: Subscription, now: Time, topicLen: nat, skipped: set<nat>): Option<(nat, Subscription)> {
    match FirstDue(sub.retryQueue, 0, now, skipped)
    case Some(p) => Some((sub.retryQueue[p].index, sub.(retryQueue := RemoveAt(sub.retryQueue, p))))
    case None =>
      if sub.nextIndex < topicLen then Some((sub.nextIndex, sub.(nextIndex := sub.nextIndex + 1))) else None
  }

  // ----- What becomes of it -----

  /** An earlier message with the same key is unacknowledged. */
  predicate IsBlocked(sub: Subscription, log: seq<Message>, i: nat) {
    sub.spec.ordering && exists j :: 0 <= j < i && SameKey(log, i, j) && j !in sub.acked
  }

  function MaxAttempts(d: DeadLetterSpec): (r: nat)
    ensures 5 <= r <= 100
  {
    Clamp(d.maxDeliveryAttempts, 5, 100)
  }

  datatype Verdict = Hold | Bury | Discard | Hand

  predicate Exhausted(sub: Subscription, topics: map<string, Topic>, i: nat) {
    && sub.spec.deadLetter.Some?
    && AttemptsOf(sub, i) + 1 > MaxAttempts(sub.spec.deadLetter.value)
    && sub.spec.deadLetter.value.topic in topics
  }

  function Judge(sub: Subscription, topics: map<string, Topic>, log: seq<Message>, i: nat): Verdict
    requires i < |log|
  {
    if IsBlocked(sub, log, i) then Hold
    else if Exhausted(sub, topics, i) then Bury
    else if sub.spec.filter != "" && !Passes(sub.spec.filter, log[i].attributes) then Discard
    else Hand
  }

  const SOURCE_KEY := "x-zyvor-dead-letter-source"
  const ORIGINAL_KEY := "x-zyvor-original-message-id"

  function DeadCopy(subscription: string, m: Message, id: string, now: Time): Message {
    Message(id, m.data, m.attributes[SOURCE_KEY := subscription][ORIGINAL_KEY := m.id], m.orderingKey, now)
  }

  function NewAckId(sub: Subscription, i: nat, attempt: nat, minted: nat): string {
    if sub.spec.exactlyOnce then AckKey(sub.spec.name, i, attempt) else Uuid(minted)
  }

  function LogOf(topics: map<string, Topic>, name: string): seq<Message> {
    if name in topics then topics[name].messages else []
  }

  function LogIn(w: Work): seq<Message> {
    LogOf(w.topics, w.t.sub.spec.topic)
  }

  function HoldBack(w: Work, i: nat, now: Time): Work {
    var s := w.t.sub;
    w.(t := Tracked(s.(retryQueue := s.retryQueue + [RetryEntry(i, now)]),
                    Record(w.t.epoch, Event(i, now, Blocked))),
       skipped := w.skipped + {i})
  }

  function BuryIn(w: Work, i: nat, now: Time, dead: string): Work
    requires dead in w.topics && i < |LogIn(w)| && w.t.sub.spec.deadLetter.Some?
  {
    var s := w.t.sub;
    var topic := w.topics[dead];
    var copy := DeadCopy(s.spec.name, LogIn(w)[i], Uuid(w.minted), now);
    w.(topics := w.topics[dead := topic.(messages := topic.messages + [copy])],
       t := Tracked(s.(attempts := s.attempts[i := AttemptsOf(s, i) + 1], acked := s.acked + {i}),
                    Record(w.t.epoch, Event(i, now, DeadLettered(MaxAttempts(s.spec.deadLetter.value))))),
       minted := w.minted + 1)
  }

  function DiscardOne(w: Work, i: nat, now: Time): Work {
    var s := w.t.sub;
    w.(t := Tracked(s.(attempts := s.attempts[i := AttemptsOf(s, i) + 1], acked := s.acked + {i}),
                    Record(w.t.epoch, Event(i, now, FilteredOut))))
  }

  function HandOut(w: Work, i: nat, now: Time): Work
    requires i < |LogIn(w)|
  {
    var s := w.t.sub;
    var attempt := AttemptsOf(s, i) + 1;
    var ackId := NewAckId(s, i, attempt, w.minted);
    var deadline := now + SECOND * NormalizeAckDeadline(s.spec.ackDeadlineSeconds);
    w.(t := Tracked(s.(attempts := s.attempts[i := attempt],
                       inflight := s.inflight[ackId := Lease(i, deadline)]),
                    Record(w.t.epoch, Event(i, now, Delivered(attempt, deadline)))),
       minted := if s.spec.exactlyOnce then w.minted else w.minted + 1,
       deliveries := w.deliveries + [Delivery(ackId, LogIn(w)[i], attempt)],
       handed := w.handed + [i])
  }

  /** Examines index `i`, which is in no container. */
  function Examine(w: Work, i: nat, now: Time): Work
    requires i < |LogIn(w)|
  {
    match Judge(w.t.sub, w.topics, LogIn(w), i)
    case Hold => HoldBack(w, i, now)
    case Bury => BuryIn(w, i, now, w.t.sub.spec.deadLetter.value.topic)
    case Discard => DiscardOne(w, i, now)
    case Hand => HandOut(w, i, now)
  }

  /** Indices name messages: the log reaches past the queue and past `topicLen`. */
  predicate InBounds(w: Work, topicLen: nat) {
    && topicLen <= |LogIn(w)|
    && forall p :: 0 <= p < |w.t.sub.retryQueue| ==> w.t.sub.retryQueue[p].index < |LogIn(w)|
  }

  /** One turn of the loop, after its first test: an index that is acknowledged or leased is
      dropped, any other is examined. */
  function Turn(w: Work, now: Time, topicLen: nat): Option<Work>
    requires InBounds(w, topicLen)
  {
    match Pick(w.t.sub, now, topicLen, w.skipped)
    case None => None
    case Some((i, s)) =>
      PickInBounds(w, now, topicLen);
      var v := w.(t := w.t.(sub := s));
      if i in s.acked || i in LeasedIn(s.inflight) then Some(v) else Some(Examine(v, i, now))
  }

  // ----- Why the loop ends -----

  /** The indices of the due retries, in the order of the queue. */
  function DueIndices(queue: seq<RetryEntry>, now: Time, skipped: set<nat>): seq<nat> {
    if queue == [] then []
    else
      var last := queue[|queue| - 1];
      DueIndices(queue[..|queue| - 1], now, skipped) + if Due(last, now, skipped) then [last.index] else []
  }

  /** Messages still ahead of the cursor plus retries that are due and not yet found blocked. */
  function Measure(w: Work, now: Time, topicLen: nat): nat {
    Max(topicLen - w.t.sub.nextIndex, 0) + |DueIndices(w.t.sub.retryQueue, now, w.skipped)|
  }

  lemma {:induction false} DueAppend(a: seq<RetryEntry>, b: seq<RetryEntry>, now: Time, skipped: set<nat>)
    ensures DueIndices(a + b, now, skipped) == DueIndices(a, now, skipped) + DueIndices(b, now, skipped)
  {
    if b == [] {
      assert a + b == a;
    } else {
      DueAppend(a, b[..|b| - 1], now, skipped);
      assert (a + b)[..|a + b| - 1] == a + b[..|b| - 1];
    }
  }

  lemma {:induction false} DueShrinks(queue: seq<RetryEntry>, now: Time, skipped: set<nat>, i: nat)
    ensures |DueIndices(queue, now, skipped + {i})| <= |DueIndices(queue, now, skipped)|
    ensures i !in QueuedIn(queue) ==> DueIndices(queue, now, skipped + {i}) == DueIndices(queue, now, skipped)
  {
    if queue != [] {
      DueShrinks(queue[..|queue| - 1], now, skipped, i);
      assert queue[|queue| - 1].index in QueuedIn(queue);
      assert forall j :: j in QueuedIn(queue[..|queue| - 1]) ==> j in QueuedIn(queue) by {
        assert forall k :: 0 <= k < |queue| - 1 ==> queue[..|queue| - 1][k] == queue[k];
      }
    }
  }

  lemma DueOne(r: RetryEntry, now: Time, skipped: set<nat>)
    ensures DueIndices([r], now, skipped) == if Due(r, now, skipped) then [r.index] else []
  {
    assert [r][..0] == [];
  }

  /** Nothing is due in front of the first due retry. */
  lemma {:induction false} NoneDue(queue: seq<RetryEntry>, p: nat, now: Time, skipped: set<nat>)
    requires p <= |queue| && forall k :: 0 <= k < p ==> !Due(queue[k], now, skipped)
    ensures DueIndices(queue[..p], now, skipped) == []
  {
    if p > 0 {
      NoneDue(queue, p - 1, now, skipped);
      assert queue[..p][..p - 1] == queue[..p - 1];
    }
  }

  lemma DueRemoved(queue: seq<RetryEntry>, p: nat, now: Time, skipped: set<nat>)
    requires p < |queue| && Due(queue[p], now, skipped)
    requires forall k :: 0 <= k < p ==> !Due(queue[k], now, skipped)
    ensures DueIndices(queue, now, skipped) == [queue[p].index] + DueIndices(RemoveAt(queue, p), now, skipped)
  {
    assert queue == (queue[..p] + [queue[p]]) + queue[p + 1..];
    DueAppend(queue[..p] + [queue[p]], queue[p + 1..], now, skipped);
    DueAppend(queue[..p], [queue[p]], now, skipped);
    DueAppend(queue[..p], queue[p + 1..], now, skipped);
    DueOne(queue[p], now, skipped);
    NoneDue(queue, p, now, skipped);
  }

  lemma PickLessens(w: Work, now: Time, topicLen: nat)
    requires Pick(w.t.sub, now, topicLen, w.skipped).Some?
    ensures var (i, s) := Pick(w.t.sub, now, topicLen, w.skipped).value;
            Measure(w.(t := w.t.(sub := s)), now, topicLen) < Measure(w, now, topicLen)
  {
    match FirstDue(w.t.sub.retryQueue, 0, now, w.skipped) {
      case Some(p) => DueRemoved(w.t.sub.retryQueue, p, now, w.skipped);
      case None =>
    }
  }

  lemma ExamineKeepsMeasure(w: Work, i: nat, now: Time, topicLen: nat)
    requires i < |LogIn(w)|
    ensures Measure(Examine(w, i, now), now, topicLen) <= Measure(w, now, topicLen)
  {
    if Judge(w.t.sub, w.topics, LogIn(w), i).Hold? {
      var q, r, skipped := w.t.sub.retryQueue, RetryEntry(i, now), w.skipped + {i};
      DueAppend(q, [r], now, skipped);
      DueOne(r, now, skipped);
      DueShrinks(q, now, w.skipped, i);
    }
  }

  lemma TurnLessens(w: Work, now: Time, topicLen: nat)
    requires InBounds(w, topicLen) && Turn(w, now, topicLen).Some?
    ensures Measure(Turn(w, now, topicLen).value, now, topicLen) < Measure(w, now, topicLen)
  {
    var (i, s) := Pick(w.t.sub, now, topicLen, w.skipped).value;
    var v := w.(t := w.t.(sub := s));
    PickLessens(w, now, topicLen);
    if !(i in s.acked || i in LeasedIn(s.inflight)) {
      ExamineKeepsMeasure(v, i, now, topicLen);
    }
  }

  lemma LogOnlyGrows(w: Work, i: nat, now: Time)
    requires i < |LogIn(w)|
    ensures LogIn(w) <= LogIn(Examine(w, i, now))
    ensures Examine(w, i, now).t.sub.spec == w.t.sub.spec
  {
  }

  lemma PickInBounds(w: Work, now: Time, topicLen: nat)
    requires InBounds(w, topicLen) && Pick(w.t.sub, now, topicLen, w.skipped).Some?
    ensures var (i, s) := Pick(w.t.sub, now, topicLen, w.skipped).value;
            && i < |LogIn(w)| && s.spec == w.t.sub.spec
            && InBounds(w.(t := w.t.(sub := s)), topicLen)
  {
    match FirstDue(w.t.sub.retryQueue, 0, now, w.skipped) {
      case Some(p) =>
        var q := w.t.sub.retryQueue;
        assert forall k :: 0 <= k < |RemoveAt(q, p)| ==> RemoveAt(q, p)[k] == q[if k < p then k else k + 1];
      case None =>
    }
  }

  lemma TurnInBounds(w: Work, now: Time, topicLen: nat)
    requires InBounds(w, topicLen) && Turn(w, now, topicLen).Some?
    ensures InBounds(Turn(w, now, topicLen).value, topicLen)
  {
    var (i, s) := Pick(w.t.sub, now, topicLen, w.skipped).value;
    var v := w.(t := w.t.(sub := s));
    PickInBounds(w, now, topicLen);
    LogOnlyGrows(v, i, now);
  }

  /** The whole loop: turns until `limit` deliveries are made or nothing is left to examine. It
      ends whatever the topics are, even when dead letters go back to the topic being read. */
  function PullLoop(w: Work, now: Time, limit: nat, topicLen: nat): Work
    requires InBounds(w, topicLen)
    decreases Measure(w, now, topicLen)
  {
    if |w.deliveries| >= limit then w
    else
      match Turn(w, now, topicLen)
      case None => w
      case Some(v) =>
        TurnLessens(w, now, topicLen);
        TurnInBounds(w, now, topicLen);
        PullLoop(v, now, limit, topicLen)
  }
}
