/** The life of one message under one subscription: the simple form that the broker's cursor,
    sets, leases and queues together refine. An epoch (the time between two seeks) is a history
    of events; each event must be allowed in the phase its message is in. */
module Lifecycle {
  import opened Basics
  import opened Model

  datatype Phase =
    | Fresh                         // not examined since the epoch began
    | Waiting(notBefore: Time)      // to be handed out (again), not before this time
    | Leased(deadline: Time)        // handed out
    | Done                          // acknowledged, dead-lettered or filtered out
    | Lost                          // acknowledged too late under exactly-once: in no container

  datatype Life = Life(phase: Phase, deliveries: nat)

  datatype Kind =
    | Blocked                                        // an earlier message of its key is unacknowledged
    | Delivered(attempt: nat, deadline: Time)
    | DeadLettered(limit: nat)                       // not handed out more often than that
    | FilteredOut
    | Acked
    | AckedLate
    | Extended(deadline: Time)
    | Nacked(policy: Option<RetrySpec>)
    | Reclaimed(policy: Option<RetrySpec>)           // the lease expired

  datatype Event = Event(index: nat, at: Time, kind: Kind)

  predicate Ready(p: Phase, now: Time) {
    p.Fresh? || (p.Waiting? && p.notBefore <= now)
  }

  /** The rules of the life cycle. */
  predicate Allowed(l: Life, e: Event) {
    match e.kind
    case Blocked => Ready(l.phase, e.at)
    case Delivered(attempt, deadline) =>
      Ready(l.phase, e.at) && attempt == l.deliveries + 1 && e.at + 10 * SECOND <= deadline
    case DeadLettered(limit) => Ready(l.phase, e.at) && 5 <= limit <= 100 && limit <= l.deliveries
    case FilteredOut => Ready(l.phase, e.at) && l.deliveries == 0
    case Acked => l.phase.Leased?
    case AckedLate => l.phase.Leased? && l.phase.deadline < e.at
    case Extended(deadline) => l.phase.Leased? && e.at + SECOND <= deadline
    case Nacked(_) => l.phase.Leased?
    case Reclaimed(_) => l.phase.Leased? && l.phase.deadline <= e.at
  }

  function ReleaseTime(at: Time, policy: Option<RetrySpec>, deliveries: nat): Time {
    at + SECOND * BackoffSeconds(policy, deliveries)
  }

  function Next(l: Life, e: Event): Life {
    match e.kind
    case Blocked => l.(phase := Waiting(e.at))
    case Delivered(_, deadline) => Life(Leased(deadline), l.deliveries + 1)
    case DeadLettered(_) => l.(phase := Done)
    case FilteredOut => l.(phase := Done)
    case Acked => l.(phase := Done)
    case AckedLate => l.(phase := Lost)
    case Extended(deadline) => l.(phase := Leased(deadline))
    case Nacked(policy) => l.(phase := Waiting(ReleaseTime(e.at, policy, l.deliveries)))
    case Reclaimed(policy) => l.(phase := Waiting(ReleaseTime(e.at, policy, l.deliveries)))
  }

  type History = seq<Event>

  /** The life of message `i` after the first `k` events. */
  function LifeAt(h: History, k: nat, i: nat): Life
    requires k <= |h|
  {
    if k == 0 then Life(Fresh, 0)
    else
      var before := LifeAt(h, k - 1, i);
      if h[k - 1].index == i then Next(before, h[k - 1]) else before
  }

  function LifeOf(h: History, i: nat): Life {
    LifeAt(h, |h|, i)
  }

  predicate LegalAt(h: History, k: nat)
    requires k < |h|
  {
    Allowed(LifeAt(h, k, h[k].index), h[k])
  }

  predicate Legal(h: History) {
    forall k :: 0 <= k < |h| ==> LegalAt(h, k)
  }

  lemma {:induction false} LifeOfPrefix(h: History, more: History, k: nat, i: nat)
    requires k <= |h|
    ensures LifeAt(h + more, k, i) == LifeAt(h, k, i)
  {
    if k > 0 {
      LifeOfPrefix(h, more, k - 1, i);
    }
  }

  lemma LifeAfter(h: History, e: Event)
    ensures forall i :: LifeOf(h + [e], i) == if i == e.index then Next(LifeOf(h, i), e) else LifeOf(h, i)
  {
    forall i
      ensures LifeOf(h + [e], i) == if i == e.index then Next(LifeOf(h, i), e) else LifeOf(h, i)
    {
      LifeOfPrefix(h, [e], |h|, i);
    }
  }

  lemma LegalAfter(h: History, e: Event)
    requires Legal(h) && Allowed(LifeOf(h, e.index), e)
    ensures Legal(h + [e])
  {
    var g := h + [e];
    forall k | 0 <= k < |g| ensures LegalAt(g, k) {
      LifeOfPrefix(h, [e], k, g[k].index);
      assert k < |h| ==> LegalAt(h, k);
    }
  }

  ghost predicate NoneBetween(h: History, i: nat, a: nat, b: nat)
    requires b <= |h|
  {
    forall k :: a < k < b ==> h[k].index != i
  }

  predicate Settles(k: Kind) {
    k.Acked? || k.AckedLate? || k.DeadLettered? || k.FilteredOut?
  }

  lemma {:induction false} SettledStays(h: History, p: nat, q: nat)
    requires Legal(h) && p < q <= |h| && Settles(h[p].kind)
    ensures LifeAt(h, q, h[p].index).phase in {Done, Lost}
    ensures NoneBetween(h, h[p].index, p, q)
    decreases q
  {
    if p < q - 1 {
      SettledStays(h, p, q - 1);
      assert LegalAt(h, q - 1);
    }
  }

  /** Once acknowledged, dead-lettered or filtered out, a message has no further event before the
      next seek: it is never delivered again and settled only once (so at most one dead-letter
      copy). */
  lemma SettledIsFinal(h: History, p: nat, q: nat)
    requires Legal(h) && p < q < |h| && Settles(h[p].kind)
    ensures h[q].index != h[p].index
  {
    SettledStays(h, p, |h|);
  }

  function DeliveriesBefore(h: History, k: nat, i: nat): nat
    requires k <= |h|
  {
    if k == 0 then 0
    else
      var last := if h[k - 1].index == i && h[k - 1].kind.Delivered? then 1 else 0;
      DeliveriesBefore(h, k - 1, i) + last
  }

  lemma {:induction false} LifeCountsDeliveries(h: History, k: nat, i: nat)
    requires k <= |h|
    ensures LifeAt(h, k, i).deliveries == DeliveriesBefore(h, k, i)
  {
    if k > 0 {
      LifeCountsDeliveries(h, k - 1, i);
    }
  }

  /** The attempt number on a delivery counts the deliveries of that message in the epoch. */
  lemma AttemptCountsDeliveries(h: History, q: nat)
    requires Legal(h) && q < |h| && h[q].kind.Delivered?
    ensures h[q].kind.attempt == DeliveriesBefore(h, q, h[q].index) + 1
  {
    LifeCountsDeliveries(h, q, h[q].index);
    assert LegalAt(h, q);
  }

  ghost predicate Grants(k: Kind, deadline: Time) {
    (k.Delivered? || k.Extended?) && k.deadline == deadline
  }

  /** The deadline of a lease is the one granted last, by a delivery or an extension. */
  lemma {:induction false} DeadlineIsLastGrant(h: History, i: nat, m: nat) returns (g: nat)
    requires m <= |h| && LifeAt(h, m, i).phase.Leased?
    ensures g < m && h[g].index == i && Grants(h[g].kind, LifeAt(h, m, i).phase.deadline)
    ensures NoneBetween(h, i, g, m)
    decreases m
  {
    if h[m - 1].index == i {
      g := m - 1;
    } else {
      g := DeadlineIsLastGrant(h, i, m - 1);
    }
  }

  predicate GivesBack(k: Kind) {
    k.Nacked? || k.Reclaimed?
  }

  function PolicyOf(k: Kind): Option<RetrySpec>
    requires GivesBack(k)
  {
    match k
    case Nacked(policy) => policy
    case Reclaimed(policy) => policy
    case _ => assert false; None
  }

  ghost predicate NoRedelivery(h: History, p: nat, m: nat)
    requires p < m <= |h|
  {
    forall k :: p < k < m && h[k].index == h[p].index ==> !h[k].kind.Delivered?
  }

  /** Event `r` gave the message of delivery `p` back, and at `m` it waits for at least the
      backoff from then. */
  ghost predicate GivenBackAt(h: History, p: nat, m: nat, r: nat)
    requires p < m <= |h|
  {
    var life := LifeAt(h, m, h[p].index);
    && p < r < m && h[r].index == h[p].index && GivesBack(h[r].kind)
    && life.phase.Waiting?
    && ReleaseTime(h[r].at, PolicyOf(h[r].kind), life.deliveries) <= life.phase.notBefore
  }

  /** Since its last delivery a message is leased, was given back and waits, or is settled. */
  lemma {:induction false} SinceDelivery(h: History, p: nat, m: nat) returns (r: nat)
    requires Legal(h) && p < m <= |h| && h[p].kind.Delivered? && NoRedelivery(h, p, m)
    ensures LifeAt(h, m, h[p].index).deliveries == h[p].kind.attempt
    ensures LifeAt(h, m, h[p].index).phase.Waiting? ==> GivenBackAt(h, p, m, r)
    ensures !LifeAt(h, m, h[p].index).phase.Fresh?
    decreases m
  {
    assert LegalAt(h, m - 1);
    r := 0;
    if p + 1 < m {
      r := SinceDelivery(h, p, m - 1);
      if h[m - 1].index == h[p].index && GivesBack(h[m - 1].kind) {
        r := m - 1;
      }
    }
  }

  /** Between deliveries `p` and `q` of one message, event `r` gave it back: a nack, or a reclaim
      no earlier than the deadline that was granted last (by `g`, the delivery itself or an
      extension of it); and `q` is no earlier than `r` plus the backoff for the attempt of `p`. */
  ghost predicate SpacedBy(h: History, p: nat, q: nat, g: nat, r: nat)
    requires p < q < |h| && h[p].kind.Delivered? && h[q].kind.Delivered?
  {
    && p <= g < r < q && h[g].index == h[r].index == h[p].index
    && (h[g].kind.Delivered? || h[g].kind.Extended?) && NoneBetween(h, h[p].index, g, r)
    && GivesBack(h[r].kind)
    && (h[r].kind.Reclaimed? ==> h[g].kind.deadline <= h[r].at)
    && h[q].at >= ReleaseTime(h[r].at, PolicyOf(h[r].kind), h[p].kind.attempt)
    && h[q].kind.attempt == h[p].kind.attempt + 1
  }

  /** Exclusive leases and spacing: two consecutive deliveries of one message in an epoch. */
  lemma RedeliverySpacing(h: History, p: nat, q: nat) returns (g: nat, r: nat)
    requires Legal(h) && p < q < |h| && h[p].index == h[q].index
    requires h[p].kind.Delivered? && h[q].kind.Delivered? && NoRedelivery(h, p, q)
    ensures SpacedBy(h, p, q, g, r)
  {
    r := SinceDelivery(h, p, q);
    assert LegalAt(h, q);
    assert LegalAt(h, r);
    g := DeadlineIsLastGrant(h, h[p].index, r);
    assert g >= p;
  }
}
