/** The broker's data (src/model.rs and the state records of src/memory.rs), and the parts of
    src/memory.rs that only compute: backoff, deadline bounds, the update mask. */
module Model {
  import opened Basics
  import Filter

  /** Instants, in ticks; an operation reads the clock once. */
  type Time = int
  const SECOND: nat := 1_000_000_000

  type Bytes = seq<bv8>

  datatype Error = NotFound | AlreadyExists | InvalidArgument | FailedPrecondition

  datatype Message = Message(id: string, data: Bytes, attributes: Filter.Attributes,
                             orderingKey: string, publishedAt: Time)

  datatype NewMessage = NewMessage(data: Bytes, attributes: Filter.Attributes,
                                   orderingKey: string, messageId: string)

  datatype Delivery = Delivery(ackId: string, message: Message, attempt: nat)

  datatype DeadLetterSpec = DeadLetterSpec(topic: string, maxDeliveryAttempts: u32)

  datatype RetrySpec = RetrySpec(minimumBackoff: u32, maximumBackoff: u32)

  datatype SubscriptionSpec = SubscriptionSpec(
    name: string,
    topic: string,
    ackDeadlineSeconds: u32,
    labels: map<string, string>,
    ordering: bool,
    exactlyOnce: bool,
    deadLetter: Option<DeadLetterSpec>,
    retry: Option<RetrySpec>,
    pushEndpoint: Option<string>,
    pushAttributes: map<string, string>,
    filter: string)

  datatype Topic = Topic(schemaName: string, messages: seq<Message>, seenIds: map<string, string>)

  datatype Lease = Lease(index: nat, deadline: Time)

  datatype RetryEntry = RetryEntry(index: nat, availableAt: Time)

  /** A subscription: a cursor into its topic's log, and four containers of log indices. */
  datatype Subscription = Subscription(
    spec: SubscriptionSpec,
    nextIndex: nat,
    acked: set<nat>,
    inflight: map<string, Lease>,
    retryQueue: seq<RetryEntry>,
    attempts: map<nat, nat>,
    orderingAcked: map<string, nat>)

  datatype Snapshot = Snapshot(topic: string, topicIndex: nat)

  // ----- Generated names -----

  /** The text of the n-th generated UUID; only its being one-to-one and free of colons is used. */
  function Uuid(n: nat): string {
    "uuid-" + Decimal(n)
  }

  ghost predicate IsUuid(s: string) {
    exists n: nat :: s == Uuid(n)
  }

  /** The acknowledgement id of an exactly-once lease. */
  function AckKey(subscription: string, index: nat, attempt: nat): string {
    subscription + (":" + (Decimal(index) + (":" + Decimal(attempt))))
  }

  lemma DigitsBeforeColon(a: string, x: string, b: string, y: string)
    requires AllDigits(a) && AllDigits(b)
    requires a + (":" + x) == b + (":" + y)
    ensures a == b && x == y
  {
    var s := a + (":" + x);
    assert forall k :: 0 <= k < |a| ==> s[k] == a[k];
    assert forall k :: 0 <= k < |b| ==> s[k] == b[k] by {
      assert s == b + (":" + y);
    }
    assert s[|a|] == ':' && s[|b|] == ':' by {
      assert (b + (":" + y))[|b|] == ':';
    }
    assert a == s[..|a|] && b == s[..|b|];
    assert x == s[|a| + 1..] && y == s[|b| + 1..];
  }

  /** Key text is one-to-one: one subscription never has two leases under one key text. */
  lemma AckKeyInjective(sub: string, i: nat, a: nat, j: nat, b: nat)
    requires AckKey(sub, i, a) == AckKey(sub, j, b)
    ensures i == j && a == b
  {
    var x, y := Decimal(i) + (":" + Decimal(a)), Decimal(j) + (":" + Decimal(b));
    assert (":" + x) == AckKey(sub, i, a)[|sub|..] && (":" + y) == AckKey(sub, j, b)[|sub|..];
    assert x == (":" + x)[1..] && y == (":" + y)[1..];
    DigitsBeforeColon(Decimal(i), Decimal(a), Decimal(j), Decimal(b));
    DecimalInjective(i, j);
    DecimalInjective(a, b);
  }

  lemma UuidInjective(m: nat, n: nat)
    requires Uuid(m) == Uuid(n)
    ensures m == n
  {
    assert Decimal(m) == Uuid(m)[5..] && Decimal(n) == Uuid(n)[5..];
    DecimalInjective(m, n);
  }

  /** A generated id is never the key text of an exactly-once lease. */
  lemma UuidIsNoAckKey(n: nat, sub: string, i: nat, a: nat)
    ensures Uuid(n) != AckKey(sub, i, a)
  {
    var k := AckKey(sub, i, a);
    assert k[|sub|] == ':';
    assert forall p :: 0 <= p < |Uuid(n)| ==> Uuid(n)[p] != ':';
  }

  // ----- Backoff and deadlines -----

  function NormalizeAckDeadline(seconds: u32): (r: nat)
    ensures 10 <= r <= 600
  {
    Clamp(seconds, 10, 600)
  }

  function Pow2(n: nat): (r: nat)
    ensures r >= 1
  {
    if n == 0 then 1 else 2 * Pow2(n - 1)
  }

  function SaturatingMul(a: u32, b: nat): (r: u32) {
    Min(a * b, U32_MAX)
  }

  /** `backoff_seconds`: 32-bit, saturating; the final clamp would panic if its bounds crossed. */
  function BackoffSeconds(retry: Option<RetrySpec>, attempt: nat): u32 {
    var minB: u32 := match retry case Some(r) => r.minimumBackoff case None => 10;
    var maxB: u32 := match retry case Some(r) => Max(r.maximumBackoff, r.minimumBackoff) case None => 600;
    if maxB == 0 then 0
    else
      var exp := Min(Max(attempt - 1, 0), 10);
      var delay := SaturatingMul(minB, Pow2(Min(exp, 16)));
      Clamp(delay, minB, Max(maxB, 1))
  }

  function MinBackoff(retry: Option<RetrySpec>): nat {
    match retry case Some(r) => r.minimumBackoff case None => 10
  }

  /** The effective upper bound: the larger of the two configured bounds. */
  function MaxBackoff(retry: Option<RetrySpec>): nat {
    match retry case Some(r) => Max(r.maximumBackoff, r.minimumBackoff) case None => 600
  }

  lemma {:induction false} Pow2Monotone(m: nat, n: nat)
    requires m <= n
    ensures Pow2(m) <= Pow2(n)
    decreases n
  {
    if m < n {
      Pow2Monotone(m, n - 1);
    }
  }

  lemma ProductMonotone(a: nat, p: nat, q: nat)
    requires p <= q
    ensures a * p <= a * q
  {
  }

  /** Saturation and clamping never show: the delay is the capped power of two of the unbounded
      formula, between the two bounds. */
  lemma BackoffIsCappedExponential(retry: Option<RetrySpec>, attempt: nat)
    requires attempt >= 1
    ensures BackoffSeconds(retry, attempt)
         == Min(MaxBackoff(retry), MinBackoff(retry) * Pow2(Min(attempt - 1, 10)))
    ensures MinBackoff(retry) <= BackoffSeconds(retry, attempt) <= MaxBackoff(retry)
  {
    ProductMonotone(MinBackoff(retry), 1, Pow2(Min(attempt - 1, 10)));
  }

  lemma BackoffMonotone(retry: Option<RetrySpec>, a: nat, b: nat)
    requires 1 <= a <= b
    ensures BackoffSeconds(retry, a) <= BackoffSeconds(retry, b)
  {
    BackoffIsCappedExponential(retry, a);
    BackoffIsCappedExponential(retry, b);
    Pow2Monotone(Min(a - 1, 10), Min(b - 1, 10));
    ProductMonotone(MinBackoff(retry), Pow2(Min(a - 1, 10)), Pow2(Min(b - 1, 10)));
  }

  lemma CapDoubles(most: nat, least: nat, power: nat)
    ensures Min(most, least * (2 * power)) == Min(2 * Min(most, least * power), most)
  {
    assert least * (2 * power) == 2 * (least * power);
  }

  /** The delays without powers: each attempt doubles the delay until the largest, ... */
  lemma BackoffDoubles(retry: Option<RetrySpec>, attempt: nat)
    requires 1 <= attempt <= 10
    ensures var longest := if retry.None? then 600 else Max(retry.value.maximumBackoff, retry.value.minimumBackoff);
            BackoffSeconds(retry, attempt + 1) == Min(2 * BackoffSeconds(retry, attempt), longest)
  {
    BackoffIsCappedExponential(retry, attempt);
    BackoffIsCappedExponential(retry, attempt + 1);
    CapDoubles(MaxBackoff(retry), MinBackoff(retry), Pow2(attempt - 1));
  }

  /** ... the first is the smallest, 10 seconds without a policy, and from the eleventh on it stays. */
  lemma BackoffStartsAndStays(retry: Option<RetrySpec>, attempt: nat)
    requires attempt >= 11
    ensures BackoffSeconds(retry, 1) == if retry.None? then 10 else retry.value.minimumBackoff
    ensures BackoffSeconds(retry, attempt) == BackoffSeconds(retry, 11)
  {
    BackoffIsCappedExponential(retry, 1);
    BackoffIsCappedExponential(retry, 11);
    BackoffIsCappedExponential(retry, attempt);
  }

  // ----- The update mask -----

  datatype Field = AckDeadline | Labels | Ordering | ExactlyOnce | DeadLetter | Retry | Push | Other

  function FieldNamed(path: string): Field {
    if path == "ack_deadline_seconds" || path == "ackDeadlineSeconds" then AckDeadline
    else if path == "labels" then Labels
    else if path == "enable_message_ordering" || path == "enableMessageOrdering" then Ordering
    else if path == "enable_exactly_once_delivery" || path == "enableExactlyOnceDelivery" then ExactlyOnce
    else if path == "dead_letter_policy" || path == "deadLetterPolicy" then DeadLetter
    else if path == "retry_policy" || path == "retryPolicy" then Retry
    else if path == "push_config" || path == "pushConfig" then Push
    else Other
  }

  function SetField(s: SubscriptionSpec, incoming: SubscriptionSpec, f: Field): SubscriptionSpec {
    match f
    case AckDeadline => s.(ackDeadlineSeconds := incoming.ackDeadlineSeconds)
    case Labels => s.(labels := incoming.labels)
    case Ordering => s.(ordering := incoming.ordering)
    case ExactlyOnce => s.(exactlyOnce := incoming.exactlyOnce)
    case DeadLetter => s.(deadLetter := incoming.deadLetter)
    case Retry => s.(retry := incoming.retry)
    case Push => s.(pushEndpoint := incoming.pushEndpoint, pushAttributes := incoming.pushAttributes)
    case Other => s
  }

  predicate Everything(mask: seq<string>) {
    mask == [] || "*" in mask
  }

  function Image<A, B(==)>(f: A -> B, s: seq<A>): set<B> {
    set k | 0 <= k < |s| :: f(s[k])
  }

  function FieldsOf(mask: seq<string>): set<Field> {
    Image(FieldNamed, mask)
  }

  /** The mask is empty, has a star, or names a field by one of its two spellings. */
  predicate Asks(mask: seq<string>, snake: string, camel: string) {
    mask == [] || "*" in mask || snake in mask || camel in mask
  }

  /** What an update means, field by field: the incoming value if the mask asks for it, otherwise the
      old one. Name, topic and filter never change. */
  function Updated(old_: SubscriptionSpec, incoming: SubscriptionSpec, mask: seq<string>): SubscriptionSpec {
    var push := if Asks(mask, "push_config", "pushConfig") then incoming else old_;
    SubscriptionSpec(
      old_.name,
      old_.topic,
      (if Asks(mask, "ack_deadline_seconds", "ackDeadlineSeconds") then incoming else old_).ackDeadlineSeconds,
      (if Asks(mask, "labels", "labels") then incoming else old_).labels,
      (if Asks(mask, "enable_message_ordering", "enableMessageOrdering") then incoming else old_).ordering,
      (if Asks(mask, "enable_exactly_once_delivery", "enableExactlyOnceDelivery") then incoming else old_).exactlyOnce,
      (if Asks(mask, "dead_letter_policy", "deadLetterPolicy") then incoming else old_).deadLetter,
      (if Asks(mask, "retry_policy", "retryPolicy") then incoming else old_).retry,
      push.pushEndpoint,
      push.pushAttributes,
      old_.filter)
  }

  /** The named fields have the incoming values and the others the old ones: the plain settings, */
  ghost predicate SettingsUpdated(s: SubscriptionSpec, old_: SubscriptionSpec, incoming: SubscriptionSpec,
                                  named: set<Field>) {
    && s.name == old_.name && s.topic == old_.topic && s.filter == old_.filter
    && s.ackDeadlineSeconds == (if AckDeadline in named then incoming else old_).ackDeadlineSeconds
    && s.labels == (if Labels in named then incoming else old_).labels
    && s.ordering == (if Ordering in named then incoming else old_).ordering
    && s.exactlyOnce == (if ExactlyOnce in named then incoming else old_).exactlyOnce
  }

  /** ... and the policies. */
  ghost predicate PoliciesUpdated(s: SubscriptionSpec, old_: SubscriptionSpec, incoming: SubscriptionSpec,
                                  named: set<Field>) {
    && s.deadLetter == (if DeadLetter in named then incoming else old_).deadLetter
    && s.retry == (if Retry in named then incoming else old_).retry
    && s.pushEndpoint == (if Push in named then incoming else old_).pushEndpoint
    && s.pushAttributes == (if Push in named then incoming else old_).pushAttributes
  }

  ghost predicate PartlyUpdated(s: SubscriptionSpec, old_: SubscriptionSpec, incoming: SubscriptionSpec,
                                named: set<Field>) {
    SettingsUpdated(s, old_, incoming, named) && PoliciesUpdated(s, old_, incoming, named)
  }

  lemma ImageOneMore<A, B>(f: A -> B, s: seq<A>, k: nat)
    requires k < |s|
    ensures Image(f, s[..k + 1]) == Image(f, s[..k]) + {f(s[k])}
  {
    var more, less := s[..k + 1], s[..k];
    forall b | b in Image(f, less) ensures b in Image(f, more) {
      var p :| 0 <= p < k && f(less[p]) == b;
      assert f(more[p]) == b;
    }
    assert f(more[k]) in Image(f, more);
  }

  lemma OneMoreSetting(s: SubscriptionSpec, old_: SubscriptionSpec, incoming: SubscriptionSpec,
                       named: set<Field>, f: Field)
    requires SettingsUpdated(s, old_, incoming, named)
    ensures SettingsUpdated(SetField(s, incoming, f), old_, incoming, named + {f})
  {
  }

  lemma OneMorePolicy(s: SubscriptionSpec, old_: SubscriptionSpec, incoming: SubscriptionSpec,
                      named: set<Field>, f: Field)
    requires PoliciesUpdated(s, old_, incoming, named)
    ensures PoliciesUpdated(SetField(s, incoming, f), old_, incoming, named + {f})
  {
  }

  /** A field is named exactly by its two spellings. */
  predicate Spelled(mask: seq<string>, f: Field, snake: string, camel: string) {
    f in FieldsOf(mask) <==> snake in mask || camel in mask
  }

  lemma SpelledIn(mask: seq<string>, f: Field, snake: string, camel: string)
    requires FieldNamed(snake) == FieldNamed(camel) == f
    requires forall path :: path in mask && FieldNamed(path) == f ==> path == snake || path == camel
    ensures Spelled(mask, f, snake, camel)
  {
    forall path | path in mask ensures FieldNamed(path) in FieldsOf(mask) {
      var k :| 0 <= k < |mask| && mask[k] == path;
      assert FieldNamed(mask[k]) in FieldsOf(mask);
    }
    if f in FieldsOf(mask) {
      var k :| 0 <= k < |mask| && FieldNamed(mask[k]) == f;
      assert mask[k] in mask;
    }
  }

  lemma SettingSpellings(mask: seq<string>)
    ensures Spelled(mask, AckDeadline, "ack_deadline_seconds", "ackDeadlineSeconds")
    ensures Spelled(mask, Labels, "labels", "labels")
    ensures Spelled(mask, Ordering, "enable_message_ordering", "enableMessageOrdering")
    ensures Spelled(mask, ExactlyOnce, "enable_exactly_once_delivery", "enableExactlyOnceDelivery")
  {
    SpelledIn(mask, AckDeadline, "ack_deadline_seconds", "ackDeadlineSeconds");
    SpelledIn(mask, Labels, "labels", "labels");
    SpelledIn(mask, Ordering, "enable_message_ordering", "enableMessageOrdering");
    SpelledIn(mask, ExactlyOnce, "enable_exactly_once_delivery", "enableExactlyOnceDelivery");
  }

  lemma PolicySpellings(mask: seq<string>)
    ensures Spelled(mask, DeadLetter, "dead_letter_policy", "deadLetterPolicy")
    ensures Spelled(mask, Retry, "retry_policy", "retryPolicy")
  {
    SpelledIn(mask, DeadLetter, "dead_letter_policy", "deadLetterPolicy");
    SpelledIn(mask, Retry, "retry_policy", "retryPolicy");
  }

  lemma PushSpelling(mask: seq<string>)
    ensures Spelled(mask, Push, "push_config", "pushConfig")
  {
    SpelledIn(mask, Push, "push_config", "pushConfig");
  }

  method ApplyMask(old_: SubscriptionSpec, incoming: SubscriptionSpec, mask: seq<string>)
    returns (s: SubscriptionSpec)
    ensures s == Updated(old_, incoming, mask)
  {
    if Everything(mask) {
      return old_.(ackDeadlineSeconds := incoming.ackDeadlineSeconds, labels := incoming.labels,
                   ordering := incoming.ordering, exactlyOnce := incoming.exactlyOnce,
                   deadLetter := incoming.deadLetter, retry := incoming.retry,
                   pushEndpoint := incoming.pushEndpoint, pushAttributes := incoming.pushAttributes);
    }
    s := old_;
    for k := 0 to |mask|
      invariant PartlyUpdated(s, old_, incoming, FieldsOf(mask[..k]))
    {
      ImageOneMore(FieldNamed, mask, k);
      OneMoreSetting(s, old_, incoming, FieldsOf(mask[..k]), FieldNamed(mask[k]));
      OneMorePolicy(s, old_, incoming, FieldsOf(mask[..k]), FieldNamed(mask[k]));
      s := SetField(s, incoming, FieldNamed(mask[k]));
    }
    assert mask[..|mask|] == mask;
    SettingSpellings(mask);
    PolicySpellings(mask);
    PushSpelling(mask);
  }
}
