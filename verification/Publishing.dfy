/** Publishing to one topic (`publish` of src/memory.rs): the append loop with its table of
    client ids, and what deduplication guarantees. */
module Publishing {
  import opened Model
  import Filter

  /** What lies outside the model: whether a payload satisfies a schema, and the CloudEvents
      attributes found in a message. */
  datatype Env = Env(
    valid: (string, Bytes) -> bool,
    context: (string, Filter.Attributes, Bytes) -> map<string, string>)

  /** The attributes copied from a message that is a CloudEvent (src/cloudevents.rs). */
  const CONTEXT_KEYS: set<string> := {"ce-id", "ce-source", "ce-type", "ce-specversion", "ce-subject"}
  const TOPIC_KEY := "relay.topic"

  /** What follows the last slash, or all of it. */
  function Leaf(topic: string): string {
    if topic == "" || topic[|topic| - 1] == '/' then "" else Leaf(topic[..|topic| - 1]) + [topic[|topic| - 1]]
  }

  function Enrich(env: Env, topic: string, m: NewMessage): NewMessage {
    var found := env.context(topic, m.attributes, m.data);
    m.(attributes := (map k | k in found && k in CONTEXT_KEYS :: found[k])[TOPIC_KEY := Leaf(topic)] + m.attributes)
  }

  function ClientId(m: NewMessage): string {
    if m.messageId != "" then m.messageId else KeyOf(m.attributes)
  }

  /** The value of the attribute that deduplicates, empty if there is none. */
  function KeyOf(attributes: Filter.Attributes): string {
    if "idempotency_key" in attributes then attributes["idempotency_key"] else ""
  }

  lemma {:induction false} LeafIsLastPart(topic: string) returns (front: string)
    ensures topic == front + Leaf(topic) && '/' !in Leaf(topic)
    ensures front == "" || front[|front| - 1] == '/'
  {
    front := topic;
    if topic != "" && topic[|topic| - 1] != '/' {
      front := LeafIsLastPart(topic[..|topic| - 1]);
      assert topic == topic[..|topic| - 1] + [topic[|topic| - 1]];
    }
  }

  /** The attributes `all` of a stored message: those of the published one, unchanged, and, where it
      has none of that name, the name of the topic and what was found of the five of a CloudEvent. */
  ghost predicate AttributesOf(env: Env, topic: string, m: NewMessage, all: Filter.Attributes) {
    var found := env.context(topic, m.attributes, m.data);
    && all.Keys == m.attributes.Keys + {"relay.topic"}
                   + found.Keys * {"ce-id", "ce-source", "ce-type", "ce-specversion", "ce-subject"}
    && (forall k :: k in m.attributes ==> k in all && all[k] == m.attributes[k])
    && (forall k :: k in all && k !in m.attributes && k != "relay.topic" ==> k in found && all[k] == found[k])
    && ("relay.topic" !in m.attributes ==> all["relay.topic"] == Leaf(topic))
  }

  /** Enrichment only adds attributes, and never the one that deduplicates. */
  lemma EnrichOnlyAdds(env: Env, topic: string, m: NewMessage)
    ensures var e := Enrich(env, topic, m);
            && ClientId(e) == ClientId(m) && e == m.(attributes := e.attributes)
            && AttributesOf(env, topic, m, e.attributes)
            && KeyOf(e.attributes) == KeyOf(m.attributes)
  {
    assert "idempotency_key"[0] != TOPIC_KEY[0];
    assert "ce-id"[0] != TOPIC_KEY[0] && "ce-source"[0] != TOPIC_KEY[0] && "ce-type"[0] != TOPIC_KEY[0];
    assert "ce-specversion"[0] != TOPIC_KEY[0] && "ce-subject"[0] != TOPIC_KEY[0];
  }

  function Stored(m: NewMessage, id: string, now: Time): Message {
    Message(id, m.data, m.attributes, m.orderingKey, now)
  }

  /** The topic, the count of generated ids and the reply as a publish proceeds. */
  datatype Append = Append(topic: Topic, minted: nat, ids: seq<string>)

  function AppendOne(env: Env, name: string, a: Append, m: NewMessage, now: Time): Append {
    var e := Enrich(env, name, m);
    var c := ClientId(e);
    if c != "" && c in a.topic.seenIds then a.(ids := a.ids + [a.topic.seenIds[c]])
    else
      var id := if c == "" then Uuid(a.minted) else c;
      Append(a.topic.(messages := a.topic.messages + [Stored(e, id, now)],
                      seenIds := if c == "" then a.topic.seenIds else a.topic.seenIds[c := id]),
             if c == "" then a.minted + 1 else a.minted,
             a.ids + [id])
  }

  function AppendAll(env: Env, name: string, a: Append, batch: seq<NewMessage>, now: Time): Append {
    if batch == [] then a
    else AppendOne(env, name, AppendAll(env, name, a, batch[..|batch| - 1], now), batch[|batch| - 1], now)
  }

  lemma SingleMessage(env: Env, topic: string, a: Append, m: NewMessage, now: Time)
    ensures AppendAll(env, topic, a, [m], now) == AppendOne(env, topic, a, m, now)
  {
    assert [m][..0] == [];
  }

  /** Two batches in a row and their concatenation come to exactly the same. */
  lemma {:induction false} PublishConcat(env: Env, name: string, a: Append, b: seq<NewMessage>,
                                         c: seq<NewMessage>, now: Time)
    ensures AppendAll(env, name, a, b + c, now) == AppendAll(env, name, AppendAll(env, name, a, b, now), c, now)
  {
    if c == [] {
      assert b + c == b;
    } else {
      PublishConcat(env, name, a, b, c[..|c| - 1], now);
      assert (b + c)[..|b + c| - 1] == b + c[..|c| - 1];
    }
  }

  /** The ids already in the reply have no influence. */
  lemma {:induction false} ReplyOffset(env: Env, name: string, a: Append, batch: seq<NewMessage>, now: Time)
    ensures AppendAll(env, name, a, batch, now)
         == (var b := AppendAll(env, name, a.(ids := []), batch, now); b.(ids := a.ids + b.ids))
  {
    if batch != [] {
      ReplyOffset(env, name, a, batch[..|batch| - 1], now);
    }
  }

  /** The same messages, apart from the times at which they were published. */
  ghost predicate TimesAside(a: seq<Message>, b: seq<Message>) {
    |a| == |b| && forall i :: 0 <= i < |a| ==> a[i] == b[i].(publishedAt := a[i].publishedAt)
  }

  ghost predicate SameTopic(a: Topic, b: Topic) {
    a == b.(messages := a.messages) && TimesAside(a.messages, b.messages)
  }

  ghost predicate SameAppend(a: Append, b: Append) {
    SameTopic(a.topic, b.topic) && a.minted == b.minted && a.ids == b.ids
  }

  lemma AppendOneAnyTime(env: Env, name: string, a: Append, b: Append, m: NewMessage, now: Time, then_: Time)
    requires SameAppend(a, b)
    ensures SameAppend(AppendOne(env, name, a, m, now), AppendOne(env, name, b, m, then_))
  {
  }

  /** The time of a publish decides nothing but the times of the messages. */
  lemma {:induction false} AppendAnyTime(env: Env, name: string, a: Append, b: Append, batch: seq<NewMessage>,
                                         now: Time, then_: Time)
    requires SameAppend(a, b)
    ensures SameAppend(AppendAll(env, name, a, batch, now), AppendAll(env, name, b, batch, then_))
  {
    if batch != [] {
      var front := batch[..|batch| - 1];
      AppendAnyTime(env, name, a, b, front, now, then_);
      AppendOneAnyTime(env, name, AppendAll(env, name, a, front, now), AppendAll(env, name, b, front, then_),
                       batch[|batch| - 1], now, then_);
    }
  }

  // ----- The invariant of a topic -----

  function Count(log: seq<Message>, id: string): nat {
    if log == [] then 0
    else
      var last := if log[|log| - 1].id == id then 1 else 0;
      Count(log[..|log| - 1], id) + last
  }

  /** One for an id that the table lists. */
  function Listed(t: Topic, id: string): nat {
    if id in t.seenIds then 1 else 0
  }

  /** The id has been generated, by one of the first `minted` draws. */
  ghost predicate Drawn(id: string, minted: nat) {
    exists n: nat :: n < minted && id == Uuid(n)
  }

  /** A listed id is in the log once, and once more at most if it has also been generated. */
  ghost predicate IdRight(t: Topic, minted: nat, id: string) {
    Listed(t, id) <= Count(t.messages, id) <= Listed(t, id) + if Drawn(id, minted) then 1 else 0
  }

  /** The table lists every client id under itself, and the log has as many messages as that calls for. */
  ghost predicate TableRight(t: Topic, minted: nat) {
    && (forall c :: c in t.seenIds ==> c != "" && t.seenIds[c] == c)
    && (forall id :: IdRight(t, minted, id))
  }

  ghost predicate Chronological(log: seq<Message>, now: Time) {
    && (forall i :: 0 <= i < |log| ==> log[i].publishedAt <= now)
    && (forall i, j :: 0 <= i < j < |log| ==> log[i].publishedAt <= log[j].publishedAt)
  }

  ghost predicate TopicSound(t: Topic, minted: nat, now: Time) {
    TableRight(t, minted) && Chronological(t.messages, now)
  }

  lemma CountAppend(log: seq<Message>, m: Message)
    ensures forall c :: Count(log + [m], c) == Count(log, c) + if m.id == c then 1 else 0
  {
    assert (log + [m])[..|log|] == log;
  }

  lemma EmptyTopicSound(schemaName: string, minted: nat, now: Time)
    ensures TopicSound(Topic(schemaName, [], map[]), minted, now)
  {
  }

  /** Time and further draws do no harm. */
  lemma TopicSoundLater(t: Topic, minted: nat, now: Time, more: nat, later: Time)
    requires TopicSound(t, minted, now) && minted <= more && now <= later
    ensures TopicSound(t, more, later)
  {
    forall id ensures IdRight(t, more, id) {
      assert IdRight(t, minted, id);
    }
  }

  lemma NotDrawnYet(n: nat)
    ensures !Drawn(Uuid(n), n) && Drawn(Uuid(n), n + 1)
  {
    if m: nat :| m < n && Uuid(n) == Uuid(m) {
      UuidInjective(m, n);
      assert false;
    }
    assert n < n + 1;
  }

  /** A message under a newly drawn id. */
  lemma DrawnAppended(t: Topic, minted: nat, m: Message, now: Time)
    requires TopicSound(t, minted, now) && m.id == Uuid(minted) && m.publishedAt == now
    ensures TopicSound(t.(messages := t.messages + [m]), minted + 1, now)
  {
    CountAppend(t.messages, m);
    var u, more := t.(messages := t.messages + [m]), minted + 1;
    forall id ensures IdRight(u, more, id) {
      assert IdRight(t, minted, id);
      NotDrawnYet(minted);
    }
  }

  /** A message under a client id, which is then listed. */
  lemma ListedAppended(t: Topic, minted: nat, m: Message, now: Time)
    requires TopicSound(t, minted, now) && m.id != "" && m.id !in t.seenIds && m.publishedAt == now
    ensures TopicSound(t.(messages := t.messages + [m], seenIds := t.seenIds[m.id := m.id]), minted, now)
  {
    CountAppend(t.messages, m);
    var u := t.(messages := t.messages + [m], seenIds := t.seenIds[m.id := m.id]);
    forall id ensures IdRight(u, minted, id) {
      assert IdRight(t, minted, id);
    }
  }

  lemma AppendOneSound(env: Env, name: string, a: Append, m: NewMessage, now: Time)
    requires TopicSound(a.topic, a.minted, now)
    ensures var b := AppendOne(env, name, a, m, now);
            && TopicSound(b.topic, b.minted, now) && a.topic.messages <= b.topic.messages
            && a.minted <= b.minted && |b.ids| == |a.ids| + 1
            && b.topic.schemaName == a.topic.schemaName
            && (forall c :: c in a.topic.seenIds ==> c in b.topic.seenIds && b.topic.seenIds[c] == a.topic.seenIds[c])
  {
    var e := Enrich(env, name, m);
    var c := ClientId(e);
    if c == "" {
      DrawnAppended(a.topic, a.minted, Stored(e, Uuid(a.minted), now), now);
    } else if c !in a.topic.seenIds {
      ListedAppended(a.topic, a.minted, Stored(e, c, now), now);
    }
  }

  lemma {:induction false} AppendAllSound(env: Env, name: string, a: Append, batch: seq<NewMessage>, now: Time)
    requires TopicSound(a.topic, a.minted, now)
    ensures var b := AppendAll(env, name, a, batch, now);
            && TopicSound(b.topic, b.minted, now) && a.topic.messages <= b.topic.messages
            && a.minted <= b.minted && |b.ids| == |a.ids| + |batch|
            && b.topic.schemaName == a.topic.schemaName
            && (forall c :: c in a.topic.seenIds ==> c in b.topic.seenIds && b.topic.seenIds[c] == a.topic.seenIds[c])
  {
    if batch != [] {
      AppendAllSound(env, name, a, batch[..|batch| - 1], now);
      AppendOneSound(env, name, AppendAll(env, name, a, batch[..|batch| - 1], now), batch[|batch| - 1], now);
    }
  }

  // ----- Generated ids -----

  /** The log has a message under the id that the table does not account for. */
  predicate GeneratedHere(t: Topic, id: string) {
    Count(t.messages, id) > Listed(t, id)
  }

  /** Exactly a message without a client id makes its generated id one that was generated into this
      log, whatever clients have published under that id before. */
  lemma OneGenerates(env: Env, name: string, a: Append, m: NewMessage, now: Time, id: string)
    requires TopicSound(a.topic, a.minted, now)
    ensures GeneratedHere(AppendOne(env, name, a, m, now).topic, id)
       <==> GeneratedHere(a.topic, id) || (ClientId(m) == "" && id == Uuid(a.minted))
  {
    EnrichOnlyAdds(env, name, m);
    var e := Enrich(env, name, m);
    assert IdRight(a.topic, a.minted, id);
    CountAppend(a.topic.messages, Stored(e, if ClientId(m) == "" then Uuid(a.minted) else ClientId(m), now));
    NotDrawnYet(a.minted);
  }

  /** After `n` messages of a batch: the ids generated here are those before and those of the reply. */
  ghost predicate GeneratedBy(a: Append, b: Append, batch: seq<NewMessage>, n: nat, id: string)
    requires n <= |batch| && |b.ids| == |a.ids| + n
  {
    GeneratedHere(b.topic, id)
    <==> GeneratedHere(a.topic, id) || exists j :: 0 <= j < n && ClientId(batch[j]) == "" && b.ids[|a.ids| + j] == id
  }

  lemma GeneratedOneMore(env: Env, name: string, a: Append, b: Append, batch: seq<NewMessage>, n: nat, now: Time,
                         id: string)
    requires n < |batch| && |b.ids| == |a.ids| + n && GeneratedBy(a, b, batch, n, id)
    requires TopicSound(b.topic, b.minted, now)
    ensures |AppendOne(env, name, b, batch[n], now).ids| == |a.ids| + n + 1
    ensures GeneratedBy(a, AppendOne(env, name, b, batch[n], now), batch, n + 1, id)
  {
    var d := AppendOne(env, name, b, batch[n], now);
    EnrichOnlyAdds(env, name, batch[n]);
    OneGenerates(env, name, b, batch[n], now, id);
    assert b.ids <= d.ids;
    assert ClientId(batch[n]) == "" ==> d.ids[|a.ids| + n] == Uuid(b.minted);
    if ClientId(batch[n]) == "" && id == Uuid(b.minted) {
      assert 0 <= n < n + 1 && d.ids[|a.ids| + n] == id;
    }
  }

  /** Over a batch: exactly the ids that the reply gives to messages without a client id. */
  lemma {:induction false} BatchGenerates(env: Env, name: string, a: Append, batch: seq<NewMessage>, n: nat,
                                          now: Time, id: string)
    requires n <= |batch| && TopicSound(a.topic, a.minted, now)
    ensures |AppendAll(env, name, a, batch[..n], now).ids| == |a.ids| + n
    ensures GeneratedBy(a, AppendAll(env, name, a, batch[..n], now), batch, n, id)
  {
    if n == 0 {
      assert batch[..0] == [];
    } else {
      var k := n - 1;
      BatchGenerates(env, name, a, batch, k, now, id);
      AppendAllSound(env, name, a, batch[..k], now);
      AppendOneMore(env, name, a, batch, k, now);
      GeneratedOneMore(env, name, a, AppendAll(env, name, a, batch[..k], now), batch, k, now, id);
    }
  }

  // ----- Deduplication -----

  /** Message `k` of the batch is new: it has no client id, or one that is neither in the table
      nor on an earlier message of the batch. */
  predicate IsNew(table: map<string, string>, batch: seq<NewMessage>, k: nat)
    requires k < |batch|
  {
    var c := ClientId(batch[k]);
    c == "" || (c !in table && forall j :: 0 <= j < k ==> ClientId(batch[j]) != c)
  }

  function NewOnes(table: map<string, string>, batch: seq<NewMessage>, n: nat): seq<nat>
    requires n <= |batch|
  {
    if n == 0 then []
    else NewOnes(table, batch, n - 1) + if IsNew(table, batch, n - 1) then [n - 1] else []
  }

  ghost predicate InOrderBelow(listed: seq<nat>, n: nat) {
    && (forall q :: 0 <= q < |listed| ==> listed[q] < n)
    && (forall p, q :: 0 <= p < q < |listed| ==> listed[p] < listed[q])
  }

  lemma OneMoreInOrder(listed: seq<nat>, n: nat)
    requires InOrderBelow(listed, n)
    ensures InOrderBelow(listed, n + 1) && InOrderBelow(listed + [n], n + 1) && n !in listed
  {
  }

  /** They are the new messages of the first `n`, in their order. */
  lemma {:induction false} NewOnesInOrder(table: map<string, string>, batch: seq<NewMessage>, n: nat)
    requires n <= |batch|
    ensures InOrderBelow(NewOnes(table, batch, n), n)
    ensures forall k :: 0 <= k < n ==> (k in NewOnes(table, batch, n) <==> IsNew(table, batch, k))
  {
    if n > 0 {
      NewOnesInOrder(table, batch, n - 1);
      OneMoreInOrder(NewOnes(table, batch, n - 1), n - 1);
    }
  }

  /** Log entry `m` has the payload, ordering key and attributes of input `x`, the time of the publish,
      and the client's id or a generated one. */
  ghost predicate StoredAs(env: Env, name: string, x: NewMessage, m: Message, now: Time) {
    && m.data == x.data && m.orderingKey == x.orderingKey && m.publishedAt == now
    && AttributesOf(env, name, x, m.attributes)
    && (if x.messageId != "" then m.id == x.messageId
        else if "idempotency_key" in x.attributes && x.attributes["idempotency_key"] != ""
        then m.id == x.attributes["idempotency_key"]
        else IsUuid(m.id))
  }

  /** The table has gained the client ids of the first `n` messages. */
  ghost predicate TableGrew(a: Append, b: Append, batch: seq<NewMessage>, n: nat)
    requires n <= |batch|
  {
    forall c :: c in b.topic.seenIds <==>
      c in a.topic.seenIds || (c != "" && exists j :: 0 <= j < n && ClientId(batch[j]) == c)
  }

  /** The log has grown by the messages of the batch listed, in that order. */
  ghost predicate LogGrew(env: Env, name: string, a: Append, b: Append, batch: seq<NewMessage>,
                          listed: seq<nat>, now: Time)
  {
    && |b.topic.messages| == |a.topic.messages| + |listed| && a.topic.messages <= b.topic.messages
    && (forall q :: 0 <= q < |listed| ==>
          listed[q] < |batch|
          && StoredAs(env, name, batch[listed[q]], b.topic.messages[|a.topic.messages| + q], now))
  }

  /** The reply names the first `n` messages: the client's id if there is one. */
  ghost predicate RepliesGrew(a: Append, b: Append, batch: seq<NewMessage>, n: nat)
    requires n <= |batch|
  {
    && |b.ids| == |a.ids| + n && a.ids <= b.ids
    && (forall j :: 0 <= j < n ==>
          if ClientId(batch[j]) == "" then IsUuid(b.ids[|a.ids| + j])
          else b.ids[|a.ids| + j] == ClientId(batch[j]))
  }

  /** A message that was stored is named in the reply by the id it was stored under. */
  ghost predicate StoredAreNamed(a: Append, b: Append, listed: seq<nat>) {
    && |b.topic.messages| == |a.topic.messages| + |listed|
    && (forall q :: 0 <= q < |listed| ==>
          |a.ids| + listed[q] < |b.ids| && b.ids[|a.ids| + listed[q]] == b.topic.messages[|a.topic.messages| + q].id)
  }

  lemma NamedOneMore(env: Env, name: string, a: Append, b: Append, m: NewMessage, listed: seq<nat>, n: nat, now: Time)
    requires StoredAreNamed(a, b, listed) && |b.ids| == |a.ids| + n
    ensures var d := AppendOne(env, name, b, m, now);
            var isNew := ClientId(m) == "" || ClientId(m) !in b.topic.seenIds;
            StoredAreNamed(a, d, listed + if isNew then [n] else [])
  {
    EnrichOnlyAdds(env, name, m);
  }

  /** After the first `n` messages of a batch: the table has their client ids, the log has grown
      by exactly the new ones in order, and the reply names every message, those stored by the id they
      were stored under. */
  ghost predicate Deduplicated(env: Env, name: string, a: Append, b: Append, batch: seq<NewMessage>,
                               n: nat, now: Time)
    requires n <= |batch|
  {
    && TableGrew(a, b, batch, n)
    && LogGrew(env, name, a, b, batch, NewOnes(a.topic.seenIds, batch, n), now)
    && RepliesGrew(a, b, batch, n)
    && StoredAreNamed(a, b, NewOnes(a.topic.seenIds, batch, n))
  }

  lemma NewIffUnlisted(a: Append, b: Append, batch: seq<NewMessage>, n: nat)
    requires n < |batch| && TableGrew(a, b, batch, n)
    ensures IsNew(a.topic.seenIds, batch, n) <==> ClientId(batch[n]) == "" || ClientId(batch[n]) !in b.topic.seenIds
  {
  }

  lemma LogOneMore(env: Env, name: string, a: Append, b: Append, batch: seq<NewMessage>,
                   listed: seq<nat>, n: nat, now: Time)
    requires n < |batch| && LogGrew(env, name, a, b, batch, listed, now)
    ensures var d := AppendOne(env, name, b, batch[n], now);
            var isNew := ClientId(batch[n]) == "" || ClientId(batch[n]) !in b.topic.seenIds;
            LogGrew(env, name, a, d, batch, listed + (if isNew then [n] else []), now)
  {
    EnrichOnlyAdds(env, name, batch[n]);
    var d := AppendOne(env, name, b, batch[n], now);
    forall q | 0 <= q < |listed|
      ensures StoredAs(env, name, batch[listed[q]], d.topic.messages[|a.topic.messages| + q], now)
    {
      assert d.topic.messages[|a.topic.messages| + q] == b.topic.messages[|a.topic.messages| + q];
    }
  }

  lemma ReplyOneMore(env: Env, name: string, a: Append, b: Append, batch: seq<NewMessage>, n: nat, now: Time)
    requires n < |batch| && RepliesGrew(a, b, batch, n) && TableRight(b.topic, b.minted)
    ensures RepliesGrew(a, AppendOne(env, name, b, batch[n], now), batch, n + 1)
  {
    EnrichOnlyAdds(env, name, batch[n]);
    var d := AppendOne(env, name, b, batch[n], now);
    assert d.ids == b.ids + [d.ids[|b.ids|]];
  }

  lemma DeduplicatedOneMore(env: Env, name: string, a: Append, b: Append, batch: seq<NewMessage>,
                            n: nat, now: Time)
    requires n < |batch| && Deduplicated(env, name, a, b, batch, n, now) && TableRight(b.topic, b.minted)
    ensures Deduplicated(env, name, a, AppendOne(env, name, b, batch[n], now), batch, n + 1, now)
  {
    var listed := NewOnes(a.topic.seenIds, batch, n);
    NewIffUnlisted(a, b, batch, n);
    TableOneMore(a, b, batch, n, env, name, now);
    LogOneMore(env, name, a, b, batch, listed, n, now);
    ReplyOneMore(env, name, a, b, batch, n, now);
    NamedOneMore(env, name, a, b, batch[n], listed, n, now);
  }

  lemma TableOneMore(a: Append, b: Append, batch: seq<NewMessage>, n: nat, env: Env, name: string, now: Time)
    requires n < |batch| && TableGrew(a, b, batch, n)
    ensures TableGrew(a, AppendOne(env, name, b, batch[n], now), batch, n + 1)
  {
    EnrichOnlyAdds(env, name, batch[n]);
    var d := AppendOne(env, name, b, batch[n], now);
    forall c
      ensures c in d.topic.seenIds <==>
        c in a.topic.seenIds || (c != "" && exists j :: 0 <= j < n + 1 && ClientId(batch[j]) == c)
    {
      if c == ClientId(batch[n]) {
        assert 0 <= n < n + 1 && ClientId(batch[n]) == c;
      }
    }
  }

  lemma DeduplicatedAfter(env: Env, name: string, a: Append, b: Append, batch: seq<NewMessage>,
                          n: nat, now: Time, d: Append)
    requires n < |batch| && Deduplicated(env, name, a, b, batch, n, now) && TopicSound(b.topic, b.minted, now)
    requires d == AppendOne(env, name, b, batch[n], now)
    ensures Deduplicated(env, name, a, d, batch, n + 1, now)
  {
    DeduplicatedOneMore(env, name, a, b, batch, n, now);
  }

  /** The last message of a longer prefix is appended last. */
  lemma AppendOneMore(env: Env, name: string, a: Append, batch: seq<NewMessage>, k: nat, now: Time)
    requires k < |batch|
    ensures AppendAll(env, name, a, batch[..k + 1], now)
         == AppendOne(env, name, AppendAll(env, name, a, batch[..k], now), batch[k], now)
  {
    assert batch[..k + 1][..k] == batch[..k];
  }

  lemma NothingYet(env: Env, name: string, a: Append, batch: seq<NewMessage>, now: Time)
    ensures Deduplicated(env, name, a, AppendAll(env, name, a, batch[..0], now), batch, 0, now)
  {
    assert batch[..0] == [];
  }

  /** Deduplication: of a batch exactly the messages without a client id and the first bearers of
      a client id not seen before are appended, in order; the reply has one id per message, the
      client's own if it gave one; the old log stays as it was. */
  lemma {:induction false} PublishDeduplicates(env: Env, name: string, a: Append, batch: seq<NewMessage>,
                                               n: nat, now: Time)
    requires n <= |batch| && TopicSound(a.topic, a.minted, now)
    ensures Deduplicated(env, name, a, AppendAll(env, name, a, batch[..n], now), batch, n, now)
  {
    if n == 0 {
      NothingYet(env, name, a, batch, now);
    } else {
      var k := n - 1;
      PublishDeduplicates(env, name, a, batch, k, now);
      AppendAllSound(env, name, a, batch[..k], now);
      AppendOneMore(env, name, a, batch, k, now);
      var before, after := AppendAll(env, name, a, batch[..k], now), AppendAll(env, name, a, batch[..k + 1], now);
      DeduplicatedAfter(env, name, a, before, batch, k, now, after);
    }
  }

  /** A message whose client id is in the table adds nothing but that id to the reply. */
  lemma SeenAppendsNoMessage(env: Env, name: string, a: Append, m: NewMessage, now: Time)
    requires TableRight(a.topic, a.minted) && ClientId(m) != "" && ClientId(m) in a.topic.seenIds
    ensures AppendOne(env, name, a, m, now) == a.(ids := a.ids + [ClientId(m)])
  {
    EnrichOnlyAdds(env, name, m);
  }

  function ClientIds(batch: seq<NewMessage>): (ids: seq<string>)
    ensures |ids| == |batch| && forall k :: 0 <= k < |batch| ==> ids[k] == ClientId(batch[k])
  {
    seq(|batch|, k requires 0 <= k < |batch| => ClientId(batch[k]))
  }

  predicate AllFromClients(batch: seq<NewMessage>) {
    forall k :: 0 <= k < |batch| ==> ClientId(batch[k]) != ""
  }

  predicate AllSeen(table: map<string, string>, batch: seq<NewMessage>) {
    forall k :: 0 <= k < |batch| ==> ClientId(batch[k]) in table
  }

  lemma ClientIdsOneMore(ids: seq<string>, batch: seq<NewMessage>)
    requires batch != []
    ensures ids + ClientIds(batch) == ids + ClientIds(batch[..|batch| - 1]) + [ClientId(batch[|batch| - 1])]
  {
    assert ClientIds(batch) == ClientIds(batch[..|batch| - 1]) + [ClientId(batch[|batch| - 1])];
  }

  lemma {:induction false} SeenAppendsNothing(env: Env, name: string, a: Append, batch: seq<NewMessage>, now: Time)
    requires TableRight(a.topic, a.minted) && AllFromClients(batch) && AllSeen(a.topic.seenIds, batch)
    ensures AppendAll(env, name, a, batch, now) == a.(ids := a.ids + ClientIds(batch))
  {
    if batch != [] {
      var front, last := batch[..|batch| - 1], batch[|batch| - 1];
      SeenAppendsNothing(env, name, a, front, now);
      SeenAppendsNoMessage(env, name, AppendAll(env, name, a, front, now), last, now);
      ClientIdsOneMore(a.ids, batch);
    }
  }

  lemma FirstReply(env: Env, name: string, a: Append, batch: seq<NewMessage>, now: Time)
    requires TopicSound(a.topic, a.minted, now) && AllFromClients(batch) && a.ids == []
    ensures AppendAll(env, name, a, batch, now).ids == ClientIds(batch)
    ensures AllSeen(AppendAll(env, name, a, batch, now).topic.seenIds, batch)
  {
    PublishDeduplicates(env, name, a, batch, |batch|, now);
    assert batch[..|batch|] == batch;
    var b := AppendAll(env, name, a, batch, now);
    assert RepliesGrew(a, b, batch, |batch|) && TableGrew(a, b, batch, |batch|);
    assert forall k :: 0 <= k < |batch| ==> b.ids[|a.ids| + k] == ClientIds(batch)[k];
  }

  /** Publishing an all-client-id batch a second time, at any later time and after any further
      growth of the table, appends nothing and returns the same ids. */
  lemma RepublishChangesNothing(env: Env, name: string, a: Append, batch: seq<NewMessage>, now: Time,
                                later: Append, then_: Time)
    requires TopicSound(a.topic, a.minted, now) && TopicSound(later.topic, later.minted, then_)
    requires AllFromClients(batch) && a.ids == [] && later.ids == []
    requires AppendAll(env, name, a, batch, now).topic.seenIds.Keys <= later.topic.seenIds.Keys
    ensures AppendAll(env, name, later, batch, then_)
         == later.(ids := AppendAll(env, name, a, batch, now).ids)
  {
    FirstReply(env, name, a, batch, now);
    SeenAppendsNothing(env, name, later, batch, then_);
    assert [] + ClientIds(batch) == ClientIds(batch);
  }
}
