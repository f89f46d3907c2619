/** The actions log by idempotency attribute: when the message under a key is the only one that
    carries the key, and when it is not. */
module ActionKeys {
  import opened Basics
  import opened Model
  import opened Lifecycle
  import opened Consumer
  import opened Pulling
  import opened PullResults
  import opened Publishing
  import opened Broker
  import opened Guarantees
  import opened Continuity
  import opened ActionGateway

  /** How many messages carry the key as their attribute. */
  function KeyedCount(log: seq<Message>, key: string): nat {
    if log == [] then 0
    else
      var last := if KeyOf(log[|log| - 1].attributes) == key then 1 else 0;
      KeyedCount(log[..|log| - 1], key) + last
  }

  /** As many messages carry the key as the table lists under it: one or none. */
  ghost predicate Keyed(log: seq<Message>, table: map<string, string>, key: string) {
    KeyedCount(log, key) == if key in table then 1 else 0
  }

  /** A new message whose client id is the key if and only if it carries the key: it has no message
      id of its own besides the key, or has nothing to do with the key. */
  predicate Apart(m: NewMessage, key: string) {
    ClientId(m) == key <==> KeyOf(m.attributes) == key
  }

  /** The operation neither publishes a message to the topic that breaks the rule, nor lets dead
      letters into the topic. */
  predicate Respects(op: Op, topic: string, key: string) {
    match op
    case Publish(t, batch) => t == topic ==> forall k :: 0 <= k < |batch| ==> Apart(batch[k], key)
    case CreateSubscription(spec) => !SendsTo(spec, topic)
    case UpdateSubscription(spec, _) => !SendsTo(spec, topic)
    case _ => true
  }

  ghost predicate NoBurials(w: World, topic: string) {
    forall n :: n in w.state.subscriptions ==>
      !SendsTo(w.state.subscriptions[n].spec, topic)
  }

  ghost predicate Sealed(w: World, topic: string, key: string) {
    Keyed(EntriesOf(w.state.topics, topic).0, EntriesOf(w.state.topics, topic).1, key) && NoBurials(w, topic)
  }

  // ----- Publishing keeps the rule -----

  lemma KeyedCountAppend(log: seq<Message>, m: Message, key: string)
    ensures KeyedCount(log + [m], key) == KeyedCount(log, key) + if KeyOf(m.attributes) == key then 1 else 0
  {
    assert (log + [m])[..|log|] == log;
  }

  lemma AppendKeyed(env: Env, name: string, a: Append, m: NewMessage, now: Time, key: string)
    requires Keyed(a.topic.messages, a.topic.seenIds, key) && Apart(m, key) && key != ""
    ensures var b := AppendOne(env, name, a, m, now); Keyed(b.topic.messages, b.topic.seenIds, key)
  {
    EnrichOnlyAdds(env, name, m);
    var id := if ClientId(m) == "" then Uuid(a.minted) else ClientId(m);
    KeyedCountAppend(a.topic.messages, Stored(Enrich(env, name, m), id, now), key);
  }

  lemma {:induction false} AppendAllKeyed(env: Env, name: string, a: Append, batch: seq<NewMessage>, now: Time,
                                          key: string)
    requires Keyed(a.topic.messages, a.topic.seenIds, key) && key != ""
    requires forall k :: 0 <= k < |batch| ==> Apart(batch[k], key)
    ensures var b := AppendAll(env, name, a, batch, now); Keyed(b.topic.messages, b.topic.seenIds, key)
  {
    if batch != [] {
      AppendAllKeyed(env, name, a, batch[..|batch| - 1], now, key);
      AppendKeyed(env, name, AppendAll(env, name, a, batch[..|batch| - 1], now), batch[|batch| - 1], now, key);
    }
  }

  lemma PublishSealed(env: Env, w: World, topic: string, key: string, t: string, batch: seq<NewMessage>)
    requires Sealed(w, topic, key) && key != "" && Respects(Op.Publish(t, batch), topic, key)
    ensures Sealed(DoPublish(env, w, t, batch).0, topic, key)
  {
    if t == topic && t in w.state.topics {
      AppendAllKeyed(env, t, Append(w.state.topics[t], w.state.minted, []), batch, w.clock, key);
    }
  }

  // ----- No other operation changes the log -----

  lemma QuietSealed(w: World, topic: string, key: string, op: Op, v: World)
    requires Sealed(w, topic, key) && Respects(op, topic, key) && Continues(w, v, op)
    requires !(op.Publish? && op.topic == topic)
    ensures Sealed(v, topic, key)
  {
    forall n | n in v.state.subscriptions ensures !SendsTo(v.state.subscriptions[n].spec, topic) {
      assert PolicyKnown(w, n, v.state.subscriptions[n].spec, op);
    }
    assert CanAppend(w, op, topic) ==> EntriesOf(v.state.topics, topic) == EntriesOf(w.state.topics, topic);
  }

  lemma PerformSealed(env: Env, w: World, topic: string, key: string, op: Op, v: World, reply: Reply)
    requires Valid(w) && (v, reply) == Perform(env, w, op)
    requires Sealed(w, topic, key) && Respects(op, topic, key) && key != ""
    ensures Sealed(v, topic, key)
  {
    if op.Publish? && op.topic == topic {
      PublishSealed(env, w, topic, key, topic, op.batch);
    } else {
      PerformContinues(env, w, op, v, reply);
      QuietSealed(w, topic, key, op, v);
    }
  }

  lemma CallSealed(env: Env, w: World, topic: string, key: string, c: Call, v: World, reply: Reply)
    requires Valid(w) && (v, reply) == Apply(env, w, c)
    requires Sealed(w, topic, key) && Respects(c.op, topic, key) && key != ""
    ensures Sealed(v, topic, key)
  {
    ApplyIsPerform(env, w, c);
    PerformSealed(env, w.(clock := w.clock + c.elapsed), topic, key, c.op, v, reply);
  }

  // ----- The gateway -----

  lemma RequestIsApart(codec: Codec, k: string, input: ActionIn, key: string)
    requires k != ""
    ensures Apart(MessageFor(codec, k, input), key)
  {
  }

  lemma OwnSealed(env: Env, codec: Codec, topic: string, g: Gateway, s: Step, key: string)
    requires Guarded(g, topic) && Sealed(g.world, topic, key) && key != ""
    ensures Sealed(TakeOwn(env, codec, topic, g, s).world, topic, key)
  {
    if (s.Publish? || s.FailPublish?) && s.id in g.requests {
      var r := g.requests[s.id];
      assert RequestRight(g, topic, r);
      RequestIsApart(codec, r.key, r.input, key);
      PublishSealed(env, g.world, topic, key, topic, [MessageFor(codec, r.key, r.input)]);
    }
  }

  /** Every other use of the broker respects the key. */
  predicate AllRespect(steps: seq<Step>, topic: string, key: string) {
    forall k :: 0 <= k < |steps| && steps[k].Other? ==> Respects(steps[k].call.op, topic, key)
  }

  lemma {:induction false} AfterSealed(env: Env, codec: Codec, topic: string, w: World, steps: seq<Step>, key: string)
    requires Valid(w) && Sealed(w, topic, key) && key != "" && AllRespect(steps, topic, key)
    ensures Sealed(After(env, codec, topic, w, steps).world, topic, key)
    decreases |steps|
  {
    if steps != [] {
      var front, s := steps[..|steps| - 1], steps[|steps| - 1];
      AfterSealed(env, codec, topic, w, front, key);
      var g := After(env, codec, topic, w, front);
      if s.Other? {
        var (v, reply) := Apply(env, g.world, s.call);
        CallSealed(env, g.world, topic, key, s.call, v, reply);
      } else {
        OwnSealed(env, codec, topic, g, s, key);
      }
    }
  }

  /** At most once by attribute, over every interleaving, failure and restart, provided nobody else
      publishes the key under another message id (or another key under the key as message id) and
      no dead letters go to the topic: at most one message carries the key, and exactly one does
      if the key was ever answered OK. */
  lemma AtMostOnceByAttribute(env: Env, codec: Codec, topic: string, w: World, steps: seq<Step>, key: string)
    requires Valid(w) && Sealed(w, topic, key) && key != "" && AllRespect(steps, topic, key)
    ensures var g := After(env, codec, topic, w, steps);
            var log := LogOf(g.world.state.topics, topic);
            && KeyedCount(log, key) <= 1
            && (forall p :: 0 <= p < |g.answers| && g.answers[p].key == key && g.answers[p].response.Queued? ==>
                  KeyedCount(log, key) == 1)
  {
    AfterSealed(env, codec, topic, w, steps, key);
    var g := After(env, codec, topic, w, steps);
    GuardedOnce(g, topic, key);
  }

  /** What publishing one message does to the count of a topic without a schema. */
  lemma PublishCounts(env: Env, w: World, topic: string, m: NewMessage, key: string, v: World)
    requires topic in w.state.topics && w.state.topics[topic].schemaName == "" && key != ""
    requires v == DoPublish(env, w, topic, [m]).0
    ensures topic in v.state.topics && v.state.topics[topic].schemaName == ""
    ensures var was, is_ := w.state.topics[topic], v.state.topics[topic];
            var isNew := ClientId(m) == "" || ClientId(m) !in was.seenIds;
            && KeyedCount(is_.messages, key)
               == KeyedCount(was.messages, key) + (if isNew && KeyOf(m.attributes) == key then 1 else 0)
            && is_.seenIds.Keys == was.seenIds.Keys + (if ClientId(m) == "" then {} else {ClientId(m)})
  {
    var a := Append(w.state.topics[topic], w.state.minted, []);
    SingleMessage(env, topic, a, m, w.clock);
    EnrichOnlyAdds(env, topic, m);
    var id := if ClientId(m) == "" then Uuid(a.minted) else ClientId(m);
    KeyedCountAppend(a.topic.messages, Stored(Enrich(env, topic, m), id, w.clock), key);
  }

  /** Without the proviso it fails: somebody publishes the key under another message id, and then a
      request with that key publishes it once more. */
  lemma ForeignPublishDoubles(env: Env, codec: Codec, topic: string, w: World, foreign: NewMessage,
                              key: string, input: ActionIn, v: World, x: World)
    requires topic in w.state.topics && w.state.topics[topic].schemaName == ""
    requires key != "" && KeyOf(foreign.attributes) == key && foreign.messageId !in {"", key}
    requires key !in w.state.topics[topic].seenIds && foreign.messageId !in w.state.topics[topic].seenIds
    requires v == DoPublish(env, w, topic, [foreign]).0
    requires x == DoPublish(env, v, topic, [MessageFor(codec, key, input)]).0
    ensures topic in x.state.topics
    ensures KeyedCount(x.state.topics[topic].messages, key) == KeyedCount(w.state.topics[topic].messages, key) + 2
  {
    PublishCounts(env, w, topic, foreign, key, v);
    PublishCounts(env, v, topic, MessageFor(codec, key, input), key, x);
  }

  /** Whatever the topic and its schema, a request that the broker accepts adds a carrier of its key if
      and only if the topic had not seen the key; so it leaves exactly one if and only if there was
      none and the key was unseen, or one and it was seen. */
  lemma RequestCounts(env: Env, codec: Codec, topic: string, g: Gateway, id: nat)
    requires id in g.requests && g.requests[id].key != ""
    requires PublishFor(env, codec, topic, g, id).1.Published?
    ensures var key := g.requests[id].key;
            var before := KeyedCount(LogOf(g.world.state.topics, topic), key);
            var after := KeyedCount(LogOf(PublishFor(env, codec, topic, g, id).0.state.topics, topic), key);
            && after == before + (if Seen(g.world, topic, key) then 0 else 1)
            && (after == 1 <==> before == if Seen(g.world, topic, key) then 1 else 0)
  {
    OwnMessageIffUnseen(env, codec, topic, g, id);
    var was, is_ := g.world.state.topics[topic], PublishFor(env, codec, topic, g, id).0.state.topics[topic];
    if g.requests[id].key !in was.seenIds {
      assert is_.messages == was.messages + [is_.messages[|was.messages|]];
      KeyedCountAppend(was.messages, is_.messages[|was.messages|], g.requests[id].key);
    }
  }

  // ----- Dead letters -----

  /** How many of the messages at these indices carry the key. */
  function CarriedBy(log: seq<Message>, indices: seq<nat>, key: string): nat {
    if indices == [] then 0
    else
      var i := indices[|indices| - 1];
      CarriedBy(log, indices[..|indices| - 1], key)
      + if i < |log| && KeyOf(log[i].attributes) == key then 1 else 0
  }

  lemma CopyCarries(copy: Message, name: string, original: Message, now: Time)
    requires IsDeadCopy(copy, name, original, now)
    ensures KeyOf(copy.attributes) == KeyOf(original.attributes)
  {
    assert SOURCE_KEY[0] != "idempotency_key"[0] && ORIGINAL_KEY[0] != "idempotency_key"[0];
  }

  lemma {:induction false} CopiesCount(was: seq<Message>, is_: seq<Message>, buried: seq<nat>, name: string,
                                       log: seq<Message>, now: Time, key: string)
    requires CopiesAppended(was, is_, buried, name, log, now)
    ensures KeyedCount(is_, key) == KeyedCount(was, key) + CarriedBy(log, buried, key)
    decreases |buried|
  {
    if buried == [] {
      assert is_ == was;
    } else {
      var n := |buried| - 1;
      var copy := is_[|was| + n];
      assert IsDeadCopy(copy, name, log[buried[n]], now);
      CopyCarries(copy, name, log[buried[n]], now);
      assert is_ == is_[..|was| + n] + [copy];
      KeyedCountAppend(is_[..|was| + n], copy, key);
      CopiesCount(was, is_[..|was| + n], buried[..n], name, log, now, key);
    }
  }

  /** The epoch of a subscription once its expired leases are reclaimed, as at the start of a pull. */
  ghost function ReclaimedHistory(w: World, name: string, order: seq<string>): seq<Event>
    requires Valid(w) && name in w.state.subscriptions
  {
    var t := TrackedOf(w, name);
    Reclaim(t, VisitOrder(order, Expired(t.sub.inflight, w.clock)), w.clock).epoch.trace
  }

  /** The indices a pull dead-letters, in order. */
  ghost function BuriedByPull(w: World, name: string, max: u32, order: seq<string>): seq<nat>
    requires Valid(w) && name in w.state.subscriptions
  {
    Buried(PullWork(w, name, max, order).t.epoch.trace, |ReclaimedHistory(w, name, order)|)
  }

  /** A pull adds to the carriers of a key in its dead-letter topic exactly the messages it
      dead-letters that carry the key. */
  lemma DeadLettersCount(w: World, name: string, max: u32, order: seq<string>, topic: string, key: string)
    requires Valid(w) && name in w.state.subscriptions && topic in w.state.topics
    requires SendsTo(w.state.subscriptions[name].spec, topic)
    ensures var v := PullWork(w, name, max, order);
            && topic in v.topics
            && KeyedCount(v.topics[topic].messages, key)
               == KeyedCount(w.state.topics[topic].messages, key)
                  + CarriedBy(LogIn(v), BuriedByPull(w, name, max, order), key)
  {
    var t := TrackedOf(w, name);
    var visit := VisitOrder(order, Expired(t.sub.inflight, w.clock));
    var before, v := StartWork(w.state, Reclaim(t, visit, w.clock)), PullWork(w, name, max, order);
    ReclaimExpiredSound(w, name, visit);
    PullReply(w, name, max, order);
    assert BurialsRight(before, v, w.clock);
    CopiesCount(w.state.topics[topic].messages, v.topics[topic].messages, BuriedByPull(w, name, max, order),
                name, LogIn(v), w.clock, key);
  }

  lemma {:induction false} CarriedAtLeast(log: seq<Message>, indices: seq<nat>, k: nat, key: string)
    requires k < |indices| && indices[k] < |log| && KeyOf(log[indices[k]].attributes) == key
    ensures CarriedBy(log, indices, key) >= 1
    decreases |indices|
  {
    if k < |indices| - 1 {
      CarriedAtLeast(log, indices[..|indices| - 1], k, key);
    }
  }

  /** So without the other half of the proviso it fails too: a pull that dead-letters a message into
      the topic adds a carrier of its key, under another id. */
  lemma DeadLetterDoubles(w: World, name: string, max: u32, order: seq<string>, topic: string, k: nat, i: nat,
                          key: string)
    requires Valid(w) && name in w.state.subscriptions && topic in w.state.topics
    requires SendsTo(w.state.subscriptions[name].spec, topic)
    requires k < |BuriedByPull(w, name, max, order)| && BuriedByPull(w, name, max, order)[k] == i
    requires i < |LogFor(w, name)| && KeyOf(LogFor(w, name)[i].attributes) == key
    ensures var v := PullWork(w, name, max, order);
            && topic in v.topics
            && KeyedCount(v.topics[topic].messages, key) >= KeyedCount(w.state.topics[topic].messages, key) + 1
  {
    DeadLettersCount(w, name, max, order, topic, key);
    var v := PullWork(w, name, max, order);
    PullWorkSound(w, name, max, order);
    PullWorkContinues(w, name, max, order);
    SubscriptionValid(w, name);
    assert LogFor(w, name) <= LogIn(v);
    CarriedAtLeast(LogIn(v), BuriedByPull(w, name, max, order), k, key);
  }

  // ----- A run in which two messages carry one key -----

  lemma {:induction false} AfterOwn(env: Env, codec: Codec, topic: string, w: World, steps: seq<Step>, own: seq<Step>)
    requires Valid(w) && forall k :: 0 <= k < |own| ==> !own[k].Other?
    ensures After(env, codec, topic, w, steps + own) == TakeAll(env, codec, topic, After(env, codec, topic, w, steps), own)
    decreases |own|
  {
    if own == [] {
      assert steps + own == steps;
    } else {
      assert steps + own == (steps + [own[0]]) + own[1..];
      AfterOwn(env, codec, topic, w, steps + [own[0]], own[1..]);
      assert (steps + [own[0]])[..|steps|] == steps;
    }
  }

  lemma AfterNew(env: Env, codec: Codec, topic: string, w: World, own: seq<Step>)
    requires Valid(w) && forall k :: 0 <= k < |own| ==> !own[k].Other?
    ensures After(env, codec, topic, w, own) == TakeAll(env, codec, topic, NewGateway(w), own)
  {
    AfterOwn(env, codec, topic, w, [], own);
    assert [] + own == own;
  }

  const FOREIGN := NewMessage([], map["idempotency_key" := "key"], "", "m")

  function Doubling(topic: string): seq<Step> {
    [Step.Other(Call(0, Op.Publish(topic, [FOREIGN])))] + Alone(0, Some("key"), [])
  }

  lemma AfterForeign(env: Env, codec: Codec, topic: string, w: World)
    requires Valid(w)
    ensures After(env, codec, topic, w, [Step.Other(Call(0, Op.Publish(topic, [FOREIGN])))])
         == Gateway(DoPublish(env, w, topic, [FOREIGN]).0, map[], None, map[], [], 0)
  {
    var s := Step.Other(Call(0, Op.Publish(topic, [FOREIGN])));
    assert [s][..0] == [];
    ApplyIsPerform(env, w, s.call);
    assert w.(clock := w.clock + 0) == w;
  }

  function NewGateway(v: World): Gateway {
    Gateway(v, map[], None, map[], [], 0)
  }

  lemma AfterDoubling(env: Env, codec: Codec, topic: string, w: World)
    requires Valid(w)
    ensures After(env, codec, topic, w, Doubling(topic))
         == TakeAll(env, codec, topic, NewGateway(DoPublish(env, w, topic, [FOREIGN]).0), Alone(0, Some("key"), []))
  {
    AfterForeign(env, codec, topic, w);
    AfterOwn(env, codec, topic, w, [Step.Other(Call(0, Op.Publish(topic, [FOREIGN])))], Alone(0, Some("key"), []));
  }

  lemma HandledAlone(env: Env, codec: Codec, topic: string, v: World)
    requires topic in v.state.topics && v.state.topics[topic].schemaName == ""
    ensures var (byKey, x, response) := Handle(env, codec, topic, map[], v, Some("key"), []);
            x == DoPublish(env, v, topic, [MessageFor(codec, "key", DEFAULT_ACTION)]).0 && response.Queued?
  {
  }

  /** The first request of a new gateway. */
  lemma AlonePublishes(env: Env, codec: Codec, topic: string, v: World, h: Gateway)
    requires topic in v.state.topics && v.state.topics[topic].schemaName == ""
    requires h == TakeAll(env, codec, topic, NewGateway(v), Alone(0, Some("key"), []))
    ensures h.world == DoPublish(env, v, topic, [MessageFor(codec, "key", DEFAULT_ACTION)]).0
    ensures |h.answers| == 1 && h.answers[0].key == "key" && h.answers[0].response.Queued?
  {
    AloneIsHandle(env, codec, topic, NewGateway(v), 0, Some("key"), []);
    HandledAlone(env, codec, topic, v);
  }

  /** From any broker whose topic has not seen the key or the message id: somebody publishes a
      message under id "m" that carries the key, then one request with the key is answered OK, and
      two more messages carry the key. */
  lemma ARunThatDoubles(env: Env, codec: Codec, topic: string, w: World)
    requires Valid(w) && topic in w.state.topics && w.state.topics[topic].schemaName == ""
    requires "key" !in w.state.topics[topic].seenIds && "m" !in w.state.topics[topic].seenIds
    ensures var g := After(env, codec, topic, w, Doubling(topic));
            && topic in g.world.state.topics
            && KeyedCount(g.world.state.topics[topic].messages, "key")
               == KeyedCount(w.state.topics[topic].messages, "key") + 2
            && |g.answers| == 1 && g.answers[0].key == "key" && g.answers[0].response.Queued?
  {
    var v, g := DoPublish(env, w, topic, [FOREIGN]).0, After(env, codec, topic, w, Doubling(topic));
    AfterDoubling(env, codec, topic, w);
    PublishCounts(env, w, topic, FOREIGN, "key", v);
    AlonePublishes(env, codec, topic, v, g);
    ForeignPublishDoubles(env, codec, topic, w, FOREIGN, "key", DEFAULT_ACTION, v, g.world);
  }

  // ----- A run that answers for another request -----

  lemma {:induction false} TakeAllOf(env: Env, codec: Codec, topic: string, g: Gateway, a: seq<Step>, b: seq<Step>)
    ensures TakeAll(env, codec, topic, g, a + b) == TakeAll(env, codec, topic, TakeAll(env, codec, topic, g, a), b)
    decreases |a|
  {
    if a == [] {
      assert a + b == b;
    } else {
      assert (a + b)[1..] == a[1..] + b;
      TakeAllOf(env, codec, topic, TakeOwn(env, codec, topic, g, a[0]), a[1..], b);
    }
  }

  /** One request without a body, a restart, and a request with the same key and a body. */
  function Answering(body: Bytes): seq<Step> {
    Alone(0, Some("key"), []) + ([Restart] + Alone(0, Some("key"), body))
  }

  /** A request that publishes, in a gateway with nothing under way or recorded. */
  lemma AloneQueued(env: Env, codec: Codec, topic: string, g: Gateway, body: Bytes, input: ActionIn, h: Gateway)
    requires g.lock.None? && 0 !in g.requests && g.byKey == map[] && Read(codec, Some("key"), body) == Some(input)
    requires topic in g.world.state.topics && g.world.state.topics[topic].schemaName == ""
    requires h == TakeAll(env, codec, topic, g, Alone(0, Some("key"), body))
    ensures h.world == DoPublish(env, g.world, topic, [MessageFor(codec, "key", input)]).0
    ensures h.answers == g.answers + [Answer("key", Queued(ResultFor("key", input, g.world.clock), false), g.life)]
  {
    AloneIsHandle(env, codec, topic, g, 0, Some("key"), body);
  }

  lemma AnsweringSteps(env: Env, codec: Codec, topic: string, g: Gateway, body: Bytes)
    ensures var a := TakeAll(env, codec, topic, g, Alone(0, Some("key"), []));
            TakeAll(env, codec, topic, g, Answering(body))
            == TakeAll(env, codec, topic, TakeOwn(env, codec, topic, a, Restart), Alone(0, Some("key"), body))
  {
    var a := TakeAll(env, codec, topic, g, Alone(0, Some("key"), []));
    TakeAllOf(env, codec, topic, g, Alone(0, Some("key"), []), [Restart] + Alone(0, Some("key"), body));
    TakeFirst(env, codec, topic, a, Restart, Alone(0, Some("key"), body));
  }

  /** With the recorded result lost, a second request under a key is answered OK with its own ids,
      although the only message for the key is the first one's. */
  lemma ARunThatAnswersForAnother(env: Env, codec: Codec, topic: string, w: World, body: Bytes, input: ActionIn)
    requires topic in w.state.topics && w.state.topics[topic].schemaName == ""
    requires "key" !in w.state.topics[topic].seenIds && body != [] && codec.parse(body) == Some(input)
    ensures var g := TakeAll(env, codec, topic, NewGateway(w), Answering(body));
            && |g.answers| == 2 && g.answers[1].key == "key" && g.answers[1].response.Queued?
            && g.answers[1].response.result.actionId == input.actionId
            && topic in g.world.state.topics
            && g.world.state.topics[topic].messages
               == w.state.topics[topic].messages
                  + [Stored(Enrich(env, topic, MessageFor(codec, "key", DEFAULT_ACTION)), "key", w.clock)]
  {
    var a := TakeAll(env, codec, topic, NewGateway(w), Alone(0, Some("key"), []));
    var b := TakeOwn(env, codec, topic, a, Restart);
    AnsweringSteps(env, codec, topic, NewGateway(w), body);
    FirstServed(env, codec, topic, w, a);
    Restarted(env, codec, topic, a);
    SecondServed(env, codec, topic, b, body, input, TakeAll(env, codec, topic, b, Alone(0, Some("key"), body)));
  }

  lemma FirstServed(env: Env, codec: Codec, topic: string, w: World, a: Gateway)
    requires topic in w.state.topics && w.state.topics[topic].schemaName == "" && "key" !in w.state.topics[topic].seenIds
    requires a == TakeAll(env, codec, topic, NewGateway(w), Alone(0, Some("key"), []))
    ensures |a.answers| == 1 && topic in a.world.state.topics && a.world.state.topics[topic].schemaName == ""
    ensures "key" in a.world.state.topics[topic].seenIds
    ensures a.world.state.topics[topic].messages
         == w.state.topics[topic].messages
            + [Stored(Enrich(env, topic, MessageFor(codec, "key", DEFAULT_ACTION)), "key", w.clock)]
  {
    AloneQueued(env, codec, topic, NewGateway(w), [], DEFAULT_ACTION, a);
    FirstStored(env, codec, topic, w, DEFAULT_ACTION, a.world);
  }

  lemma Restarted(env: Env, codec: Codec, topic: string, a: Gateway)
    ensures TakeOwn(env, codec, topic, a, Restart)
         == a.(byKey := map[], lock := None, requests := map[], life := a.life + 1)
  {
  }

  lemma SecondServed(env: Env, codec: Codec, topic: string, b: Gateway, body: Bytes, input: ActionIn, g: Gateway)
    requires b.lock.None? && b.requests == map[] && b.byKey == map[] && Read(codec, Some("key"), body) == Some(input)
    requires topic in b.world.state.topics && b.world.state.topics[topic].schemaName == ""
    requires "key" in b.world.state.topics[topic].seenIds
    requires g == TakeAll(env, codec, topic, b, Alone(0, Some("key"), body))
    ensures |g.answers| == |b.answers| + 1
    ensures g.answers[|b.answers|] == Answer("key", Queued(ResultFor("key", input, b.world.clock), false), b.life)
    ensures topic in g.world.state.topics
    ensures g.world.state.topics[topic].messages == b.world.state.topics[topic].messages
  {
    AloneQueued(env, codec, topic, b, body, input, g);
    SecondIgnored(env, codec, topic, b.world, input, g.world);
  }

  lemma FirstStored(env: Env, codec: Codec, topic: string, w: World, input: ActionIn, v: World)
    requires topic in w.state.topics && w.state.topics[topic].schemaName == "" && "key" !in w.state.topics[topic].seenIds
    requires v == DoPublish(env, w, topic, [MessageFor(codec, "key", input)]).0
    ensures topic in v.state.topics && v.state.topics[topic].schemaName == "" && "key" in v.state.topics[topic].seenIds
    ensures v.state.topics[topic].messages
         == w.state.topics[topic].messages
            + [Stored(Enrich(env, topic, MessageFor(codec, "key", input)), "key", w.clock)]
  {
    var m := MessageFor(codec, "key", input);
    SingleMessage(env, topic, Append(w.state.topics[topic], w.state.minted, []), m, w.clock);
    EnrichOnlyAdds(env, topic, m);
  }

  lemma SecondIgnored(env: Env, codec: Codec, topic: string, w: World, input: ActionIn, v: World)
    requires topic in w.state.topics && w.state.topics[topic].schemaName == "" && "key" in w.state.topics[topic].seenIds
    requires v == DoPublish(env, w, topic, [MessageFor(codec, "key", input)]).0
    ensures topic in v.state.topics && v.state.topics[topic].messages == w.state.topics[topic].messages
  {
    var m := MessageFor(codec, "key", input);
    SingleMessage(env, topic, Append(w.state.topics[topic], w.state.minted, []), m, w.clock);
    EnrichOnlyAdds(env, topic, m);
  }
}
