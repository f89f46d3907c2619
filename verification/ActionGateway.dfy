/** The idempotent action gateway of src/action_gateway.rs: one request as a method on the broker
    object, and any number of concurrent requests as a state machine with a lock, lost replies,
    restarts, and other users of the broker. */
module ActionGateway {
  import opened Basics
  import opened Model
  import opened Pulling
  import opened Publishing
  import opened Broker
  import opened Guarantees
  import opened Continuity
  import MemoryBackend

  datatype ActionIn = ActionIn(actionId: string, eventId: string, command: string, payload: Bytes)

  const DEFAULT_ACTION := ActionIn("", "", "", [])

  /** JSON, which lies outside the model. */
  datatype Codec = Codec(parse: Bytes -> Option<ActionIn>, render: ActionIn -> Bytes)

  datatype ActionResult = ActionResult(providerId: string, state: string, actionId: string,
                                       eventId: string, at: Time)

  datatype Response = BadRequest | BadGateway | Queued(result: ActionResult, replay: bool)

  /** The input of a well-formed request: it has a key, and its body is empty or parses. */
  function Read(codec: Codec, key: Option<string>, body: Bytes): Option<ActionIn> {
    if key.None? || key.value == "" then None
    else if body == [] then Some(DEFAULT_ACTION)
    else codec.parse(body)
  }

  function MessageFor(codec: Codec, key: string, input: ActionIn): NewMessage {
    NewMessage(codec.render(input),
               map["idempotency_key" := key, "action_id" := input.actionId,
                   "event_id" := input.eventId, "command" := input.command],
               "", "")
  }

  function ResultFor(key: string, input: ActionIn, now: Time): ActionResult {
    ActionResult("rpg_" + key, "queued", input.actionId, input.eventId, now)
  }

  /** The part of a request under the lock. */
  function HandleInput(env: Env, codec: Codec, topic: string, byKey: map<string, ActionResult>, w: World,
                       key: string, input: ActionIn): (map<string, ActionResult>, World, Response)
  {
    if key in byKey then (byKey, w, Queued(byKey[key], true))
    else
      var (v, reply) := DoPublish(env, w, topic, [MessageFor(codec, key, input)]);
      if reply.Failed? then (byKey, v, BadGateway)
      else
        var result := ResultFor(key, input, w.clock);
        (byKey[key := result], v, Queued(result, false))
  }

  /** A whole request on its own: the recorded results, the broker and the answer afterwards. */
  function Handle(env: Env, codec: Codec, topic: string, byKey: map<string, ActionResult>, w: World,
                  key: Option<string>, body: Bytes): (map<string, ActionResult>, World, Response)
  {
    match Read(codec, key, body)
    case None => (byKey, w, BadRequest)
    case Some(input) => HandleInput(env, codec, topic, byKey, w, key.value, input)
  }

  // ----- What a request comes to -----

  /** Log entry `m` is the one for a request with this key and input. */
  ghost predicate CarriesAction(codec: Codec, m: Message, key: string, input: ActionIn, at: Time) {
    && m.id == key && m.data == codec.render(input) && m.orderingKey == "" && m.publishedAt == at
    && {"idempotency_key", "action_id", "event_id", "command"} <= m.attributes.Keys
    && m.attributes["idempotency_key"] == key && m.attributes["command"] == input.command
    && m.attributes["action_id"] == input.actionId && m.attributes["event_id"] == input.eventId
  }

  /** The topic has gained the message of the request, or nothing if it had seen the key. */
  ghost predicate StoresAction(codec: Codec, topic: string, w: World, key: string, input: ActionIn, v: World) {
    && topic in w.state.topics && topic in v.state.topics
    && var was, is_ := w.state.topics[topic], v.state.topics[topic];
    && v == w.(state := v.state) && v.state == w.state.(topics := w.state.topics[topic := is_])
    && key in is_.seenIds
    && if key in was.seenIds then is_ == was
       else was.messages <= is_.messages && |is_.messages| == |was.messages| + 1
            && CarriesAction(codec, is_.messages[|was.messages|], key, input, w.clock)
  }

  lemma StoredCarries(env: Env, codec: Codec, topic: string, key: string, input: ActionIn, now: Time)
    ensures CarriesAction(codec, Stored(Enrich(env, topic, MessageFor(codec, key, input)), key, now), key, input, now)
  {
    var x := MessageFor(codec, key, input);
    EnrichOnlyAdds(env, topic, x);
    assert |"idempotency_key"| == 15 && |"action_id"| == 9 && |"event_id"| == 8 && |"command"| == 7;
    assert x.attributes["idempotency_key"] == key && x.attributes["action_id"] == input.actionId;
    assert x.attributes["event_id"] == input.eventId && x.attributes["command"] == input.command;
  }

  lemma PublishedAction(env: Env, codec: Codec, topic: string, w: World, key: string, input: ActionIn)
    requires key != "" && DoPublish(env, w, topic, [MessageFor(codec, key, input)]).1.Published?
    ensures StoresAction(codec, topic, w, key, input, DoPublish(env, w, topic, [MessageFor(codec, key, input)]).0)
  {
    var m := MessageFor(codec, key, input);
    SingleMessage(env, topic, Append(w.state.topics[topic], w.state.minted, []), m, w.clock);
    EnrichOnlyAdds(env, topic, m);
    StoredCarries(env, codec, topic, key, input, w.clock);
  }

  /** The broker refuses a payload for the topic: there is none, its schema is missing, or the
      payload does not satisfy it. */
  ghost predicate Refused(env: Env, s: State, topic: string, data: Bytes) {
    || topic !in s.topics
    || (var schema := s.topics[topic].schemaName;
        schema != "" && (schema !in s.schemas || !env.valid(schema, data)))
  }

  /** The first request with a key: refused with the broker, or stored, recorded and answered with the
      ids of the request. */
  ghost predicate FirstAnswered(env: Env, codec: Codec, topic: string, byKey: map<string, ActionResult>, w: World,
                                key: string, input: ActionIn, after: map<string, ActionResult>, v: World,
                                response: Response)
  {
    if Refused(env, w.state, topic, codec.render(input)) then response == BadGateway && after == byKey && v == w
    else
      var result := ActionResult("rpg_" + key, "queued", input.actionId, input.eventId, w.clock);
      && response == Queued(result, false) && after == byKey[key := result]
      && StoresAction(codec, topic, w, key, input, v)
  }

  lemma InputOutcome(env: Env, codec: Codec, topic: string, byKey: map<string, ActionResult>, w: World,
                     key: string, input: ActionIn)
    requires key != "" && key !in byKey
    ensures var h := HandleInput(env, codec, topic, byKey, w, key, input);
            FirstAnswered(env, codec, topic, byKey, w, key, input, h.0, h.1, h.2)
  {
    var m := MessageFor(codec, key, input);
    assert [m][0] == m && m.data == codec.render(input);
    if !DoPublish(env, w, topic, [m]).1.Failed? {
      PublishedAction(env, codec, topic, w, key, input);
    }
  }

  /** A request is bad exactly if it has no key or its body, unless empty, does not parse; a key with
      a recorded result gets that result again; neither changes anything. */
  lemma HandleOutcome(env: Env, codec: Codec, topic: string, byKey: map<string, ActionResult>, w: World,
                      key: Option<string>, body: Bytes, after: map<string, ActionResult>, v: World, response: Response)
    requires var h := Handle(env, codec, topic, byKey, w, key, body);
             after == h.0 && v == h.1 && response == h.2
    ensures var malformed := key.None? || key.value == "" || (body != [] && codec.parse(body).None?);
            && (response.BadRequest? <==> malformed)
            && (malformed || key.value in byKey ==> after == byKey && v == w)
            && (!malformed && key.value in byKey ==> response == Queued(byKey[key.value], true))
            && (!malformed && key.value !in byKey ==>
                  FirstAnswered(env, codec, topic, byKey, w, key.value,
                                if body == [] then ActionIn("", "", "", []) else codec.parse(body).value,
                                after, v, response))
  {
    if Read(codec, key, body).Some? && key.value !in byKey {
      InputOutcome(env, codec, topic, byKey, w, key.value, Read(codec, key, body).value);
    }
  }

  class ActionGateway {
    const backend: MemoryBackend.MemoryBackend
    const topic: string
    var byKey: map<string, ActionResult>

    constructor (backend: MemoryBackend.MemoryBackend, topic: string)
      ensures this.backend == backend && this.topic == topic && byKey == map[]
    {
      this.backend, this.topic, byKey := backend, topic, map[];
    }

    /** `handle_action`, from taking the lock to releasing it. */
    method HandleAction(env: Env, codec: Codec, key: Option<string>, body: Bytes, now: Time)
      returns (response: Response)
      requires backend.Valid() && backend.clock <= now
      modifies this, backend
      ensures backend.Valid()
      ensures (byKey, backend.Here(), response)
           == Handle(env, codec, topic, old(byKey), old(backend.At(now)), key, body)
    {
      ghost var w := backend.At(now);
      if key.None? || key.value == "" {
        backend.clock := now;
        return BadRequest;
      }
      var input := DEFAULT_ACTION;
      if body != [] {
        var parsed := codec.parse(body);
        if parsed.None? {
          backend.clock := now;
          return BadRequest;
        }
        input := parsed.value;
      }
      if key.value in byKey {
        backend.clock := now;
        return Queued(byKey[key.value], true);
      }
      var reply := backend.Publish(env, topic, [MessageFor(codec, key.value, input)], now);
      if reply.Failed? { return BadGateway; }
      var result := ResultFor(key.value, input, now);
      byKey := byKey[key.value := result];
      return Queued(result, false);
    }
  }

  // ----- Concurrent requests -----

  datatype Stage = Waiting | Checking | Publishing | Inserting

  datatype Request = Request(key: string, input: ActionIn, stage: Stage)

  /** An answer, and how many restarts there had been. */
  datatype Answer = Answer(key: string, response: Response, life: nat)

  datatype Gateway = Gateway(
    world: World,
    byKey: map<string, ActionResult>,
    lock: Option<nat>,
    requests: map<nat, Request>,
    answers: seq<Answer>,
    life: nat)

  /** What can happen next. A publish may succeed, be refused, or fail for reasons of its own,
      before or after it took effect; a request may be abandoned at any point; a restart loses
      the recorded results and all requests, but not the topics; and others use the broker. */
  datatype Step =
    | Arrive(id: nat, key: Option<string>, body: Bytes)
    | Acquire(id: nat)
    | Check(id: nat)
    | Publish(id: nat)
    | FailPublish(id: nat, applied: bool)
    | Insert(id: nat)
    | Abandon(id: nat)
    | Restart
    | Other(call: Call)

  predicate IsAt(g: Gateway, id: nat, stage: Stage) {
    id in g.requests && g.requests[id].stage == stage
  }

  function Enter(g: Gateway, id: nat, stage: Stage): Gateway
    requires id in g.requests
  {
    g.(requests := g.requests[id := g.requests[id].(stage := stage)])
  }

  /** Answers request `id` and releases the lock. */
  function Finish(g: Gateway, id: nat, response: Response): Gateway
    requires id in g.requests
  {
    g.(requests := g.requests - {id}, lock := None,
       answers := g.answers + [Answer(g.requests[id].key, response, g.life)])
  }

  function DoArrive(codec: Codec, g: Gateway, id: nat, key: Option<string>, body: Bytes): Gateway {
    if id in g.requests then g
    else
      match Read(codec, key, body)
      case None => g.(answers := g.answers + [Answer("", BadRequest, g.life)])
      case Some(input) => g.(requests := g.requests[id := Request(key.value, input, Waiting)])
  }

  function DoCheck(g: Gateway, id: nat): Gateway
    requires id in g.requests
  {
    var key := g.requests[id].key;
    if key in g.byKey then Finish(g, id, Queued(g.byKey[key], true)) else Enter(g, id, Publishing)
  }

  function PublishFor(env: Env, codec: Codec, topic: string, g: Gateway, id: nat): (World, Reply)
    requires id in g.requests
  {
    DoPublish(env, g.world, topic, [MessageFor(codec, g.requests[id].key, g.requests[id].input)])
  }

  function DoPublishStep(env: Env, codec: Codec, topic: string, g: Gateway, id: nat): Gateway
    requires id in g.requests
  {
    var (v, reply) := PublishFor(env, codec, topic, g, id);
    if reply.Failed? then Finish(g.(world := v), id, BadGateway) else Enter(g.(world := v), id, Inserting)
  }

  function DoInsert(g: Gateway, id: nat): Gateway
    requires id in g.requests
  {
    var result := ResultFor(g.requests[id].key, g.requests[id].input, g.world.clock);
    Finish(g.(byKey := g.byKey[g.requests[id].key := result]), id, Queued(result, false))
  }

  function DoAbandon(g: Gateway, id: nat): Gateway {
    g.(requests := g.requests - {id}, lock := if g.lock == Some(id) then None else g.lock)
  }

  /** A step of the gateway itself; one that is not possible changes nothing. */
  function TakeOwn(env: Env, codec: Codec, topic: string, g: Gateway, s: Step): Gateway {
    match s
    case Arrive(id, key, body) => DoArrive(codec, g, id, key, body)
    case Acquire(id) =>
      if IsAt(g, id, Waiting) && g.lock.None? then Enter(g.(lock := Some(id)), id, Checking) else g
    case Check(id) => if IsAt(g, id, Checking) then DoCheck(g, id) else g
    case Publish(id) => if IsAt(g, id, Publishing) then DoPublishStep(env, codec, topic, g, id) else g
    case FailPublish(id, applied) =>
      if !IsAt(g, id, Publishing) then g
      else Finish(g.(world := if applied then PublishFor(env, codec, topic, g, id).0 else g.world), id, BadGateway)
    case Insert(id) => if IsAt(g, id, Inserting) then DoInsert(g, id) else g
    case Abandon(id) => DoAbandon(g, id)
    case Restart => g.(byKey := map[], lock := None, requests := map[], life := g.life + 1)
    case Other(_) => g
  }

  /** Any step. */
  ghost function Take(env: Env, codec: Codec, topic: string, g: Gateway, s: Step): Gateway
    requires Valid(g.world)
  {
    if s.Other? then g.(world := Apply(env, g.world, s.call).0) else TakeOwn(env, codec, topic, g, s)
  }

  // ----- The invariant -----

  ghost predicate Seen(w: World, topic: string, key: string) {
    topic in w.state.topics && key in w.state.topics[topic].seenIds
  }

  ghost predicate LockHeld(g: Gateway) {
    && (forall id :: id in g.requests ==> (!g.requests[id].stage.Waiting? <==> g.lock == Some(id)))
    && (g.lock.Some? ==> g.lock.value in g.requests)
  }

  ghost predicate RequestRight(g: Gateway, topic: string, r: Request) {
    && r.key != ""
    && (r.stage.Publishing? || r.stage.Inserting? ==> r.key !in g.byKey)
    && (r.stage.Inserting? ==> Seen(g.world, topic, r.key))
  }

  ghost predicate AnswerRight(g: Gateway, topic: string, a: Answer) {
    && a.life <= g.life
    && (a.response.Queued? ==>
          && a.response.result.providerId == "rpg_" + a.key
          && Seen(g.world, topic, a.key)
          && (a.life == g.life ==> a.key in g.byKey && g.byKey[a.key] == a.response.result))
  }

  predicate IsOriginal(a: Answer, key: string, life: nat) {
    a.key == key && a.life == life && a.response.Queued? && !a.response.replay
  }

  /** The answers for `key` in one life that are not replays. */
  function Originals(answers: seq<Answer>, key: string, life: nat): nat {
    if answers == [] then 0
    else
      var a := answers[|answers| - 1];
      var last := if IsOriginal(a, key, life) then 1 else 0;
      Originals(answers[..|answers| - 1], key, life) + last
  }

  ghost predicate Guarded(g: Gateway, topic: string) {
    && LockHeld(g)
    && (forall id :: id in g.requests ==> RequestRight(g, topic, g.requests[id]))
    && (forall k :: k in g.byKey ==> Seen(g.world, topic, k) && g.byKey[k].providerId == "rpg_" + k)
    && (forall p :: 0 <= p < |g.answers| ==> AnswerRight(g, topic, g.answers[p]))
    && (forall k :: Originals(g.answers, k, g.life) == if k in g.byKey then 1 else 0)
    && (forall k, l :: l > g.life ==> Originals(g.answers, k, l) == 0)
  }

  // ----- Every step keeps the invariant -----

  lemma OriginalsAppend(answers: seq<Answer>, a: Answer)
    ensures forall k, l ::
              Originals(answers + [a], k, l) == Originals(answers, k, l) + (if IsOriginal(a, k, l) then 1 else 0)
  {
    assert (answers + [a])[..|answers|] == answers;
  }

  /** A step of the broker that forgets no client id. */
  lemma WorldStep(g: Gateway, topic: string, w: World)
    requires Guarded(g, topic) && TopicsContinue(g.world.state.topics, w.state.topics)
    ensures Guarded(g.(world := w), topic)
  {
    var h := g.(world := w);
    forall id | id in h.requests ensures RequestRight(h, topic, h.requests[id]) {
      assert RequestRight(g, topic, g.requests[id]);
    }
    forall p | 0 <= p < |h.answers| ensures AnswerRight(h, topic, h.answers[p]) {
      assert AnswerRight(g, topic, g.answers[p]);
    }
  }

  lemma EnterStep(g: Gateway, topic: string, id: nat, stage: Stage)
    requires Guarded(g, topic) && id in g.requests && g.lock == Some(id) && !stage.Waiting?
    requires RequestRight(g, topic, g.requests[id].(stage := stage))
    ensures Guarded(Enter(g, id, stage), topic)
  {
    var h := Enter(g, id, stage);
    forall i | i in h.requests ensures RequestRight(h, topic, h.requests[i]) {
      assert i != id ==> RequestRight(g, topic, g.requests[i]);
    }
    AnswersStay(g, h, topic);
  }

  lemma AnswersStay(g: Gateway, h: Gateway, topic: string)
    requires forall p :: 0 <= p < |g.answers| ==> AnswerRight(g, topic, g.answers[p])
    requires h == g.(requests := h.requests, lock := h.lock)
    ensures forall p :: 0 <= p < |h.answers| ==> AnswerRight(h, topic, h.answers[p])
  {
    forall p | 0 <= p < |h.answers| ensures AnswerRight(h, topic, h.answers[p]) {
      assert AnswerRight(g, topic, g.answers[p]);
    }
  }

  /** An answer that is no original. */
  lemma FinishStep(g: Gateway, topic: string, id: nat, response: Response)
    requires Guarded(g, topic) && id in g.requests && g.lock == Some(id)
    requires response.Queued? ==> response.replay
    requires AnswerRight(g, topic, Answer(g.requests[id].key, response, g.life))
    ensures Guarded(Finish(g, id, response), topic)
  {
    var h := Finish(g, id, response);
    OriginalsAppend(g.answers, Answer(g.requests[id].key, response, g.life));
    forall i | i in h.requests ensures RequestRight(h, topic, h.requests[i]) {
      assert RequestRight(g, topic, g.requests[i]);
    }
    forall p | 0 <= p < |h.answers| ensures AnswerRight(h, topic, h.answers[p]) {
      assert p < |g.answers| ==> AnswerRight(g, topic, g.answers[p]);
    }
  }

  lemma InsertStep(g: Gateway, topic: string, id: nat)
    requires Guarded(g, topic) && IsAt(g, id, Inserting)
    ensures Guarded(DoInsert(g, id), topic)
  {
    var h := DoInsert(g, id);
    var key := g.requests[id].key;
    assert RequestRight(g, topic, g.requests[id]);
    OriginalsAppend(g.answers, h.answers[|g.answers|]);
    forall i | i in h.requests ensures RequestRight(h, topic, h.requests[i]) {
      assert RequestRight(g, topic, g.requests[i]);
    }
    forall p | 0 <= p < |h.answers| ensures AnswerRight(h, topic, h.answers[p]) {
      assert p < |g.answers| ==> AnswerRight(g, topic, g.answers[p]);
    }
  }

  lemma ArriveStep(codec: Codec, g: Gateway, topic: string, id: nat, key: Option<string>, body: Bytes)
    requires Guarded(g, topic)
    ensures Guarded(DoArrive(codec, g, id, key, body), topic)
  {
    var h := DoArrive(codec, g, id, key, body);
    OriginalsAppend(g.answers, Answer("", BadRequest, g.life));
    forall i | i in h.requests ensures RequestRight(h, topic, h.requests[i]) {
      assert i in g.requests ==> RequestRight(g, topic, g.requests[i]);
    }
    forall p | 0 <= p < |h.answers| ensures AnswerRight(h, topic, h.answers[p]) {
      assert p < |g.answers| ==> AnswerRight(g, topic, g.answers[p]);
    }
  }

  lemma DropStep(g: Gateway, topic: string, id: nat)
    requires Guarded(g, topic)
    ensures Guarded(DoAbandon(g, id), topic)
  {
    var h := DoAbandon(g, id);
    forall i | i in h.requests ensures RequestRight(h, topic, h.requests[i]) {
      assert RequestRight(g, topic, g.requests[i]);
    }
    AnswersStay(g, h, topic);
  }

  lemma RestartStep(g: Gateway, topic: string)
    requires Guarded(g, topic)
    ensures Guarded(g.(byKey := map[], lock := None, requests := map[], life := g.life + 1), topic)
  {
    var h := g.(byKey := map[], lock := None, requests := map[], life := g.life + 1);
    forall p | 0 <= p < |h.answers| ensures AnswerRight(h, topic, h.answers[p]) {
      assert AnswerRight(g, topic, g.answers[p]);
    }
  }

  /** A publish that is not refused has left the key in the topic's table. */
  lemma PublishRecords(env: Env, codec: Codec, topic: string, g: Gateway, id: nat)
    requires Valid(g.world) && id in g.requests && g.requests[id].key != ""
    ensures var (v, reply) := PublishFor(env, codec, topic, g, id);
            && Valid(v) && TopicsContinue(g.world.state.topics, v.state.topics)
            && (!reply.Failed? ==> Seen(v, topic, g.requests[id].key))
  {
    var m := MessageFor(codec, g.requests[id].key, g.requests[id].input);
    PublishValid(env, g.world, topic, [m]);
    PublishContinues(env, g.world, topic, [m], Op.Publish(topic, [m]));
    if topic in g.world.state.topics {
      assert [m][..0] == [];
      EnrichOnlyAdds(env, topic, m);
    }
  }

  lemma PublishStep(env: Env, codec: Codec, topic: string, g: Gateway, id: nat)
    requires Valid(g.world) && Guarded(g, topic) && IsAt(g, id, Publishing)
    ensures Valid(DoPublishStep(env, codec, topic, g, id).world)
    ensures Guarded(DoPublishStep(env, codec, topic, g, id), topic)
  {
    var (v, reply) := PublishFor(env, codec, topic, g, id);
    assert RequestRight(g, topic, g.requests[id]);
    PublishRecords(env, codec, topic, g, id);
    WorldStep(g, topic, v);
    if reply.Failed? {
      FinishStep(g.(world := v), topic, id, BadGateway);
    } else {
      EnterStep(g.(world := v), topic, id, Inserting);
    }
  }

  lemma FailStep(env: Env, codec: Codec, topic: string, g: Gateway, id: nat)
    requires Valid(g.world) && Guarded(g, topic) && IsAt(g, id, Publishing)
    ensures var v := PublishFor(env, codec, topic, g, id).0;
            Valid(v) && Guarded(Finish(g.(world := v), id, BadGateway), topic)
    ensures Guarded(Finish(g, id, BadGateway), topic)
  {
    var (v, _) := PublishFor(env, codec, topic, g, id);
    assert RequestRight(g, topic, g.requests[id]);
    PublishRecords(env, codec, topic, g, id);
    WorldStep(g, topic, v);
    FinishStep(g.(world := v), topic, id, BadGateway);
    FinishStep(g, topic, id, BadGateway);
  }

  lemma AcquireStep(g: Gateway, topic: string, id: nat)
    requires Guarded(g, topic) && IsAt(g, id, Waiting) && g.lock.None?
    ensures Guarded(Enter(g.(lock := Some(id)), id, Checking), topic)
  {
    var h := Enter(g.(lock := Some(id)), id, Checking);
    forall i | i in h.requests ensures RequestRight(h, topic, h.requests[i]) {
      assert RequestRight(g, topic, g.requests[i]);
    }
    AnswersStay(g, h, topic);
  }

  lemma CheckStep(g: Gateway, topic: string, id: nat)
    requires Guarded(g, topic) && IsAt(g, id, Checking)
    ensures Guarded(DoCheck(g, id), topic)
  {
    var key := g.requests[id].key;
    assert RequestRight(g, topic, g.requests[id]);
    if key in g.byKey {
      FinishStep(g, topic, id, Queued(g.byKey[key], true));
    } else {
      EnterStep(g, topic, id, Publishing);
    }
  }

  lemma OwnGuarded(env: Env, codec: Codec, topic: string, g: Gateway, s: Step)
    requires Valid(g.world) && Guarded(g, topic)
    ensures Valid(TakeOwn(env, codec, topic, g, s).world) && Guarded(TakeOwn(env, codec, topic, g, s), topic)
  {
    match s {
      case Arrive(id, key, body) => ArriveStep(codec, g, topic, id, key, body);
      case Acquire(id) => if IsAt(g, id, Waiting) && g.lock.None? { AcquireStep(g, topic, id); }
      case Check(id) => if IsAt(g, id, Checking) { CheckStep(g, topic, id); }
      case Publish(id) => if IsAt(g, id, Publishing) { PublishStep(env, codec, topic, g, id); }
      case FailPublish(id, _) => if IsAt(g, id, Publishing) { FailStep(env, codec, topic, g, id); }
      case Insert(id) => if IsAt(g, id, Inserting) { InsertStep(g, topic, id); }
      case Abandon(id) => DropStep(g, topic, id);
      case Restart => RestartStep(g, topic);
      case Other(_) =>
    }
  }

  lemma TakeGuarded(env: Env, codec: Codec, topic: string, g: Gateway, s: Step)
    requires Valid(g.world) && Guarded(g, topic)
    ensures Valid(Take(env, codec, topic, g, s).world) && Guarded(Take(env, codec, topic, g, s), topic)
  {
    if s.Other? {
      var v := Apply(env, g.world, s.call).0;
      CallContinues(env, g.world, s.call, v);
      WorldStep(g, topic, v);
    } else {
      OwnGuarded(env, codec, topic, g, s);
    }
  }

  // ----- The answers given -----

  ghost predicate SameResult(a: Answer, b: Answer) {
    a.key == b.key && a.life == b.life && a.response.Queued? && b.response.Queued? ==>
      a.response.result == b.response.result
  }

  /** In each life, the OK answers for a key are one original and replays of the same result. */
  ghost predicate Consistent(answers: seq<Answer>) {
    && (forall p :: 0 <= p < |answers| && answers[p].response.Queued? ==>
          Originals(answers, answers[p].key, answers[p].life) == 1)
    && (forall p, q :: 0 <= p < q < |answers| ==> SameResult(answers[p], answers[q]))
  }

  /** An answer the gateway may give now: a replay of the recorded result, or the first one. */
  ghost predicate Fits(g: Gateway, a: Answer) {
    a.response.Queued? ==>
      && a.life == g.life
      && (if a.response.replay then a.key in g.byKey && a.response.result == g.byKey[a.key] else a.key !in g.byKey)
  }

  lemma OwnAnswers(env: Env, codec: Codec, topic: string, g: Gateway, s: Step)
    requires Guarded(g, topic)
    ensures var answers := TakeOwn(env, codec, topic, g, s).answers;
            || answers == g.answers
            || (|answers| == |g.answers| + 1 && answers[..|g.answers|] == g.answers && Fits(g, answers[|g.answers|]))
  {
    if s.Insert? && IsAt(g, s.id, Inserting) {
      assert RequestRight(g, topic, g.requests[s.id]);
    }
  }

  lemma ConsistentAppend(g: Gateway, topic: string, a: Answer)
    requires Guarded(g, topic) && Consistent(g.answers) && Fits(g, a)
    ensures Consistent(g.answers + [a])
  {
    OriginalsAppend(g.answers, a);
    var more := g.answers + [a];
    forall p | 0 <= p < |g.answers| ensures AnswerRight(g, topic, more[p]) && SameResult(more[p], a) {
      assert AnswerRight(g, topic, g.answers[p]);
    }
    forall p | 0 <= p < |more| && more[p].response.Queued?
      ensures Originals(more, more[p].key, more[p].life) == 1
    {
      assert p < |g.answers| ==> more[p] == g.answers[p];
    }
  }

  lemma OwnConsistent(env: Env, codec: Codec, topic: string, g: Gateway, s: Step)
    requires Guarded(g, topic) && Consistent(g.answers)
    ensures Consistent(TakeOwn(env, codec, topic, g, s).answers)
  {
    var answers := TakeOwn(env, codec, topic, g, s).answers;
    OwnAnswers(env, codec, topic, g, s);
    if answers != g.answers {
      ConsistentAppend(g, topic, answers[|g.answers|]);
      assert answers == g.answers + [answers[|g.answers|]];
    }
  }

  // ----- Runs -----

  /** The gateway after any steps, from any broker. */
  ghost function After(env: Env, codec: Codec, topic: string, w: World, steps: seq<Step>): (g: Gateway)
    requires Valid(w)
    ensures Valid(g.world) && Guarded(g, topic) && Consistent(g.answers)
    decreases |steps|
  {
    if steps == [] then Gateway(w, map[], None, map[], [], 0)
    else
      var g := After(env, codec, topic, w, steps[..|steps| - 1]);
      TakeGuarded(env, codec, topic, g, steps[|steps| - 1]);
      OwnConsistent(env, codec, topic, g, steps[|steps| - 1]);
      Take(env, codec, topic, g, steps[|steps| - 1])
  }

  /** The topic's log has a message that was given the key as its generated id. */
  ghost predicate GeneratedAt(w: World, topic: string, key: string) {
    topic in w.state.topics && GeneratedHere(w.state.topics[topic], key)
  }

  /** What the invariant says of one key. */
  lemma GuardedOnce(g: Gateway, topic: string, key: string)
    requires Valid(g.world) && Guarded(g, topic)
    ensures Count(LogOf(g.world.state.topics, topic), key)
         == (if Seen(g.world, topic, key) then 1 else 0) + (if GeneratedAt(g.world, topic, key) then 1 else 0)
    ensures GeneratedAt(g.world, topic, key) ==> IsUuid(key)
    ensures forall p :: 0 <= p < |g.answers| && g.answers[p].key == key && g.answers[p].response.Queued? ==>
              Seen(g.world, topic, key)
  {
    if topic in g.world.state.topics {
      ClientIdsOnce(g.world, topic, key);
    }
    forall p | 0 <= p < |g.answers| && g.answers[p].key == key && g.answers[p].response.Queued?
      ensures Seen(g.world, topic, key)
    {
      assert AnswerRight(g, topic, g.answers[p]);
    }
  }

  /** At most once, over every interleaving, failure and restart: the topic has two messages under
      one idempotency key if and only if a client has published under the key and the key is also
      the generated id of one of its messages; otherwise at most one, and exactly one if the key was
      ever answered OK. */
  lemma AtMostOnce(env: Env, codec: Codec, topic: string, w: World, steps: seq<Step>, key: string)
    requires Valid(w)
    ensures var g := After(env, codec, topic, w, steps);
            var log, generated := LogOf(g.world.state.topics, topic), GeneratedAt(g.world, topic, key);
            && (Count(log, key) <= 1 <==> !(Seen(g.world, topic, key) && generated))
            && (forall p :: 0 <= p < |g.answers| && g.answers[p].key == key && g.answers[p].response.Queued? ==>
                  (Count(log, key) == 1 <==> !generated))
            && (generated ==> IsUuid(key))
  {
    GuardedOnce(After(env, codec, topic, w, steps), topic, key);
  }

  /** What two OK answers for one key have in common. */
  ghost predicate Agree(a: Answer, b: Answer) {
    a.key == b.key && a.response.Queued? && b.response.Queued? ==>
      && a.response.result.providerId == b.response.result.providerId
      && (a.life == b.life ==> a.response.result == b.response.result)
  }

  /** All OK answers for one key name the same provider id, whatever happened in between; with no
      restart in between they are the same result, and exactly one answer of that life is not a
      replay. */
  lemma AnswersAgree(env: Env, codec: Codec, topic: string, w: World, steps: seq<Step>)
    requires Valid(w)
    ensures var answers := After(env, codec, topic, w, steps).answers;
            && (forall p, q :: 0 <= p < q < |answers| ==> Agree(answers[p], answers[q]))
            && (forall p :: 0 <= p < |answers| && answers[p].response.Queued? ==>
                  Originals(answers, answers[p].key, answers[p].life) == 1)
  {
    var g := After(env, codec, topic, w, steps);
    forall p, q | 0 <= p < q < |g.answers| ensures Agree(g.answers[p], g.answers[q]) {
      assert AnswerRight(g, topic, g.answers[p]);
      assert AnswerRight(g, topic, g.answers[q]);
      assert SameResult(g.answers[p], g.answers[q]);
    }
  }

  /** A request whose message the broker accepts adds that message to the topic if, and only if,
      its key had not been seen; otherwise the topic stays as it was, whatever the request asked. */
  lemma OwnMessageIffUnseen(env: Env, codec: Codec, topic: string, g: Gateway, id: nat)
    requires id in g.requests && g.requests[id].key != ""
    requires PublishFor(env, codec, topic, g, id).1.Published?
    ensures var r := g.requests[id];
            StoresAction(codec, topic, g.world, r.key, r.input, PublishFor(env, codec, topic, g, id).0)
  {
    PublishedAction(env, codec, topic, g.world, g.requests[id].key, g.requests[id].input);
  }

  // ----- One request on its own -----

  function TakeAll(env: Env, codec: Codec, topic: string, g: Gateway, steps: seq<Step>): Gateway
    decreases |steps|
  {
    if steps == [] then g else TakeAll(env, codec, topic, TakeOwn(env, codec, topic, g, steps[0]), steps[1..])
  }

  lemma TakeFirst(env: Env, codec: Codec, topic: string, g: Gateway, s: Step, rest: seq<Step>)
    ensures TakeAll(env, codec, topic, g, [s] + rest)
         == TakeAll(env, codec, topic, TakeOwn(env, codec, topic, g, s), rest)
  {
    assert ([s] + rest)[1..] == rest;
  }

  /** From the check on. */
  function Finishing(id: nat): seq<Step> {
    [Check(id)] + ([Step.Publish(id)] + ([Insert(id)] + []))
  }

  /** The five steps of a request that nothing interrupts. */
  function Alone(id: nat, key: Option<string>, body: Bytes): seq<Step> {
    [Arrive(id, key, body)] + ([Acquire(id)] + Finishing(id))
  }

  lemma FinishingReplay(env: Env, codec: Codec, topic: string, g: Gateway, id: nat)
    requires IsAt(g, id, Checking) && g.requests[id].key in g.byKey
    ensures TakeAll(env, codec, topic, g, Finishing(id))
         == Finish(g, id, Queued(g.byKey[g.requests[id].key], true))
  {
    var g1 := DoCheck(g, id);
    TakeFirst(env, codec, topic, g, Check(id), [Step.Publish(id)] + ([Insert(id)] + []));
    TakeFirst(env, codec, topic, g1, Step.Publish(id), [Insert(id)] + []);
    TakeFirst(env, codec, topic, g1, Insert(id), []);
  }

  lemma FinishingPublish(env: Env, codec: Codec, topic: string, g: Gateway, id: nat)
    requires IsAt(g, id, Checking) && g.requests[id].key !in g.byKey
    ensures TakeAll(env, codec, topic, g, Finishing(id))
         == (var h := DoPublishStep(env, codec, topic, g, id); if id in h.requests then DoInsert(h, id) else h)
  {
    var g1 := DoCheck(g, id);
    var h := DoPublishStep(env, codec, topic, g, id);
    assert DoPublishStep(env, codec, topic, g1, id) == h;
    TakeFirst(env, codec, topic, g, Check(id), [Step.Publish(id)] + ([Insert(id)] + []));
    TakeFirst(env, codec, topic, g1, Step.Publish(id), [Insert(id)] + []);
    TakeFirst(env, codec, topic, h, Insert(id), []);
  }

  lemma FinishingIs(env: Env, codec: Codec, topic: string, g: Gateway, id: nat)
    requires IsAt(g, id, Checking)
    ensures var r := g.requests[id];
            var (byKey, w, response) := HandleInput(env, codec, topic, g.byKey, g.world, r.key, r.input);
            TakeAll(env, codec, topic, g, Finishing(id)) == Finish(g.(byKey := byKey, world := w), id, response)
  {
    if g.requests[id].key in g.byKey {
      FinishingReplay(env, codec, topic, g, id);
    } else {
      FinishingPublish(env, codec, topic, g, id);
    }
  }

  /** A request that nothing interrupts is handled as the method handles it. */
  lemma AloneIsHandle(env: Env, codec: Codec, topic: string, g: Gateway, id: nat, key: Option<string>, body: Bytes)
    requires g.lock.None? && id !in g.requests && Read(codec, key, body).Some?
    ensures var (byKey, w, response) := Handle(env, codec, topic, g.byKey, g.world, key, body);
            var h := TakeAll(env, codec, topic, g, Alone(id, key, body));
            h == g.(byKey := byKey, world := w, answers := g.answers + [Answer(key.value, response, g.life)])
  {
    var g1 := DoArrive(codec, g, id, key, body);
    TakeFirst(env, codec, topic, g, Arrive(id, key, body), [Acquire(id)] + Finishing(id));
    TakeFirst(env, codec, topic, g1, Acquire(id), Finishing(id));
    FinishingIs(env, codec, topic, Enter(g1.(lock := Some(id)), id, Checking), id);
  }
}
