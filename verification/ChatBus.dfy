/**
 Several hub instances joined by a publish/subscribe bus. A control broadcast is delivered locally and
 published; every instance, the origin included, gets the publication once, and skips its own echo.
 */
module ChatBus {
  import opened Options
  import opened ChatPresence

  /** A JSON value, as far as the hub looks into it. */
  datatype Value = Text(text: string) | ChatId(chat: Chat) | InstanceId(instance: nat) | Object | List | Other

  type Payload = map<string, Value>

  /** A message on the control channel, or on the events channel that the web application writes to. */
  datatype Message = Message(control: bool, payload: Payload)

  datatype Delivery = Delivery(message: nat, instance: nat, socket: Socket, payload: Payload)

  /**
   `handled` records which instance has taken which publication off the bus, which is once. `reach`
   records the sockets that were joined to the message's chat when an instance was due to deliver it.
   */
  datatype System = System(
    hubs: seq<Presence>,
    messages: seq<Message>,
    published: set<nat>,
    handled: set<(nat, nat)>,
    delivered: seq<Delivery>,
    reach: map<(nat, nat), set<Socket>>)

  function Audience(m: Presence, chat: Chat): set<Socket> {
    set pair | pair in m.joined && pair.1 == chat :: pair.0
  }

  predicate Enumerates(recipients: seq<Socket>, audience: set<Socket>) {
    && (forall ws :: ws in recipients ==> ws in audience)
    && (forall ws :: ws in audience ==> ws in recipients)
    && forall i, j :: 0 <= i < j < |recipients| ==> recipients[i] != recipients[j]
  }

  /** `local_deliver`: the internal field is stripped before anything reaches a socket. */
  function Wire(payload: Payload): (wire: Payload)
    ensures "instance" !in wire
  {
    payload - {"instance"}
  }

  function LocalDeliver(s: System, m: nat, i: nat, chat: Chat, recipients: seq<Socket>): System
    requires m < |s.messages| && i < |s.hubs|
  {
    var sent := seq(|recipients|, k requires 0 <= k < |recipients| =>
      Delivery(m, i, recipients[k], Wire(s.messages[m].payload)));
    s.(delivered := s.delivered + sent, reach := s.reach[(m, i) := Audience(s.hubs[i], chat)])
  }

  predicate Has(payload: Payload, key: string, value: Value) {
    key in payload && payload[key] == value
  }

  /** The chat a message names, unless it names none or an empty one. */
  function Target(payload: Payload): Option<Chat> {
    if "chatId" in payload && payload["chatId"].ChatId? && payload["chatId"].chat != 0
      then Some(payload["chatId"].chat) else None
  }

  /** What the pump of instance i lets through: no echo, no unknown type, no malformed message event. */
  predicate Relays(m: Message, i: nat) {
    && Target(m.payload).Some?
    && if m.control then
         && !Has(m.payload, "instance", InstanceId(i))
         && (Has(m.payload, "type", Text("typing")) || Has(m.payload, "type", Text("presence")))
       else
         || ((Has(m.payload, "type", Text("message")) || Has(m.payload, "type", Text("message_update")))
            && Has(m.payload, "message", Object))
         || (Has(m.payload, "type", Text("messages_read")) && Has(m.payload, "messageIds", List))
  }

  /** `broadcast_control` stamps its own chat and instance over whatever the event carried. */
  function Stamp(event: Payload, chat: Chat, i: nat): Payload {
    event["chatId" := ChatId(chat)]["instance" := InstanceId(i)]
  }

  datatype Step =
    | Local(i: nat, op: Op)
    | Broadcast(i: nat, chat: Chat, event: Payload, recipients: seq<Socket>)
    | External(payload: Payload)
    | Publish(m: nat)
    | Handle(m: nat, i: nat, recipients: seq<Socket>)

  /** Publishing is a step of its own, after the local delivery, and may never happen. */
  function Apply(s: System, step: Step): System {
    match step
    case Local(i, op) =>
      if i >= |s.hubs| then s else s.(hubs := s.hubs[i := Next(s.hubs[i], op)])
    case Broadcast(i, chat, event, recipients) =>
      if i >= |s.hubs| || !Enumerates(recipients, Audience(s.hubs[i], chat)) then s
      else
        var sent := s.(messages := s.messages + [Message(true, Stamp(event, chat, i))]);
        LocalDeliver(sent, |s.messages|, i, chat, recipients)
    case External(payload) =>
      s.(messages := s.messages + [Message(false, payload)], published := s.published + {|s.messages|})
    case Publish(m) =>
      if m >= |s.messages| then s else s.(published := s.published + {m})
    case Handle(m, i, recipients) =>
      if m >= |s.messages| || i >= |s.hubs| || m !in s.published || (m, i) in s.handled then s
      else if !Relays(s.messages[m], i) then s.(handled := s.handled + {(m, i)})
      else if !Enumerates(recipients, Audience(s.hubs[i], Target(s.messages[m].payload).value)) then s
      else LocalDeliver(s.(handled := s.handled + {(m, i)}), m, i, Target(s.messages[m].payload).value, recipients)
  }

  function Run(s: System, steps: seq<Step>): System
    decreases |steps|
  {
    if steps == [] then s else Apply(Run(s, steps[..|steps| - 1]), steps[|steps| - 1])
  }

  function Init(hubs: seq<Presence>): System {
    System(hubs, [], {}, {}, [], map[])
  }

  // ---------- Deliveries counted ----------

  function Count(log: seq<Delivery>, m: nat, i: nat, ws: Socket): nat {
    if log == [] then 0
    else Count(log[..|log| - 1], m, i, ws)
         + (var d := log[|log| - 1]; if d.message == m && d.instance == i && d.socket == ws then 1 else 0)
  }

  lemma {:induction false} CountAppend(a: seq<Delivery>, b: seq<Delivery>, m: nat, i: nat, ws: Socket)
    ensures Count(a + b, m, i, ws) == Count(a, m, i, ws) + Count(b, m, i, ws)
    decreases |b|
  {
    if b == [] {
      assert a + b == a;
    } else {
      assert (a + b)[..|a + b| - 1] == a + b[..|b| - 1];
      CountAppend(a, b[..|b| - 1], m, i, ws);
    }
  }

  /** One round over distinct recipients reaches each of them once and nobody else. */
  lemma {:induction false} CountRound(sent: seq<Delivery>, m: nat, i: nat, ws: Socket)
    requires forall k :: 0 <= k < |sent| ==> sent[k].message == m && sent[k].instance == i
    requires forall k, l :: 0 <= k < l < |sent| ==> sent[k].socket != sent[l].socket
    ensures Count(sent, m, i, ws) == if exists k :: 0 <= k < |sent| && sent[k].socket == ws then 1 else 0
    ensures forall m', i' :: m' != m || i' != i ==> Count(sent, m', i', ws) == 0
  {
    if sent != [] {
      var n := |sent| - 1;
      CountRound(sent[..n], m, i, ws);
      if sent[n].socket == ws {
        assert forall k :: 0 <= k < n ==> sent[..n][k].socket != ws;
      } else if k :| 0 <= k < |sent| && sent[k].socket == ws {
        assert sent[..n][k].socket == ws;
      }
    }
  }

  predicate Reaches(s: System, m: nat, i: nat, ws: Socket) {
    (m, i) in s.reach && ws in s.reach[(m, i)]
  }

  /** A control message carries the stamp of the instance that broadcast it. */
  predicate FromHere(m: Message, i: nat) {
    m.control && Has(m.payload, "instance", InstanceId(i))
  }

  ghost predicate Inv(s: System) {
    && (forall m: nat, i: nat, ws :: Count(s.delivered, m, i, ws) == if Reaches(s, m, i, ws) then 1 else 0)
    && (forall m: nat, i: nat :: (m, i) in s.reach ==>
          && m < |s.messages| && i < |s.hubs|
          && (FromHere(s.messages[m], i) || ((m, i) in s.handled && Relays(s.messages[m], i))))
    && (forall m: nat, i: nat :: (m, i) in s.handled ==> m in s.published && m < |s.messages|)
    && (forall k :: 0 <= k < |s.delivered| ==>
          && s.delivered[k].message < |s.messages|
          && s.delivered[k].payload == Wire(s.messages[s.delivered[k].message].payload))
  }

  /** One local delivery adds exactly one for each recipient to the counts of its message and instance. */
  lemma LocalDeliverCounts(s: System, m: nat, i: nat, chat: Chat, recipients: seq<Socket>, m': nat, i': nat, ws: Socket)
    requires m < |s.messages| && i < |s.hubs| && Enumerates(recipients, Audience(s.hubs[i], chat))
    ensures Count(LocalDeliver(s, m, i, chat, recipients).delivered, m', i', ws)
            == Count(s.delivered, m', i', ws) + if m' == m && i' == i && ws in recipients then 1 else 0
  {
    var t := LocalDeliver(s, m, i, chat, recipients);
    var sent := t.delivered[|s.delivered|..];
    assert t.delivered == s.delivered + sent;
    CountAppend(s.delivered, sent, m', i', ws);
    CountRound(sent, m, i, ws);
    if ws in recipients {
      var k :| 0 <= k < |recipients| && recipients[k] == ws;
      assert sent[k].socket == ws;
    }
  }

  lemma LocalDeliverKeepsInv(s: System, m: nat, i: nat, chat: Chat, recipients: seq<Socket>)
    requires m < |s.messages| && i < |s.hubs| && Inv(s) && (m, i) !in s.reach
    requires Enumerates(recipients, Audience(s.hubs[i], chat))
    requires FromHere(s.messages[m], i) || ((m, i) in s.handled && Relays(s.messages[m], i))
    ensures Inv(LocalDeliver(s, m, i, chat, recipients))
  {
    var t := LocalDeliver(s, m, i, chat, recipients);
    forall m': nat, i': nat, ws
      ensures Count(t.delivered, m', i', ws) == if Reaches(t, m', i', ws) then 1 else 0
    {
      LocalDeliverCounts(s, m, i, chat, recipients, m', i', ws);
      assert Reaches(t, m, i, ws) <==> ws in recipients;
    }
  }

  lemma StepKeepsInv(s: System, step: Step)
    requires Inv(s)
    ensures Inv(Apply(s, step))
  {
    match step
    case Broadcast(i, chat, event, recipients) =>
      if i < |s.hubs| && Enumerates(recipients, Audience(s.hubs[i], chat)) {
        var sent := s.(messages := s.messages + [Message(true, Stamp(event, chat, i))]);
        LocalDeliverKeepsInv(sent, |s.messages|, i, chat, recipients);
      }
    case Handle(m, i, recipients) =>
      if m < |s.messages| && i < |s.hubs| && m in s.published && (m, i) !in s.handled && Relays(s.messages[m], i) {
        var chat := Target(s.messages[m].payload).value;
        if Enumerates(recipients, Audience(s.hubs[i], chat)) {
          LocalDeliverKeepsInv(s.(handled := s.handled + {(m, i)}), m, i, chat, recipients);
        }
      }
    case _ =>
  }

  lemma {:induction false} RunKeepsInv(hubs: seq<Presence>, steps: seq<Step>)
    ensures Inv(Run(Init(hubs), steps))
    decreases |steps|
  {
    if steps != [] {
      RunKeepsInv(hubs, steps[..|steps| - 1]);
      StepKeepsInv(Run(Init(hubs), steps[..|steps| - 1]), steps[|steps| - 1]);
    }
  }

  // ---------- What a broadcast reaches ----------

  /** No message reaches any socket twice, and nothing that reaches one carries the internal field. */
  lemma DeliveredAtMostOnce(hubs: seq<Presence>, steps: seq<Step>)
    ensures forall m: nat, i: nat, ws :: Count(Run(Init(hubs), steps).delivered, m, i, ws) <= 1
    ensures forall k :: 0 <= k < |Run(Init(hubs), steps).delivered| ==>
              "instance" !in Run(Init(hubs), steps).delivered[k].payload
  {
    RunKeepsInv(hubs, steps);
  }

  /**
   A broadcast from instance i at the end of `before` reaches, over the whole later run, exactly once
   every socket joined on i at that moment, and nobody else on i: the echo adds nothing.
   */
  lemma OriginReachedOnce(hubs: seq<Presence>, before: seq<Step>, i: nat, chat: Chat, event: Payload,
                          recipients: seq<Socket>, more: seq<Step>, ws: Socket)
    requires i < |Run(Init(hubs), before).hubs|
    requires Enumerates(recipients, Audience(Run(Init(hubs), before).hubs[i], chat))
    ensures
      var s := Run(Init(hubs), before);
      Count(Run(Init(hubs), before + [Broadcast(i, chat, event, recipients)] + more).delivered, |s.messages|, i, ws)
      == if (ws, chat) in s.hubs[i].joined then 1 else 0
  {
    var s := Run(Init(hubs), before);
    var first := before + [Broadcast(i, chat, event, recipients)];
    assert first[..|first| - 1] == before;
    RunKeepsInv(hubs, before);
    RunKeepsInv(hubs, first);
    RunKeepsInv(hubs, first + more);
    ReachIsFixed(hubs, first, more, |s.messages|, i);
    assert Reaches(Run(Init(hubs), first), |s.messages|, i, ws) <==> (ws, chat) in s.hubs[i].joined by {
      assert (ws, chat) in s.hubs[i].joined ==> ws in Audience(s.hubs[i], chat);
    }
  }

  /**
   On another instance the publication reaches exactly once every socket joined there when the
   instance handles it, if it is typing or presence for a named chat, and otherwise nobody.
   */
  lemma RelayReachedOnce(hubs: seq<Presence>, before: seq<Step>, m: nat, i: nat, recipients: seq<Socket>,
                         more: seq<Step>, ws: Socket)
    requires
      var s := Run(Init(hubs), before);
      && m < |s.messages| && i < |s.hubs| && m in s.published && (m, i) !in s.handled && !FromHere(s.messages[m], i)
      && (Relays(s.messages[m], i) ==> Enumerates(recipients, Audience(s.hubs[i], Target(s.messages[m].payload).value)))
    ensures
      var s := Run(Init(hubs), before);
      Count(Run(Init(hubs), before + [Handle(m, i, recipients)] + more).delivered, m, i, ws)
      == if Relays(s.messages[m], i) && (ws, Target(s.messages[m].payload).value) in s.hubs[i].joined then 1 else 0
  {
    var s := Run(Init(hubs), before);
    var first := before + [Handle(m, i, recipients)];
    assert first[..|first| - 1] == before;
    RunKeepsInv(hubs, before);
    RunKeepsInv(hubs, first);
    RunKeepsInv(hubs, first + more);
    ReachIsFixed(hubs, first, more, m, i);
    if Relays(s.messages[m], i) {
      var chat := Target(s.messages[m].payload).value;
      assert Reaches(Run(Init(hubs), first), m, i, ws) <==> (ws, chat) in s.hubs[i].joined by {
        assert (ws, chat) in s.hubs[i].joined ==> ws in Audience(s.hubs[i], chat);
      }
    } else {
      assert (m, i) !in s.reach;
    }
  }

  predicate Settled(s: System, m: nat, i: nat) {
    m < |s.messages| && ((m, i) in s.reach || (m, i) in s.handled)
  }

  predicate SameReach(a: System, b: System, m: nat, i: nat) {
    ((m, i) in a.reach <==> (m, i) in b.reach) && ((m, i) in a.reach ==> b.reach[(m, i)] == a.reach[(m, i)])
  }

  lemma StepFixesReach(s: System, step: Step, m: nat, i: nat)
    requires Inv(s) && Settled(s, m, i)
    ensures Settled(Apply(s, step), m, i) && SameReach(s, Apply(s, step), m, i)
  {
  }

  lemma {:induction false} RunFixesReach(s: System, more: seq<Step>, m: nat, i: nat)
    requires Inv(s) && Settled(s, m, i)
    ensures Inv(Run(s, more)) && Settled(Run(s, more), m, i) && SameReach(s, Run(s, more), m, i)
    decreases |more|
  {
    if more != [] {
      var before := Run(s, more[..|more| - 1]);
      RunFixesReach(s, more[..|more| - 1], m, i);
      StepKeepsInv(before, more[|more| - 1]);
      StepFixesReach(before, more[|more| - 1], m, i);
    }
  }

  lemma {:induction false} RunSplits(s: System, first: seq<Step>, rest: seq<Step>)
    ensures Run(s, first + rest) == Run(Run(s, first), rest)
    decreases |rest|
  {
    if rest == [] {
      assert first + rest == first;
    } else {
      RunSplits(s, first, rest[..|rest| - 1]);
      assert (first + rest)[..|first + rest| - 1] == first + rest[..|rest| - 1];
    }
  }

  /** Once an instance has had its turn with a message, its audience is settled. */
  lemma ReachIsFixed(hubs: seq<Presence>, before: seq<Step>, more: seq<Step>, m: nat, i: nat)
    requires Settled(Run(Init(hubs), before), m, i)
    ensures Settled(Run(Init(hubs), before + more), m, i)
    ensures SameReach(Run(Init(hubs), before), Run(Init(hubs), before + more), m, i)
  {
    RunKeepsInv(hubs, before);
    RunFixesReach(Run(Init(hubs), before), more, m, i);
    RunSplits(Init(hubs), before, more);
  }
}
