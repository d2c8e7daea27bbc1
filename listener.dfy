/**
 * The listening role (RabbitService.cs): it resolves its settings, declares the
 * exchange and the queue, starts consuming with manual acknowledgement and binds
 * the queue to the exchange under the routing key. Its two event handlers
 * acknowledge each delivery and unbind the queue on shutdown.
 */
module Listener {
  import opened Encoding
  import opened Settings
  import opened Broker
  import Sender

  /** The consumer tag the listener asks the broker for. */
  const ConsumerTag := "Queue"

  /** Consuming from the queue: manual acknowledgement, no local deliveries, not exclusive. */
  function Consumption(queue: string): (op: Op)
    ensures op.BasicConsume? && op.queue == queue && !op.autoAck && op.consumerTag == ConsumerTag
    ensures op.noLocal && !op.exclusive
  {
    BasicConsume(queue, false, ConsumerTag, true, false)
  }

  function Binding(t: Topology): Op
  {
    QueueBind(t.queue, t.exchange, t.routingKey)
  }

  function Unbinding(t: Topology): Op
  {
    QueueUnbind(t.queue, t.exchange, t.routingKey)
  }

  /** Acknowledging a delivery together with every earlier unacknowledged one. */
  function Acknowledgement(tag: nat): Op
  {
    BasicAck(tag, true)
  }

  /** What the broker records for a listener start in which no call raises. */
  function ListenerOps(t: Topology): seq<Op>
  {
    [ExchangeDeclaration(t.exchange), QueueDeclaration(t.queue), Consumption(t.queue), Binding(t)]
  }

  /**
   * The calls startService makes inside its try block, up to the console wait:
   * the declarations, the consume, the bind; without a raise the broker records
   * exactly those four operations.
   */
  function ListenerPlan(t: Topology): (p: seq<Call>)
    ensures |p| == 5 && p[..3] == DeclarePlan(t)
    ensures Records(p) == ListenerOps(t)
  {
    var rest := [Invoke(Consumption(t.queue)), Invoke(Binding(t))];
    RecordsAppend(DeclarePlan(t), rest);
    assert rest[1..][1..] == [];
    DeclarePlan(t) + rest
  }

  /** The consume and the bind, in that order, in the same try block. */
  lemma ConsumeThenBind(t: Topology, k: nat, faults: set<nat>)
    ensures Run([Invoke(Consumption(t.queue)), Invoke(Binding(t))], k, faults) ==
              if k in faults then Outcome(false, [], k + 1)
              else if k + 1 in faults then Outcome(false, [Consumption(t.queue)], k + 2)
              else Outcome(true, [Consumption(t.queue), Binding(t)], k + 2)
  {
    var consume, bind := Invoke(Consumption(t.queue)), Invoke(Binding(t));
    assert [consume, bind] == [consume] + [bind] && [bind] == [bind] + [];
    RunCons(consume, [bind], k, faults);
    RunCons(bind, [], k + 1, faults);
  }

  /** A listener start, case by case on which of its five calls raises first. */
  lemma ListenerCases(t: Topology, k: nat, faults: set<nat>)
    ensures var declare, declareQueue, consume := ExchangeDeclaration(t.exchange), QueueDeclaration(t.queue), Consumption(t.queue);
            Run(ListenerPlan(t), k, faults) ==
              if k in faults then Outcome(false, [], k + 1)
              else if k + 1 in faults then Outcome(false, [], k + 2)
              else if k + 2 in faults then Outcome(false, [declare], k + 3)
              else if k + 3 in faults then Outcome(false, [declare, declareQueue], k + 4)
              else if k + 4 in faults then Outcome(false, [declare, declareQueue, consume], k + 5)
              else Outcome(true, [declare, declareQueue, consume, Binding(t)], k + 5)
  {
    DeclareThen(t, [Invoke(Consumption(t.queue)), Invoke(Binding(t))], k, faults);
    ConsumeThenBind(t, k + 3, faults);
  }

  /**
   * Whatever the faults, a listener start records a prefix of the four
   * operations, in order: the declarations, the consume, the bind. The queue is
   * bound exactly when every call succeeded, so it is never bound without a
   * consumer, and the start completes exactly when none of its five calls raises.
   */
  lemma ListenerTrace(t: Topology, k: nat, faults: set<nat>)
    ensures var r := Run(ListenerPlan(t), k, faults);
            && |r.accepted| <= 4
            && r.accepted == ListenerOps(t)[..|r.accepted|]
            && (r.completed <==> |r.accepted| == 4)
            && (r.completed ==> r.accepted == ListenerOps(t))
            && (r.completed <==> Binding(t) in r.accepted)
            && (r.completed <==> forall j :: k <= j < k + 5 ==> j !in faults)
  {
    ListenerCases(t, k, faults);
  }

  /** A message the consumer receives: the broker's delivery tag and the raw body. */
  datatype Delivery = Delivery(deliveryTag: nat, body: seq<byte>)

  /** The consumer events the listener handles. */
  datatype Event = Received(delivery: Delivery) | Shutdown

  /** The one channel operation the handler of `e` makes. */
  function Reaction(t: Topology, e: Event): Op
  {
    match e
    case Received(d) => Acknowledgement(d.deliveryTag)
    case Shutdown => Unbinding(t)
  }

  /**
   * The records a sequence of handled events leaves, the first handler's call
   * being call number `k`. A handler whose call raises records nothing; the
   * exception reaches the client library, not startService, and later events are
   * still handled.
   */
  function Handle(t: Topology, events: seq<Event>, k: nat, faults: set<nat>): (r: seq<Op>)
    ensures |r| <= |events|
    decreases |events|
  {
    if events == [] then []
    else (if k in faults then [] else [Reaction(t, events[0])]) + Handle(t, events[1..], k + 1, faults)
  }

  /** The delivery tags of the received messages, in order. */
  function Tags(events: seq<Event>): seq<nat>
    decreases |events|
  {
    if events == [] then []
    else (if events[0].Received? then [events[0].delivery.deliveryTag] else []) + Tags(events[1..])
  }

  /** The delivery tags a log acknowledges, in order. */
  function AckedTags(ops: seq<Op>): seq<nat>
    decreases |ops|
  {
    if ops == [] then []
    else (if ops[0].BasicAck? then [ops[0].deliveryTag] else []) + AckedTags(ops[1..])
  }

  /** Handling two runs of events one after the other is handling them together. */
  lemma {:induction false} HandleAppend(t: Topology, a: seq<Event>, b: seq<Event>, k: nat, faults: set<nat>)
    ensures Handle(t, a + b, k, faults) == Handle(t, a, k, faults) + Handle(t, b, k + |a|, faults)
    decreases |a|
  {
    if a == [] {
      assert a + b == b;
    } else {
      assert (a + b)[0] == a[0] && (a + b)[1..] == a[1..] + b;
      HandleAppend(t, a[1..], b, k + 1, faults);
    }
  }

  /**
   * When no handler call raises, every event leaves exactly its reaction, in
   * order, and the acknowledged tags are the delivered tags, in order.
   */
  lemma {:induction false} HandleWithoutFaults(t: Topology, events: seq<Event>, k: nat, faults: set<nat>)
    requires forall j :: k <= j < k + |events| ==> j !in faults
    ensures |Handle(t, events, k, faults)| == |events|
    ensures forall i :: 0 <= i < |events| ==> Handle(t, events, k, faults)[i] == Reaction(t, events[i])
    ensures AckedTags(Handle(t, events, k, faults)) == Tags(events)
    decreases |events|
  {
    if events != [] {
      HandleWithoutFaults(t, events[1..], k + 1, faults);
      var r := Handle(t, events, k, faults);
      assert r == [Reaction(t, events[0])] + Handle(t, events[1..], k + 1, faults);
      assert r[1..] == Handle(t, events[1..], k + 1, faults);
      forall i | 1 <= i < |events|
        ensures r[i] == Reaction(t, events[i])
      {
        assert r[i] == r[1..][i - 1];
      }
    }
  }

  /**
   * Whatever the faults, the handlers only acknowledge delivered messages, one
   * at a time with `multiple` set, or unbind the queue from the exchange under
   * the routing key; they never declare, bind, consume or publish.
   */
  lemma {:induction false} HandlersOnlyAckOrUnbind(t: Topology, events: seq<Event>, k: nat, faults: set<nat>)
    ensures forall op :: op in Handle(t, events, k, faults) ==>
              op == Unbinding(t) || (op.BasicAck? && op.multiple && op.deliveryTag in Tags(events))
    decreases |events|
  {
    if events != [] {
      HandlersOnlyAckOrUnbind(t, events[1..], k + 1, faults);
      var head := if events[0].Received? then [events[0].delivery.deliveryTag] else [];
      assert Tags(events) == head + Tags(events[1..]);
    }
  }

  /**
   * A listener start followed by its handled events: the queue is bound at most
   * once, every unbind names the resolved queue, exchange and routing key, and
   * any bind comes before any unbind. When the start completed, the bind is the
   * last setup record, so every unbind then follows a bind. (A start that raised
   * before the bind may still be followed by an unbind of a queue never bound.)
   */
  lemma ListenerSession(t: Topology, events: seq<Event>, k: nat, faults: set<nat>)
    ensures var r := Run(ListenerPlan(t), k, faults);
            var log := r.accepted + Handle(t, events, r.next, faults);
            && (forall j :: 0 <= j < |log| && log[j].QueueUnbind? ==> log[j] == Unbinding(t))
            && (forall i, j :: 0 <= i < |log| && 0 <= j < |log| && log[i].QueueBind? && log[j].QueueBind? ==> i == j)
            && (forall i, j :: 0 <= i < |log| && 0 <= j < |log| && log[i].QueueBind? && log[j].QueueUnbind? ==>
                  && i < j
                  && log[j].queue == log[i].queue
                  && log[j].exchange == log[i].exchange
                  && log[j].routingKey == log[i].routingKey)
            && (r.completed ==> |r.accepted| == 4 && log[3] == Binding(t))
  {
    var r := Run(ListenerPlan(t), k, faults);
    var handled := Handle(t, events, r.next, faults);
    var log := r.accepted + handled;
    ListenerTrace(t, k, faults);
    HandlersOnlyAckOrUnbind(t, events, r.next, faults);
    forall i | 0 <= i < |log|
      ensures log[i].QueueUnbind? ==> log[i] == Unbinding(t) && |r.accepted| <= i
      ensures log[i].QueueBind? ==> i == 3 && i < |r.accepted| && log[i] == Binding(t)
    {
      if i < |r.accepted| {
        assert log[i] == ListenerOps(t)[i];
      } else {
        assert log[i] == handled[i - |r.accepted|];
        assert log[i] in handled;
      }
    }
  }

  /**
   * A loop message the sender published is logged by the listener as the same
   * text exactly when its clock reading is ASCII: the sender encodes UTF-8 and
   * the listener decodes ASCII.
   */
  lemma LoopMessageReadBack(stamp: string)
    ensures AsciiDecode(Utf8Encode(Sender.LoopMessage(stamp))) == Sender.LoopMessage(stamp) <==> IsAscii(stamp)
  {
    var m := Sender.LoopMessage(stamp);
    var prefix := "This message sent on ";
    assert m == prefix + stamp;
    RoundTripExactlyOnAscii(m);
    assert IsAscii(prefix);
    if IsAscii(stamp) {
      forall i | 0 <= i < |m|
        ensures IsAsciiChar(m[i])
      {
        if i >= |prefix| {
          assert m[i] == stamp[i - |prefix|];
        }
      }
    } else {
      var i :| 0 <= i < |stamp| && !IsAsciiChar(stamp[i]);
      assert m[|prefix| + i] == stamp[i];
    }
  }

  /** The listener object: its settings fields and the connection factory it was given. */
  class RabbitService {
    const config: Configuration
    const factory: ConnectionFactory
    var exchangeName: string
    var queueName: string
    var routingKey: string

    /** The fields start out null, written "" here, until LoadSettings runs. */
    constructor (config: Configuration, factory: ConnectionFactory)
      ensures this.config == config && this.factory == factory
      ensures exchangeName == "" && queueName == "" && routingKey == ""
    {
      this.config := config;
      this.factory := factory;
      exchangeName, queueName, routingKey := "", "", "";
    }

    function CurrentTopology(): Topology
      reads this
    {
      Topology(exchangeName, queueName, routingKey)
    }

    method LoadSettings()
      modifies this`exchangeName, this`queueName, this`routingKey
      ensures CurrentTopology() == ResolveTopology(config)
    {
      exchangeName := GetString(config, ExchangeSetting);
      if exchangeName == "" {
        exchangeName := DefaultExchange;
      }
      queueName := GetString(config, QueueSetting);
      if queueName == "" {
        queueName := DefaultQueue;
      }
      routingKey := GetString(config, RoutingKeySetting);
      if routingKey == "" {
        routingKey := DefaultRoutingKey;
      }
    }

    /**
     * startService up to the console wait: settings are resolved first, then the
     * connection, the declarations, the consume and the bind run in one try block
     * whose exception is caught and logged.
     */
    method StartService()
      modifies this, factory
      ensures CurrentTopology() == ResolveTopology(config)
      ensures var r := Run(ListenerPlan(CurrentTopology()), old(factory.attempts), factory.faults);
              factory.log == old(factory.log) + r.accepted && factory.attempts == r.next
    {
      LoadSettings();
      Listen();
    }

    /** startService's try block, with the names currently held. */
    method Listen()
      modifies factory
      ensures var r := Run(ListenerPlan(CurrentTopology()), old(factory.attempts), factory.faults);
              factory.log == old(factory.log) + r.accepted && factory.attempts == r.next
    {
      ghost var t, k := CurrentTopology(), factory.attempts;
      ListenerCases(t, k, factory.faults);
      var ok := factory.Issue(Open);
      if !ok {
        return;
      }
      ok := factory.Issue(Invoke(ExchangeDeclaration(exchangeName)));
      if !ok {
        return;
      }
      ok := factory.Issue(Invoke(QueueDeclaration(queueName)));
      if !ok {
        return;
      }
      ok := factory.Issue(Invoke(Consumption(queueName)));
      if !ok {
        return;
      }
      ok := factory.Issue(Invoke(Binding(CurrentTopology())));
    }

    /**
     * The Received handler: the body is decoded as ASCII for the log, and the
     * delivery is acknowledged, with every earlier one, on the listener's channel.
     */
    method OnReceived(d: Delivery) returns (text: string, acked: bool)
      modifies factory
      ensures text == AsciiDecode(d.body)
      ensures acked == (old(factory.attempts) !in factory.faults)
      ensures factory.log == old(factory.log) + (if acked then [Acknowledgement(d.deliveryTag)] else [])
      ensures factory.log == old(factory.log) + Handle(CurrentTopology(), [Received(d)], old(factory.attempts), factory.faults)
      ensures factory.attempts == old(factory.attempts) + 1
    {
      text := AsciiDecode(d.body);
      acked := factory.Issue(Invoke(Acknowledgement(d.deliveryTag)));
    }

    /** The Shutdown handler: the queue is unbound from the exchange under the names currently held. */
    method OnShutdown() returns (unbound: bool)
      modifies factory
      ensures unbound == (old(factory.attempts) !in factory.faults)
      ensures factory.log == old(factory.log) + (if unbound then [Unbinding(CurrentTopology())] else [])
      ensures factory.log == old(factory.log) + Handle(CurrentTopology(), [Shutdown], old(factory.attempts), factory.faults)
      ensures factory.attempts == old(factory.attempts) + 1
    {
      unbound := factory.Issue(Invoke(Unbinding(CurrentTopology())));
    }
  }
}
