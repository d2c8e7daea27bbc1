/**
 * The publishing role (RabbitSender.cs): it resolves its settings, declares the
 * exchange and the queue, and publishes a timestamped message to the exchange
 * under the routing key once per interval; Send publishes one given message.
 */
module Sender {
  import opened Wrappers
  import opened Encoding
  import opened Settings
  import opened Broker

  /** The fixed text every loop message begins with. */
  const LoopPrefix := "This message sent on "

  /** The text of each loop message; `stamp` is the clock reading (DateTime.Now) as text. */
  function LoopMessage(stamp: string): (m: string)
    ensures |m| == |LoopPrefix| + |stamp|
    ensures m[..|LoopPrefix|] == LoopPrefix && m[|LoopPrefix|..] == stamp
  {
    LoopPrefix + stamp
  }

  function PublishCall(exchange: string, routingKey: string, message: string): Call
  {
    Invoke(BasicPublish(exchange, routingKey, Utf8Encode(message)))
  }

  /**
   * The calls Send makes for a non-empty message, all inside its try block: a
   * connection, then two channel operations; without a raise the broker records
   * the exchange declaration and then the publish of the message's UTF-8 bytes.
   */
  function SendPlan(exchange: string, routingKey: string, message: string): (p: seq<Call>)
    ensures |p| == 3 && p[0] == Open
    ensures Records(p) == [ExchangeDeclaration(exchange), BasicPublish(exchange, routingKey, Utf8Encode(message))]
  {
    var p := [Open, Invoke(ExchangeDeclaration(exchange)), PublishCall(exchange, routingKey, message)];
    assert p[1..][1..][1..] == [];
    assert Records(p[1..][1..]) == [BasicPublish(exchange, routingKey, Utf8Encode(message))];
    assert Records(p[1..]) == [ExchangeDeclaration(exchange), BasicPublish(exchange, routingKey, Utf8Encode(message))];
    p
  }

  /** The publishing loop, one publish per clock reading, in order. */
  function PublishLoop(t: Topology, stamps: seq<string>): (p: seq<Call>)
    ensures |p| == |stamps|
    decreases |stamps|
  {
    if stamps == [] then []
    else PublishLoop(t, stamps[..|stamps| - 1]) + [PublishCall(t.exchange, t.routingKey, LoopMessage(stamps[|stamps| - 1]))]
  }

  /** Cutting the loop after `i` iterations is running it on the first `i` clock readings. */
  lemma {:induction false} PublishLoopPrefix(t: Topology, stamps: seq<string>, i: nat)
    requires i <= |stamps|
    ensures PublishLoop(t, stamps)[..i] == PublishLoop(t, stamps[..i])
    decreases |stamps|
  {
    if i < |stamps| {
      var init := stamps[..|stamps| - 1];
      PublishLoopPrefix(t, init, i);
      assert init[..i] == stamps[..i];
    } else {
      assert stamps[..i] == stamps;
    }
  }

  /** What the broker records for the first `n` iterations of the loop when none raises. */
  function Published(t: Topology, stamps: seq<string>, n: nat): seq<Op>
    requires n <= |stamps|
  {
    if n == 0 then []
    else Published(t, stamps, n - 1) + [BasicPublish(t.exchange, t.routingKey, Utf8Encode(LoopMessage(stamps[n - 1])))]
  }

  /** The first `n` iterations of the loop record the first `n` publishes. */
  lemma {:induction false} LoopPublished(t: Topology, stamps: seq<string>, n: nat)
    requires n <= |stamps|
    ensures Records(PublishLoop(t, stamps[..n])) == Published(t, stamps, n)
  {
    if n > 0 {
      LoopPublished(t, stamps, n - 1);
      var prefix, call := stamps[..n], PublishCall(t.exchange, t.routingKey, LoopMessage(stamps[n - 1]));
      assert prefix[..|prefix| - 1] == stamps[..n - 1];
      RecordsAppend(PublishLoop(t, stamps[..n - 1]), [call]);
      assert Records([call]) == Record(call) + Records([]);
    }
  }

  /**
   * The calls startService makes when its loop runs once per element of
   * `stamps`: the declarations, then the loop; without a raise the broker
   * records both declarations and then every publish.
   */
  function PublisherPlan(t: Topology, stamps: seq<string>): (p: seq<Call>)
    ensures |p| == 3 + |stamps| && p[..3] == DeclarePlan(t)
  {
    DeclarePlan(t) + PublishLoop(t, stamps)
  }

  /** What the publisher asks the broker for, once every call succeeds:
      the two declarations, then one publish per stamp, in order. */
  lemma PublisherPlanRecords(t: Topology, stamps: seq<string>)
    ensures Records(PublisherPlan(t, stamps)) ==
              [ExchangeDeclaration(t.exchange), QueueDeclaration(t.queue)] + Published(t, stamps, |stamps|)
  {
    RecordsAppend(DeclarePlan(t), PublishLoop(t, stamps));
    LoopPublished(t, stamps, |stamps|);
    assert stamps[..|stamps|] == stamps;
  }

  /**
   * Send's calls: they all succeed exactly when none of the three raises, and the
   * broker then holds one exchange declaration followed by one publish of the
   * message's UTF-8 bytes; a publish is never recorded without the declaration.
   */
  lemma SendTrace(exchange: string, routingKey: string, message: string, k: nat, faults: set<nat>)
    ensures var r := Run(SendPlan(exchange, routingKey, message), k, faults);
            var declare := ExchangeDeclaration(exchange);
            var publish := BasicPublish(exchange, routingKey, Utf8Encode(message));
            && (k in faults ==> r == Outcome(false, [], k + 1))
            && (k !in faults && k + 1 in faults ==> r == Outcome(false, [], k + 2))
            && (k !in faults && k + 1 !in faults && k + 2 in faults ==> r == Outcome(false, [declare], k + 3))
            && (k !in faults && k + 1 !in faults && k + 2 !in faults ==> r == Outcome(true, [declare, publish], k + 3))
  {
    RunOfThree(Open, Invoke(ExchangeDeclaration(exchange)), PublishCall(exchange, routingKey, message), k, faults);
  }

  /** The first `n` publishes, one per clock reading, in order. */
  lemma {:induction false} PublishedAt(t: Topology, stamps: seq<string>, n: nat)
    requires n <= |stamps|
    ensures |Published(t, stamps, n)| == n
    ensures forall i :: 0 <= i < n ==>
              Published(t, stamps, n)[i] == BasicPublish(t.exchange, t.routingKey, Utf8Encode(LoopMessage(stamps[i])))
  {
    if n > 0 {
      PublishedAt(t, stamps, n - 1);
    }
  }

  /**
   * The loop alone: it publishes the messages of a prefix of the clock
   * readings, in order, and all of them exactly when no publish raises.
   */
  lemma LoopTrace(t: Topology, stamps: seq<string>, k: nat, faults: set<nat>)
    ensures var l := Run(PublishLoop(t, stamps), k, faults);
            && |l.accepted| <= |stamps|
            && (l.completed <==> |l.accepted| == |stamps|)
            && (forall i :: 0 <= i < |l.accepted| ==>
                  l.accepted[i] == BasicPublish(t.exchange, t.routingKey, Utf8Encode(LoopMessage(stamps[i]))))
  {
    var loop := PublishLoop(t, stamps);
    var l := Run(loop, k, faults);
    RunCharacterized(loop, k, faults);
    var n := if l.completed then |stamps| else l.next - 1 - k;
    PublishLoopStops(t, stamps, n, k, faults);
    PublishedAt(t, stamps, n);
  }

  /**
   * Whatever the faults, the sender's log is its two declarations in order and
   * then one publish per loop iteration, to the same exchange and routing key;
   * without faults every iteration publishes. The sender never binds, consumes,
   * acknowledges or unbinds.
   */
  lemma PublisherTrace(t: Topology, stamps: seq<string>, k: nat, faults: set<nat>)
    ensures var r := Run(PublisherPlan(t, stamps), k, faults);
            && |r.accepted| <= 2 + |stamps|
            && (r.completed <==> |r.accepted| == 2 + |stamps|)
            && (|r.accepted| > 0 ==> r.accepted[0] == ExchangeDeclaration(t.exchange))
            && (|r.accepted| > 1 ==> r.accepted[1] == QueueDeclaration(t.queue))
            && (forall i :: 2 <= i < |r.accepted| ==>
                  r.accepted[i] == BasicPublish(t.exchange, t.routingKey, Utf8Encode(LoopMessage(stamps[i - 2]))))
            && (forall i :: 0 <= i < |r.accepted| ==>
                  r.accepted[i].ExchangeDeclare? || r.accepted[i].QueueDeclare? || r.accepted[i].BasicPublish?)
  {
    DeclareThen(t, PublishLoop(t, stamps), k, faults);
    LoopTrace(t, stamps, k + 3, faults);
  }

  /** startService's try block when a call before the loop raises: nothing is published. */
  lemma PublisherSetupRaises(t: Topology, stamps: seq<string>, k: nat, faults: set<nat>)
    requires k in faults || k + 1 in faults || k + 2 in faults
    ensures Run(PublisherPlan(t, stamps), k, faults) ==
              if k in faults then Outcome(false, [], k + 1)
              else if k + 1 in faults then Outcome(false, [], k + 2)
              else Outcome(false, [ExchangeDeclaration(t.exchange)], k + 3)
  {
    DeclareThen(t, PublishLoop(t, stamps), k, faults);
  }

  /**
   * startService's try block when the connection and both declarations succeed
   * and the loop then publishes `i` times before it runs out of clock readings or
   * a publish raises.
   */
  lemma PublisherLoopStops(t: Topology, stamps: seq<string>, i: nat, k: nat, faults: set<nat>)
    requires i <= |stamps|
    requires k !in faults && k + 1 !in faults && k + 2 !in faults
    requires forall j :: k + 3 <= j < k + 3 + i ==> j !in faults
    requires i < |stamps| ==> k + 3 + i in faults
    ensures Run(PublisherPlan(t, stamps), k, faults) ==
              Outcome(i == |stamps|,
                      [ExchangeDeclaration(t.exchange), QueueDeclaration(t.queue)] + Published(t, stamps, i),
                      if i == |stamps| then k + 3 + i else k + 4 + i)
  {
    DeclareThen(t, PublishLoop(t, stamps), k, faults);
    PublishLoopStops(t, stamps, i, k + 3, faults);
  }

  /**
   * The loop publishes `i` times and then either runs out of clock readings or
   * reaches a publish that raises.
   */
  lemma PublishLoopStops(t: Topology, stamps: seq<string>, i: nat, k: nat, faults: set<nat>)
    requires i <= |stamps|
    requires forall j :: k <= j < k + i ==> j !in faults
    requires i < |stamps| ==> k + i in faults
    ensures Run(PublishLoop(t, stamps), k, faults) ==
              Outcome(i == |stamps|, Published(t, stamps, i), if i == |stamps| then k + i else k + i + 1)
  {
    var loop := PublishLoop(t, stamps);
    RunStopsAt(loop, i, k, faults);
    PublishLoopPrefix(t, stamps, i);
    LoopPublished(t, stamps, i);
    assert loop[..|loop|] == loop;
  }

  /** The sender object: its settings fields and the connection factory it was given. */
  class RabbitSender {
    const config: Configuration
    const factory: ConnectionFactory
    var exchangeName: string
    var queueName: string
    var routingKey: string
    var interval: int

    /** The fields start out null, written "" here, until LoadSettings runs. */
    constructor (config: Configuration, factory: ConnectionFactory)
      ensures this.config == config && this.factory == factory
      ensures exchangeName == "" && queueName == "" && routingKey == "" && interval == 0
    {
      this.config := config;
      this.factory := factory;
      exchangeName, queueName, routingKey, interval := "", "", "", 0;
    }

    function CurrentTopology(): Topology
      reads this
    {
      Topology(exchangeName, queueName, routingKey)
    }

    method LoadSettings()
      modifies this`exchangeName, this`queueName, this`routingKey, this`interval
      ensures CurrentTopology() == ResolveTopology(config)
      ensures interval == ResolveInterval(config)
    {
      exchangeName := GetString(config, ExchangeSetting);
      if exchangeName == "" {
        exchangeName := DefaultExchange;
      }
      queueName := GetString(config, QueueSetting);
      if queueName == "" {
        queueName := DefaultQueue;
      }
      routingKey := GetString(config, RoutingKeySetting);
      if routingKey == "" {
        routingKey := DefaultRoutingKey;
      }
      interval := GetInt(config, IntervalSetting);
      if interval <= 0 {
        interval := DefaultInterval;
      }
    }

    /**
     * Publish one message (None stands for null) with the names currently held;
     * settings are not reloaded. A null or empty message is skipped and reported
     * as sent; otherwise the result is false exactly when a call raised.
     */
    method Send(message: Option<string>) returns (ok: bool)
      modifies factory
      ensures (message.None? || message.value == "") ==>
                ok && factory.log == old(factory.log) && factory.attempts == old(factory.attempts)
      ensures (message.Some? && message.value != "") ==>
                var r := Run(SendPlan(exchangeName, routingKey, message.value), old(factory.attempts), factory.faults);
                ok == r.completed && factory.log == old(factory.log) + r.accepted && factory.attempts == r.next
    {
      if message.Some? && message.value != "" {
        ok := factory.Issue(Open);
        if ok {
          ok := factory.Issue(Invoke(ExchangeDeclaration(exchangeName)));
          if ok {
            ok := factory.Issue(PublishCall(exchangeName, routingKey, message.value));
          }
        }
        SendTrace(exchangeName, routingKey, message.value, old(factory.attempts), factory.faults);
        return;
      }
      ok := true;
    }

    /**
     * startService with its endless loop cut off after one iteration per clock
     * reading in `stamps`. Settings are resolved first; then the connection, the
     * two declarations and the publishes run in one try block, so the first call
     * that raises ends the service.
     */
    method StartService(stamps: seq<string>)
      modifies this, factory
      ensures CurrentTopology() == ResolveTopology(config) && interval == ResolveInterval(config)
      ensures var r := Run(PublisherPlan(CurrentTopology(), stamps), old(factory.attempts), factory.faults);
              factory.log == old(factory.log) + r.accepted && factory.attempts == r.next
    {
      LoadSettings();
      Publish(stamps);
    }

    /** startService's try block, with the names currently held. */
    method Publish(stamps: seq<string>)
      modifies factory
      ensures var r := Run(PublisherPlan(CurrentTopology(), stamps), old(factory.attempts), factory.faults);
              factory.log == old(factory.log) + r.accepted && factory.attempts == r.next
    {
      ghost var t, k := CurrentTopology(), factory.attempts;
      var ok := factory.Issue(Open);
      if !ok {
        PublisherSetupRaises(t, stamps, k, factory.faults);
        return;
      }
      ok := factory.Issue(Invoke(ExchangeDeclaration(exchangeName)));
      if !ok {
        PublisherSetupRaises(t, stamps, k, factory.faults);
        return;
      }
      ok := factory.Issue(Invoke(QueueDeclaration(queueName)));
      if !ok {
        PublisherSetupRaises(t, stamps, k, factory.faults);
        return;
      }
      var published := PublishEach(stamps);
      PublisherLoopStops(t, stamps, published, k, factory.faults);
    }

    /**
     * The loop of startService: one publish per clock reading, to the exchange
     * under the routing key, until the readings run out or a publish raises.
     * `published` counts the publishes the broker accepted.
     */
    method PublishEach(stamps: seq<string>) returns (published: nat)
      modifies factory
      ensures published <= |stamps|
      ensures forall j :: old(factory.attempts) <= j < old(factory.attempts) + published ==> j !in factory.faults
      ensures published < |stamps| ==> old(factory.attempts) + published in factory.faults
      ensures factory.log == old(factory.log) + Published(CurrentTopology(), stamps, published)
      ensures factory.attempts == old(factory.attempts) + published + (if published < |stamps| then 1 else 0)
    {
      ghost var t, k := CurrentTopology(), factory.attempts;
      published := 0;
      while published < |stamps|
        invariant published <= |stamps|
        invariant forall j :: k <= j < k + published ==> j !in factory.faults
        invariant factory.log == old(factory.log) + Published(t, stamps, published)
        invariant factory.attempts == k + published
        modifies factory
      {
        var body := Utf8Encode(LoopMessage(stamps[published]));
        var ok := factory.Issue(Invoke(BasicPublish(exchangeName, routingKey, body)));
        if !ok {
          return;
        }
        published := published + 1;
      }
    }
  }
}
