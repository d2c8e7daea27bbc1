/**
 * The broker as the two clients see it: every channel call either raises or is
 * accepted, and an accepted call leaves one record in the broker's log. Broker
 * behaviour itself (routing, idempotent declarations, conflicts) is not modelled;
 * which calls raise is a fixed fault plan indexed by the order of the calls.
 */
module Broker {
  import opened Encoding
  import opened Settings

  /** ExchangeType.Topic. */
  const Topic := "topic"

  /**
   * The records a channel leaves, one per accepted call, with the arguments the
   * clients pass. Every call in the clients passes null for the optional argument
   * table and for the message properties, so the records have no field for them.
   */
  datatype Op =
    | ExchangeDeclare(exchange: string, kind: string, durable: bool, autoDelete: bool)
    | QueueDeclare(queue: string, durable: bool, exclusive: bool, autoDelete: bool)
    | QueueBind(queue: string, exchange: string, routingKey: string)
    | QueueUnbind(queue: string, exchange: string, routingKey: string)
    | BasicPublish(exchange: string, routingKey: string, body: seq<byte>)
    | BasicConsume(queue: string, autoAck: bool, consumerTag: string, noLocal: bool, exclusive: bool)
    | BasicAck(deliveryTag: nat, multiple: bool)

  /** The exchange declaration both clients make: a topic exchange, not durable, deleted when unused. */
  function ExchangeDeclaration(exchange: string): Op
  {
    ExchangeDeclare(exchange, Topic, false, true)
  }

  /** The queue declaration both clients make: durable, not exclusive, deleted when unused. */
  function QueueDeclaration(queue: string): Op
  {
    QueueDeclare(queue, true, false, true)
  }

  /** A client step: opening a connection and its channel, or one channel operation. */
  datatype Call = Open | Invoke(op: Op)

  /** What the broker records for one accepted call. */
  function Record(c: Call): seq<Op>
  {
    match c
    case Open => []
    case Invoke(op) => [op]
  }

  /** What the broker records when every call of a plan is accepted. */
  function Records(plan: seq<Call>): (r: seq<Op>)
    ensures |r| <= |plan|
    decreases |plan|
  {
    if plan == [] then [] else Record(plan[0]) + Records(plan[1..])
  }

  /**
   * The effect of issuing `plan` inside one try block, starting at call number
   * `k`: calls are issued in order until one raises, and the rest are skipped.
   */
  datatype Outcome = Outcome(completed: bool, accepted: seq<Op>, next: nat)

  function Run(plan: seq<Call>, k: nat, faults: set<nat>): (r: Outcome)
    ensures k <= r.next <= k + |plan|
    ensures r.completed ==> r.next == k + |plan|
    decreases |plan|
  {
    if plan == [] then Outcome(true, [], k)
    else if k in faults then Outcome(false, [], k + 1)
    else
      var rest := Run(plan[1..], k + 1, faults);
      Outcome(rest.completed, Record(plan[0]) + rest.accepted, rest.next)
  }

  /**
   * A try block completes exactly when none of its calls raises, and then the
   * broker has recorded the whole plan; otherwise it stops at the first call that
   * raises, after recording just the calls before it.
   */
  lemma {:induction false} RunCharacterized(plan: seq<Call>, k: nat, faults: set<nat>)
    ensures var r := Run(plan, k, faults);
            && (r.completed <==> forall j :: k <= j < k + |plan| ==> j !in faults)
            && (r.completed ==> r.accepted == Records(plan))
            && (!r.completed ==>
                  && k < r.next
                  && r.next - 1 in faults
                  && (forall j :: k <= j < r.next - 1 ==> j !in faults)
                  && r.accepted == Records(plan[..r.next - 1 - k]))
    decreases |plan|
  {
    if plan != [] && k !in faults {
      var rest := Run(plan[1..], k + 1, faults);
      RunCharacterized(plan[1..], k + 1, faults);
      if !rest.completed {
        var m := rest.next - 1 - k;
        assert plan[..m][0] == plan[0];
        assert plan[..m][1..] == plan[1..][..m - 1];
      }
    }
  }

  lemma {:induction false} RecordsAppend(p: seq<Call>, q: seq<Call>)
    ensures Records(p + q) == Records(p) + Records(q)
    decreases |p|
  {
    if p == [] {
      assert p + q == q;
    } else {
      assert (p + q)[0] == p[0] && (p + q)[1..] == p[1..] + q;
      RecordsAppend(p[1..], q);
    }
  }

  /**
   * Issuing two plans one after the other in the same try block: the second
   * runs only when the first completes, and it starts at the first's next call.
   */
  lemma {:induction false} RunAppend(p: seq<Call>, q: seq<Call>, k: nat, faults: set<nat>)
    ensures var a := Run(p, k, faults);
            Run(p + q, k, faults) ==
              if !a.completed then a
              else var b := Run(q, a.next, faults); Outcome(b.completed, a.accepted + b.accepted, b.next)
    decreases |p|
  {
    if p == [] {
      assert p + q == q;
    } else if k !in faults {
      assert (p + q)[0] == p[0] && (p + q)[1..] == p[1..] + q;
      RunAppend(p[1..], q, k + 1, faults);
    }
  }

  /** One more call after a completed prefix: accepted unless its number is a fault. */
  lemma RunSnoc(p: seq<Call>, c: Call, k: nat, faults: set<nat>)
    requires Run(p, k, faults).completed
    ensures var a := Run(p, k, faults);
            Run(p + [c], k, faults) ==
              if a.next in faults then Outcome(false, a.accepted, a.next + 1)
              else Outcome(true, a.accepted + Record(c), a.next + 1)
  {
    RunAppend(p, [c], k, faults);
  }

  /** Once a call has raised, whatever the plan had left is skipped. */
  lemma RunAfterFault(p: seq<Call>, q: seq<Call>, k: nat, faults: set<nat>)
    requires !Run(p, k, faults).completed
    ensures Run(p + q, k, faults) == Run(p, k, faults)
  {
    RunAppend(p, q, k, faults);
  }

  /** The first call of a plan raises, or is recorded ahead of the rest. */
  lemma RunCons(c: Call, rest: seq<Call>, k: nat, faults: set<nat>)
    ensures Run([c] + rest, k, faults) ==
              if k in faults then Outcome(false, [], k + 1)
              else var r := Run(rest, k + 1, faults); Outcome(r.completed, Record(c) + r.accepted, r.next)
  {
    assert ([c] + rest)[0] == c && ([c] + rest)[1..] == rest;
  }

  /** A try block of three calls, case by case on which of them raises first. */
  lemma RunOfThree(a: Call, b: Call, c: Call, k: nat, faults: set<nat>)
    ensures Run([a, b, c], k, faults) ==
              if k in faults then Outcome(false, [], k + 1)
              else if k + 1 in faults then Outcome(false, Record(a), k + 2)
              else if k + 2 in faults then Outcome(false, Record(a) + Record(b), k + 3)
              else Outcome(true, Record(a) + Record(b) + Record(c), k + 3)
  {
    RunCons(a, [b, c], k, faults);
    RunCons(b, [c], k + 1, faults);
    RunCons(c, [], k + 2, faults);
    assert [a, b, c] == [a] + [b, c] && [b, c] == [b] + [c] && [c] == [c] + [];
  }

  /**
   * A try block whose calls numbered k .. k + i - 1 are accepted and which then
   * either runs out of calls or reaches a call that raises.
   */
  lemma RunStopsAt(plan: seq<Call>, i: nat, k: nat, faults: set<nat>)
    requires i <= |plan|
    requires forall j :: k <= j < k + i ==> j !in faults
    requires i < |plan| ==> k + i in faults
    ensures Run(plan, k, faults) ==
              if i == |plan| then Outcome(true, Records(plan), k + i)
              else Outcome(false, Records(plan[..i]), k + i + 1)
  {
    RunCharacterized(plan, k, faults);
  }

  /** The calls both roles begin with: open a connection and its channel, declare the exchange, declare the queue. */
  function DeclarePlan(t: Topology): (p: seq<Call>)
    ensures |p| == 3 && p[0] == Open
    ensures Records(p) == [ExchangeDeclaration(t.exchange), QueueDeclaration(t.queue)]
  {
    var p := [Open, Invoke(ExchangeDeclaration(t.exchange)), Invoke(QueueDeclaration(t.queue))];
    assert p[1..][1..][1..] == [];
    assert Records(p[1..][1..]) == [QueueDeclaration(t.queue)];
    assert Records(p[1..]) == [ExchangeDeclaration(t.exchange), QueueDeclaration(t.queue)];
    p
  }

  /**
   * A try block that begins with the declarations: a raise in one of the first
   * three calls ends it with at most the exchange declared; otherwise both
   * declarations are recorded and the rest of the block runs from call k + 3.
   */
  lemma DeclareThen(t: Topology, rest: seq<Call>, k: nat, faults: set<nat>)
    ensures Run(DeclarePlan(t) + rest, k, faults) ==
              if k in faults then Outcome(false, [], k + 1)
              else if k + 1 in faults then Outcome(false, [], k + 2)
              else if k + 2 in faults then Outcome(false, [ExchangeDeclaration(t.exchange)], k + 3)
              else var r := Run(rest, k + 3, faults);
                   Outcome(r.completed, [ExchangeDeclaration(t.exchange), QueueDeclaration(t.queue)] + r.accepted, r.next)
  {
    var d := DeclarePlan(t);
    RunOfThree(d[0], d[1], d[2], k, faults);
    RunAppend(d, rest, k, faults);
  }

  /**
   * The connection factory a role holds, together with the broker behind every
   * channel it opens. `log` is what the broker accepted, in order; `attempts`
   * counts the calls made so far; a call raises when its number is in `faults`.
   */
  class ConnectionFactory {
    var log: seq<Op>
    var attempts: nat
    const faults: set<nat>

    constructor (faults: set<nat>)
      ensures log == [] && attempts == 0 && this.faults == faults
    {
      log := [];
      attempts := 0;
      this.faults := faults;
    }

    /** One client step, on a fresh connection (Open) or on the open channel (Invoke). */
    method Issue(c: Call) returns (ok: bool)
      modifies this
      ensures ok == (old(attempts) !in faults)
      ensures attempts == old(attempts) + 1
      ensures log == if ok then old(log) + Record(c) else old(log)
    {
      ok := attempts !in faults;
      if ok {
        log := log + Record(c);
      }
      attempts := attempts + 1;
    }
  }
}
