/**
 * Settings resolution (loadSettings in both roles): each name is read from the
 * configuration and falls back to a fixed default when it is missing or empty;
 * the sender's publishing interval falls back to 5000 ms when it is not positive.
 */
module Settings {

  /**
   * The already-loaded configuration. GetValue<string> yields null for a missing
   * key; the model writes that as the empty string, since every reader of these
   * values treats null and empty alike (string.IsNullOrEmpty). GetValue<int>
   * yields 0 for a missing key.
   */
  datatype Configuration = Configuration(strings: map<string, string>, ints: map<string, int>)

  const ExchangeSetting := "ExchangeName"
  const QueueSetting := "QueueName"
  const RoutingKeySetting := "RoutingKey"
  const IntervalSetting := "MessageInterval"

  const DefaultExchange := "EXCHANGE3"
  const DefaultQueue := "rabbit-queue"
  const DefaultRoutingKey := "rabbit-test"
  const DefaultInterval := 5000

  /** The exchange, queue and routing key a role works with. */
  datatype Topology = Topology(exchange: string, queue: string, routingKey: string)

  predicate IsResolved(t: Topology) { t.exchange != "" && t.queue != "" && t.routingKey != "" }

  function GetString(c: Configuration, key: string): string
  {
    if key in c.strings then c.strings[key] else ""
  }

  function GetInt(c: Configuration, key: string): int
  {
    if key in c.ints then c.ints[key] else 0
  }

  /** A configured name, or the fallback when nothing usable is configured. */
  function OrDefault(configured: string, fallback: string): (r: string)
    requires fallback != ""
    ensures r != ""
    ensures r == configured || r == fallback
    ensures configured != "" ==> r == configured
  {
    if configured == "" then fallback else configured
  }

  /**
   * The names both roles resolve from a configuration: each is the default when
   * its key is missing or empty and the configured string, unchanged, otherwise,
   * so none of them is empty.
   */
  function ResolveTopology(c: Configuration): (t: Topology)
    ensures IsResolved(t)
    ensures (ExchangeSetting !in c.strings || c.strings[ExchangeSetting] == "") ==> t.exchange == DefaultExchange
    ensures (ExchangeSetting in c.strings && c.strings[ExchangeSetting] != "") ==> t.exchange == c.strings[ExchangeSetting]
    ensures (QueueSetting !in c.strings || c.strings[QueueSetting] == "") ==> t.queue == DefaultQueue
    ensures (QueueSetting in c.strings && c.strings[QueueSetting] != "") ==> t.queue == c.strings[QueueSetting]
    ensures (RoutingKeySetting !in c.strings || c.strings[RoutingKeySetting] == "") ==> t.routingKey == DefaultRoutingKey
    ensures (RoutingKeySetting in c.strings && c.strings[RoutingKeySetting] != "") ==> t.routingKey == c.strings[RoutingKeySetting]
  {
    Topology(OrDefault(GetString(c, ExchangeSetting), DefaultExchange),
             OrDefault(GetString(c, QueueSetting), DefaultQueue),
             OrDefault(GetString(c, RoutingKeySetting), DefaultRoutingKey))
  }

  /** The sender's publishing interval in milliseconds. */
  function ResolveInterval(c: Configuration): (ms: int)
    ensures ms > 0
    ensures GetInt(c, IntervalSetting) > 0 ==> ms == c.ints[IntervalSetting]
    ensures GetInt(c, IntervalSetting) <= 0 ==> ms == DefaultInterval
    ensures IntervalSetting !in c.ints ==> ms == DefaultInterval
  {
    var configured := GetInt(c, IntervalSetting);
    if configured <= 0 then DefaultInterval else configured
  }

  /** A configuration that spells out a topology, as a settings file would. */
  function TopologyConfiguration(t: Topology): (c: Configuration)
    ensures c.strings.Keys == {ExchangeSetting, QueueSetting, RoutingKeySetting}
  {
    Configuration(map[ExchangeSetting := t.exchange, QueueSetting := t.queue, RoutingKeySetting := t.routingKey], map[])
  }

  /** Writing resolved names to a configuration and resolving it gives the same names back. */
  lemma ResolveRoundTrip(t: Topology)
    requires IsResolved(t)
    ensures ResolveTopology(TopologyConfiguration(t)) == t
  {
    var m := TopologyConfiguration(t).strings;
    assert m[ExchangeSetting] == t.exchange && m[QueueSetting] == t.queue && m[RoutingKeySetting] == t.routingKey;
  }

  /** Resolution is a projection: resolving what it produced changes nothing. */
  lemma ResolveIdempotent(c: Configuration)
    ensures ResolveTopology(TopologyConfiguration(ResolveTopology(c))) == ResolveTopology(c)
  {
    ResolveRoundTrip(ResolveTopology(c));
  }
}
