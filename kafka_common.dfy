/** Pieces shared by the Kafka producer and consumer
    (internal/mq/kafka/producer.go, internal/mq/kafka/consumer.go): the
    broker list and the positive-integer tuning parameters read from the
    connection's extra map. */
module KafkaCommon {

  import opened Types
  import opened GoStd

  /** The entries of `parts` that are not empty, in order. */
  function NonEmpty(parts: seq<string>): (r: seq<string>)
    ensures forall i :: 0 <= i < |r| ==> r[i] != "" && r[i] in parts
  {
    if parts == [] then []
    else if parts[|parts| - 1] == "" then NonEmpty(parts[..|parts| - 1])
    else NonEmpty(parts[..|parts| - 1]) + [parts[|parts| - 1]]
  }

  /** Dropping the empty entries distributes over concatenation. */
  lemma {:induction false} NonEmptyAppend(a: seq<string>, b: seq<string>)
    ensures NonEmpty(a + b) == NonEmpty(a) + NonEmpty(b)
    decreases |b|
  {
    if b == [] {
      assert a + b == a;
    } else {
      assert (a + b)[..|a + b| - 1] == a + b[..|b| - 1];
      NonEmptyAppend(a, b[..|b| - 1]);
    }
  }

  /** No non-empty entry is lost. */
  lemma {:induction false} NonEmptyComplete(parts: seq<string>, b: string)
    requires b in parts && b != ""
    ensures b in NonEmpty(parts)
  {
    if parts[|parts| - 1] != b {
      assert b in parts[..|parts| - 1] by {
        var k :| 0 <= k < |parts| && parts[k] == b;
        assert parts[..|parts| - 1][k] == b;
      }
      NonEmptyComplete(parts[..|parts| - 1], b);
    }
  }

  /** The broker list: the configured host and port first, then every
      non-empty entry of the "brokers" extra, split by the source's comma
      splitter, which is passed in as `split`. */
  function BrokerList(config: ConnectionConfig, split: string -> seq<string>): (r: seq<string>)
    ensures |r| >= 1 && r[0] == Address(config.host, config.port)
    ensures "brokers" !in config.extra ==> r == [Address(config.host, config.port)]
  {
    [Address(config.host, config.port)]
      + (if "brokers" in config.extra then NonEmpty(split(config.extra["brokers"])) else [])
  }

  /** The loop that builds the broker list. */
  method BuildBrokers(config: ConnectionConfig, split: string -> seq<string>) returns (brokers: seq<string>)
    ensures brokers == BrokerList(config, split)
  {
    brokers := [Address(config.host, config.port)];
    if "brokers" in config.extra {
      var parts := split(config.extra["brokers"]);
      var i := 0;
      while i < |parts|
        invariant 0 <= i <= |parts|
        invariant brokers == [Address(config.host, config.port)] + NonEmpty(parts[..i])
      {
        assert parts[..i + 1][..i] == parts[..i];
        if parts[i] != "" {
          assert NonEmpty(parts[..i + 1]) == NonEmpty(parts[..i]) + [parts[i]];
          brokers := brokers + [parts[i]];
        }
        i := i + 1;
      }
      assert parts[..i] == parts;
    }
  }

  /** An extra that overrides a default only when it parses, with Atoi, to
      a positive integer. */
  function PositiveExtra(extra: map<string, string>, key: string): (r: Option<int>)
    ensures r.Some? ==> r.value > 0 && key in extra && Atoi(extra[key]) == Some(r.value)
    ensures key !in extra ==> r.None?
  {
    if key in extra && Atoi(extra[key]).Some? && Atoi(extra[key]).value > 0
    then Some(Atoi(extra[key]).value) else None
  }

  /** Writing a positive number into the extra map makes it the override. */
  lemma PositiveExtraRoundTrip(extra: map<string, string>, key: string, n: int)
    requires 0 < n <= MaxInt64
    ensures PositiveExtra(extra[key := DecimalString(n)], key) == Some(n)
  {
    AtoiDecimalString(n);
  }
}
