/** The Kafka consumer adapter of internal/mq/kafka/consumer.go. Connect only
    stores the configuration; Subscribe builds the reader's settings; the
    reader's stream of messages, errors and context cancellations is a
    sequence of events supplied by the caller. */
module KafkaConsumer {

  import opened Types
  import opened GoStd
  import opened Errors
  import opened KafkaCommon

  const DefaultGroup: string := "mq-toolkit-default-consumer"
  const DefaultMaxBytes: int := 10_000_000

  datatype StartOffset = FirstOffset | LastOffset

  /** The settings a reader is created with. A minimum of 0 is the client
      library's own default. */
  datatype ReaderConfig = ReaderConfig(
    brokers: seq<string>,
    groupId: string,
    topic: string,
    maxBytes: int,
    minBytes: int,
    startOffset: StartOffset)

  /** A record as the reader returns it; headers keep their wire order. */
  datatype Record = Record(
    topic: string, key: string, value: string,
    partition: int, offset: int, headers: seq<(string, string)>)

  /** What one read of the reader yields: the context is done (by
      cancellation or by its deadline), the read fails, or a record comes. */
  datatype ReadEvent =
    | ContextDone(deadline: bool)
    | ReadFailed(err: Error)
    | Received(record: Record)

  /** How a consume loop ends: it returns an error or nil, or it is still
      waiting for the next event when the events run out. */
  datatype ConsumeEnd = Returned(err: Option<Error>) | StillRunning

  // ---------------------------------------------------------------------
  // Reader settings

  /** The group a subscription joins: the request's, else the
      configuration's, else the default group. */
  function GroupFor(config: ConnectionConfig, req: ConsumeRequest): (g: string)
    ensures g != ""
    ensures req.groupId != "" ==> g == req.groupId
    ensures req.groupId == "" && config.groupId != "" ==> g == config.groupId
    ensures req.groupId == "" && config.groupId == "" ==> g == DefaultGroup
  {
    if req.groupId != "" then req.groupId
    else if config.groupId != "" then config.groupId
    else DefaultGroup
  }

  /** The reader settings of a subscription with at least one topic. */
  function Settings(config: ConnectionConfig, req: ConsumeRequest, split: string -> seq<string>): (r: ReaderConfig)
    requires |req.topics| > 0
    ensures r.brokers == BrokerList(config, split)
    ensures r.groupId == GroupFor(config, req)
    ensures r.topic == req.topics[0]
    ensures r.maxBytes > 0 && r.minBytes >= 0
    ensures PositiveExtra(config.extra, "max_bytes").None? ==> r.maxBytes == DefaultMaxBytes
    ensures PositiveExtra(config.extra, "max_bytes").Some? ==> r.maxBytes == PositiveExtra(config.extra, "max_bytes").value
    ensures PositiveExtra(config.extra, "min_bytes").None? ==> r.minBytes == 0
    ensures PositiveExtra(config.extra, "min_bytes").Some? ==> r.minBytes == PositiveExtra(config.extra, "min_bytes").value
    ensures r.startOffset == FirstOffset <==> req.fromBeginning
  {
    var maxBytes := PositiveExtra(config.extra, "max_bytes");
    var minBytes := PositiveExtra(config.extra, "min_bytes");
    ReaderConfig(
      BrokerList(config, split),
      GroupFor(config, req),
      req.topics[0],
      if maxBytes.Some? then maxBytes.value else DefaultMaxBytes,
      if minBytes.Some? then minBytes.value else 0,
      if req.fromBeginning then FirstOffset else LastOffset)
  }

  /** Only the first topic of a subscription is read. */
  lemma OnlyFirstTopic(config: ConnectionConfig, req: ConsumeRequest, more: seq<string>, split: string -> seq<string>)
    requires |req.topics| > 0
    ensures Settings(config, req.(topics := req.topics[..1] + more), split) == Settings(config, req, split)
  {
  }

  // ---------------------------------------------------------------------
  // Converting records and classifying read errors

  /** The header map: a later header overwrites an earlier one with the
      same key. */
  function HeaderMap(hs: seq<(string, string)>): (m: map<string, string>)
    ensures forall k :: k in m <==> exists i :: 0 <= i < |hs| && hs[i].0 == k
  {
    if hs == [] then map[]
    else
      var m0 := HeaderMap(hs[..|hs| - 1]);
      var m := m0[hs[|hs| - 1].0 := hs[|hs| - 1].1];
      assert forall k :: k in m <==> exists i :: 0 <= i < |hs| && hs[i].0 == k by {
        forall k ensures k in m <==> exists i :: 0 <= i < |hs| && hs[i].0 == k {
          if k in m0 {
            var i :| 0 <= i < |hs| - 1 && hs[..|hs| - 1][i].0 == k;
            assert hs[i].0 == k;
          }
          if k != hs[|hs| - 1].0 && exists i :: 0 <= i < |hs| && hs[i].0 == k {
            var i :| 0 <= i < |hs| && hs[i].0 == k;
            assert hs[..|hs| - 1][i].0 == k;
          }
        }
      }
      m
  }

  /** The last header with a key decides its value. */
  lemma {:induction false} HeaderMapLastWins(hs: seq<(string, string)>, j: int)
    requires 0 <= j < |hs|
    requires forall i :: j < i < |hs| ==> hs[i].0 != hs[j].0
    ensures HeaderMap(hs)[hs[j].0] == hs[j].1
  {
    if j < |hs| - 1 {
      var init := hs[..|hs| - 1];
      assert init[j] == hs[j];
      forall i | j < i < |init| ensures init[i].0 != init[j].0 {
        assert init[i] == hs[i];
      }
      HeaderMapLastWins(init, j);
    }
  }

  /** The message handed to the handler for a record. The partition goes
      through `int32`. */
  function ToMessage(rec: Record, id: string): (msg: Message)
    ensures msg.id == id && msg.topic == rec.topic && msg.key == rec.key && msg.value == rec.value
    ensures msg.offset == rec.offset && msg.headers == HeaderMap(rec.headers)
    ensures InInt32(rec.partition) ==> msg.partition == rec.partition
  {
    Message(id, rec.topic, rec.key, rec.value, HeaderMap(rec.headers), Int32(rec.partition), rec.offset)
  }

  /** The text fragments that mark a read error as the connection being
      shut down. */
  predicate ClosedText(text: string)
  {
    || HasSubstring(text, "connection closed")
    || HasSubstring(text, "use of closed network connection")
    || HasSubstring(text, "CONN_")
  }

  /** What the loop returns when a read fails: nil for the two context
      errors themselves (compared by identity, so not when wrapped) and
      for a connection being closed, judged by its text; otherwise a
      connection error caused by the read error. */
  function ReadErrorEnd(err: Error): (r: Option<Error>)
    ensures r.None? <==> err == Canceled || err == DeadlineExceeded || ClosedText(ErrorText(err))
    ensures r.Some? ==> r.value == ConnErr("Failed to read message", Some(err))
  {
    if err == Canceled || err == DeadlineExceeded then None
    else if ClosedText(ErrorText(err)) then None
    else Some(ConnErr("Failed to read message", Some(err)))
  }

  /** An application connection error, even behind `%w` prefixes, ends
      the loop quietly. */
  lemma ConnectionErrorEndsQuietly(err: Error)
    requires IsConnectionChain(err)
    ensures ReadErrorEnd(err) == None
  {
    ConnectionTextHasConnMarker(err);
  }

  /** The error the loop returns when the context is done. */
  function ContextError(deadline: bool): Error
  {
    if deadline then DeadlineExceeded else Canceled
  }

  /** The position of the first event that is not a record, or the
      number of events when every one is a record. */
  function StopIndex(events: seq<ReadEvent>): (k: nat)
    ensures k <= |events|
    ensures forall i :: 0 <= i < k ==> events[i].Received?
    ensures k < |events| ==> !events[k].Received?
  {
    if events == [] || !events[0].Received? then 0 else 1 + StopIndex(events[1..])
  }

  /** How an event that is not a record ends the loop. */
  function EndOf(e: ReadEvent): Option<Error>
    requires !e.Received?
  {
    match e
    case ContextDone(d) => Some(ContextError(d))
    case ReadFailed(err) => ReadErrorEnd(err)
  }

  /** The consume loop delivers the records before the first other event,
      numbered in order, and that event decides what it returns. */
  ghost predicate ConsumedAsSpecified(events: seq<ReadEvent>, ids: nat -> string, end: ConsumeEnd, delivered: seq<Message>)
  {
    var k := StopIndex(events);
    && |delivered| == k
    && (forall i :: 0 <= i < k ==> delivered[i] == ToMessage(events[i].record, ids(i)))
    && (k == |events| ==> end == StillRunning)
    && (k < |events| ==> end == Returned(EndOf(events[k])))
  }

  /** The loop of Consume, over the events the reader yields. */
  method ConsumeLoop(events: seq<ReadEvent>, ids: nat -> string) returns (end: ConsumeEnd, delivered: seq<Message>)
    ensures ConsumedAsSpecified(events, ids, end, delivered)
  {
    var k := StopIndex(events);
    delivered := [];
    var i := 0;
    end := StillRunning;
    while i < |events|
      invariant 0 <= i <= k
      invariant |delivered| == i
      invariant forall j :: 0 <= j < i ==> delivered[j] == ToMessage(events[j].record, ids(j))
      invariant end == StillRunning
    {
      match events[i]
      case ContextDone(d) =>
        return Returned(Some(ContextError(d))), delivered;
      case ReadFailed(err) =>
        if err == Canceled || err == DeadlineExceeded {
          return Returned(None), delivered;
        }
        var text := ErrorText(err);
        if HasSubstring(text, "connection closed") || HasSubstring(text, "use of closed network connection")
           || HasSubstring(text, "CONN_") {
          return Returned(None), delivered;
        }
        return Returned(Some(ConnErr("Failed to read message", Some(err)))), delivered;
      case Received(rec) =>
        delivered := delivered + [ToMessage(rec, ids(i))];
        i := i + 1;
    }
  }

  /** Events after a stopping event change nothing: no record after it
      is delivered. */
  lemma {:induction false} NothingAfterStop(events: seq<ReadEvent>, more: seq<ReadEvent>)
    requires StopIndex(events) < |events|
    ensures StopIndex(events + more) == StopIndex(events)
  {
    assert (events + more)[0] == events[0];
    if events[0].Received? {
      assert (events + more)[1..] == events[1..] + more;
      NothingAfterStop(events[1..], more);
    }
  }

  class Consumer {
    var reader: Option<ReaderConfig>
    var connected: bool
    var config: Option<ConnectionConfig>

    /** A reader exists only while connected, and a connected consumer has
        its configuration. */
    ghost predicate Valid()
      reads this
    {
      (reader.Some? ==> connected) && (connected ==> config.Some?)
    }

    /** NewConsumer. */
    constructor ()
      ensures Valid() && reader == None && !connected && config == None
    {
      reader := None;
      connected := false;
      config := None;
    }

    /** Connect checks the tag and stores the configuration; nothing is
        dialled. */
    method Connect(cfg: ConnectionConfig) returns (err: Option<Error>)
      requires Valid()
      modifies this
      ensures Valid()
      ensures cfg.mqType != Kafka ==>
                err == Some(ValErr("Invalid MQ type for Kafka consumer", cfg.mqType))
                && reader == old(reader) && connected == old(connected) && config == old(config)
      ensures cfg.mqType == Kafka ==>
                err == None && reader == old(reader) && connected && config == Some(cfg)
    {
      if cfg.mqType != Kafka {
        return Some(ValErr("Invalid MQ type for Kafka consumer", cfg.mqType));
      }
      config := Some(cfg);
      connected := true;
      return None;
    }

    /** Subscribe replaces the reader with one built from the request; a
        reader already in place is dropped without being closed. */
    method Subscribe(req: ConsumeRequest, split: string -> seq<string>) returns (err: Option<Error>)
      requires Valid()
      modifies this
      ensures Valid()
      ensures connected == old(connected) && config == old(config)
      ensures !(connected && config.Some?) ==>
                err == Some(ConnErr("Consumer not connected", None)) && reader == old(reader)
      ensures connected && config.Some? && req.topics == [] ==>
                err == Some(ValErr("No topics specified for subscription", "")) && reader == old(reader)
      ensures connected && config.Some? && req.topics != [] ==>
                err == None && reader == Some(Settings(config.value, req, split))
    {
      if !connected || config.None? {
        return Some(ConnErr("Consumer not connected", None));
      }
      if |req.topics| == 0 {
        return Some(ValErr("No topics specified for subscription", ""));
      }
      var cfg := config.value;
      var brokers := BuildBrokers(cfg, split);
      var groupId := req.groupId;
      if groupId == "" {
        groupId := cfg.groupId;
      }
      if groupId == "" {
        groupId := DefaultGroup;
      }
      var topic := req.topics[0];
      var maxBytes := DefaultMaxBytes;
      var minBytes := 0;
      var start := if req.fromBeginning then FirstOffset else LastOffset;
      if "max_bytes" in cfg.extra {
        var size := Atoi(cfg.extra["max_bytes"]);
        if size.Some? && size.value > 0 {
          maxBytes := size.value;
        }
      }
      if "min_bytes" in cfg.extra {
        var size := Atoi(cfg.extra["min_bytes"]);
        if size.Some? && size.value > 0 {
          minBytes := size.value;
        }
      }
      reader := Some(ReaderConfig(brokers, groupId, topic, maxBytes, minBytes, start));
      return None;
    }

    /** Consume: two state checks, then the loop; handler errors do not
        stop it. Nothing about the consumer changes. */
    method Consume(events: seq<ReadEvent>, ids: nat -> string) returns (end: ConsumeEnd, delivered: seq<Message>)
      requires Valid()
      ensures !connected ==> end == Returned(Some(ConnErr("Consumer not connected", None))) && delivered == []
      ensures connected && reader.None? ==>
                end == Returned(Some(ConnErr("Consumer not subscribed to any topic. Call Subscribe first.", None)))
                && delivered == []
      ensures connected && reader.Some? ==> ConsumedAsSpecified(events, ids, end, delivered)
    {
      if !connected {
        return Returned(Some(ConnErr("Consumer not connected", None))), [];
      }
      if reader.None? {
        return Returned(Some(ConnErr("Consumer not subscribed to any topic. Call Subscribe first.", None))), [];
      }
      end, delivered := ConsumeLoop(events, ids);
    }

    /** Close forgets the connection and the configuration, and closes
        and drops the reader if there is one. */
    method Close(closeErr: Option<Error>) returns (err: Option<Error>)
      requires Valid()
      modifies this
      ensures Valid()
      ensures !connected && config == None && reader == None
      ensures err == (if old(reader).Some? then closeErr else None)
    {
      connected := false;
      config := None;
      if reader.Some? {
        reader := None;
        return closeErr;
      }
      return None;
    }

    function IsConnected(): (r: bool)
      reads this
      ensures r <==> connected
    {
      connected
    }
  }
}
