/** The Kafka producer adapter of internal/mq/kafka/producer.go. The writer
    is represented by its settings; what a send hands to it is returned, and
    the outcome of the write is supplied by the caller. */
module KafkaProducer {

  import opened Types
  import opened Errors
  import opened KafkaCommon
  import Utils

  const DefaultBatchSize: int := 100

  /** The settings a writer is created with. */
  datatype Writer = Writer(brokers: seq<string>, batchSize: int)

  /** A message as it is handed to the writer. Without a requested
      partition the field keeps Go's zero value. */
  datatype OutMessage = OutMessage(
    topic: string, key: string, value: string,
    headers: map<string, string>, partition: int)

  /** The result of a send: the error returned and the messages handed to
      the writer (none when a check fails first). */
  datatype SendOutcome = SendOutcome(err: Option<Error>, handed: seq<OutMessage>)

  /** The writer of a connection. */
  function WriterFor(config: ConnectionConfig, split: string -> seq<string>): (w: Writer)
    ensures w.brokers == BrokerList(config, split)
    ensures w.batchSize > 0
    ensures PositiveExtra(config.extra, "batch_size").None? ==> w.batchSize == DefaultBatchSize
    ensures PositiveExtra(config.extra, "batch_size").Some? ==> w.batchSize == PositiveExtra(config.extra, "batch_size").value
  {
    var size := PositiveExtra(config.extra, "batch_size");
    Writer(BrokerList(config, split), if size.Some? then size.value else DefaultBatchSize)
  }

  /** The message built from a request. */
  function ToOut(req: ProduceRequest): (m: OutMessage)
    ensures m.topic == req.topic && m.key == req.key && m.value == req.value && m.headers == req.headers
    ensures req.partition.Some? ==> m.partition == req.partition.value
    ensures req.partition.None? ==> m.partition == 0
  {
    OutMessage(req.topic, req.key, req.value, req.headers,
               if req.partition.Some? then req.partition.value else 0)
  }

  /** The position of the first request with an invalid topic, or the
      number of requests when every topic is valid. */
  function FirstInvalid(reqs: seq<ProduceRequest>): (k: nat)
    ensures k <= |reqs|
    ensures forall i :: 0 <= i < k ==> Utils.ValidTopic(reqs[i].topic)
    ensures k < |reqs| ==> !Utils.ValidTopic(reqs[k].topic)
  {
    if reqs == [] || !Utils.ValidTopic(reqs[0].topic) then 0 else 1 + FirstInvalid(reqs[1..])
  }

  /** What a batch send does on a connected producer: nothing is handed
      over unless every topic is valid, and then the whole batch goes in
      one write. */
  function BatchOutcome(reqs: seq<ProduceRequest>, writeErr: Option<Error>): (r: SendOutcome)
    ensures reqs == [] ==> r == SendOutcome(Some(ValErr("Empty message batch", "")), [])
    ensures reqs != [] && FirstInvalid(reqs) < |reqs| ==>
              r == SendOutcome(Some(ValErr("Invalid topic name", reqs[FirstInvalid(reqs)].topic)), [])
    ensures reqs != [] && FirstInvalid(reqs) == |reqs| ==>
              r.err == writeErr && |r.handed| == |reqs|
              && forall i :: 0 <= i < |reqs| ==> r.handed[i] == ToOut(reqs[i])
  {
    if reqs == [] then SendOutcome(Some(ValErr("Empty message batch", "")), [])
    else if FirstInvalid(reqs) < |reqs| then
      SendOutcome(Some(ValErr("Invalid topic name", reqs[FirstInvalid(reqs)].topic)), [])
    else SendOutcome(writeErr, seq(|reqs|, i requires 0 <= i < |reqs| => ToOut(reqs[i])))
  }

  /** The loop of ProduceBatch on a non-empty batch. */
  method BuildBatch(reqs: seq<ProduceRequest>, writeErr: Option<Error>) returns (r: SendOutcome)
    requires reqs != []
    ensures r == BatchOutcome(reqs, writeErr)
  {
    var messages: seq<OutMessage> := [];
    var i := 0;
    while i < |reqs|
      invariant 0 <= i <= |reqs|
      invariant forall j :: 0 <= j < i ==> Utils.ValidTopic(reqs[j].topic)
      invariant |messages| == i && forall j :: 0 <= j < i ==> messages[j] == ToOut(reqs[j])
    {
      var valid := Utils.IsValidTopic(reqs[i].topic);
      if !valid {
        StopsAtFirstInvalid(reqs, i);
        return SendOutcome(Some(ValErr("Invalid topic name", reqs[i].topic)), []);
      }
      messages := messages + [ToOut(reqs[i])];
      i := i + 1;
    }
    StopsAtFirstInvalid(reqs, |reqs|);
    return SendOutcome(writeErr, messages);
  }

  /** The first invalid position is determined by its two properties. */
  lemma {:induction false} StopsAtFirstInvalid(reqs: seq<ProduceRequest>, k: nat)
    requires k <= |reqs|
    requires forall i :: 0 <= i < k ==> Utils.ValidTopic(reqs[i].topic)
    requires k < |reqs| ==> !Utils.ValidTopic(reqs[k].topic)
    ensures FirstInvalid(reqs) == k
  {
    if k > 0 {
      assert Utils.ValidTopic(reqs[0].topic);
      StopsAtFirstInvalid(reqs[1..], k - 1);
    }
  }

  class Producer {
    var writer: Option<Writer>
    var connected: bool

    /** The producer is connected exactly when it has a writer. */
    ghost predicate Valid()
      reads this
    {
      writer.Some? <==> connected
    }

    /** NewProducer. */
    constructor ()
      ensures Valid() && writer == None && !connected
    {
      writer := None;
      connected := false;
    }

    /** Connect checks the tag and creates the writer; nothing is dialled.
        A writer already in place is replaced without being closed. */
    method Connect(cfg: ConnectionConfig, split: string -> seq<string>) returns (err: Option<Error>)
      requires Valid()
      modifies this
      ensures Valid()
      ensures cfg.mqType != Kafka ==>
                err == Some(ValErr("Invalid MQ type for Kafka producer", cfg.mqType))
                && writer == old(writer) && connected == old(connected)
      ensures cfg.mqType == Kafka ==> err == None && writer == Some(WriterFor(cfg, split)) && connected
    {
      if cfg.mqType != Kafka {
        return Some(ValErr("Invalid MQ type for Kafka producer", cfg.mqType));
      }
      var brokers := BuildBrokers(cfg, split);
      var batchSize := DefaultBatchSize;
      if "batch_size" in cfg.extra {
        var size := GoStd.Atoi(cfg.extra["batch_size"]);
        if size.Some? && size.value > 0 {
          batchSize := size.value;
        }
      }
      writer, connected := Some(Writer(brokers, batchSize)), true;
      return None;
    }

    /** Produce: the state check, the topic check, then one write whose
        error is returned as it is. */
    function Produce(req: ProduceRequest, writeErr: Option<Error>): (r: SendOutcome)
      reads this
      ensures !(connected && writer.Some?) ==> r == SendOutcome(Some(ConnErr("Producer not connected", None)), [])
      ensures connected && writer.Some? && !Utils.ValidTopic(req.topic) ==>
                r == SendOutcome(Some(ValErr("Invalid topic name", req.topic)), [])
      ensures r.handed != [] <==> connected && writer.Some? && Utils.ValidTopic(req.topic)
      ensures r.handed != [] ==> r == SendOutcome(writeErr, [ToOut(req)])
    {
      if !connected || writer.None? then SendOutcome(Some(ConnErr("Producer not connected", None)), [])
      else if !Utils.ValidTopic(req.topic) then SendOutcome(Some(ValErr("Invalid topic name", req.topic)), [])
      else SendOutcome(writeErr, [ToOut(req)])
    }

    /** ProduceBatch: the state check, then the batch. */
    method ProduceBatch(reqs: seq<ProduceRequest>, writeErr: Option<Error>) returns (r: SendOutcome)
      ensures !(connected && writer.Some?) ==> r == SendOutcome(Some(ConnErr("Producer not connected", None)), [])
      ensures connected && writer.Some? ==> r == BatchOutcome(reqs, writeErr)
    {
      if !connected || writer.None? {
        return SendOutcome(Some(ConnErr("Producer not connected", None)), []);
      }
      if |reqs| == 0 {
        return SendOutcome(Some(ValErr("Empty message batch", "")), []);
      }
      r := BuildBatch(reqs, writeErr);
    }

    /** A batch of one is a single send. */
    lemma BatchOfOne(req: ProduceRequest, writeErr: Option<Error>)
      requires connected && writer.Some?
      ensures BatchOutcome([req], writeErr) == Produce(req, writeErr)
    {
      if Utils.ValidTopic(req.topic) {
        StopsAtFirstInvalid([req], 1);
      } else {
        StopsAtFirstInvalid([req], 0);
      }
    }

    /** Close closes and drops the writer if there is one. */
    method Close(closeErr: Option<Error>) returns (err: Option<Error>)
      requires Valid()
      modifies this
      ensures Valid()
      ensures old(writer).None? ==> err == None && writer == old(writer) && connected == old(connected)
      ensures old(writer).Some? ==> err == closeErr && writer == None && !connected
    {
      if writer.Some? {
        writer, connected := None, false;
        return closeErr;
      }
      return None;
    }

    function IsConnected(): (r: bool)
      reads this
      ensures r <==> connected && writer.Some?
    {
      connected && writer.Some?
    }
  }
}
