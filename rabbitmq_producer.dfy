/** The RabbitMQ producer adapter of internal/mq/rabbitmq/producer.go. Each
    send declares the queue named after the topic and publishes to it
    through the default exchange; the outcome of every channel call is
    supplied by the caller. */
module RabbitProducer {

  import opened Types
  import opened Errors
  import opened RabbitCommon
  import Utils

  /** The outcomes of the two channel calls of one send. */
  datatype PublishOutcome = PublishOutcome(declare: Option<Error>, publish: Option<Error>)

  /** The result of a send and the channel calls it made. */
  datatype SendResult = SendResult(err: Option<Error>, calls: seq<ChannelCall>)

  /** The URL the producer dials: credentials only when both are given. */
  function ProducerURL(cfg: ConnectionConfig): (u: string)
    ensures cfg.username != "" && cfg.password != "" ==>
              u == AmqpURL(cfg.username, cfg.password, cfg.host, cfg.port, VHostOrRoot(cfg.vhost))
    ensures cfg.username == "" || cfg.password == "" ==> u == AmqpURLNoAuth(cfg.host, cfg.port, VHostOrRoot(cfg.vhost))
  {
    if cfg.username != "" && cfg.password != ""
    then AmqpURL(cfg.username, cfg.password, cfg.host, cfg.port, VHostOrRoot(cfg.vhost))
    else AmqpURLNoAuth(cfg.host, cfg.port, VHostOrRoot(cfg.vhost))
  }

  /** A single credential is dropped: the URL is the one without any. */
  lemma HalfCredentialsDropped(cfg: ConnectionConfig)
    requires cfg.username == "" || cfg.password == ""
    ensures ProducerURL(cfg) == ProducerURL(cfg.(username := "", password := ""))
  {
  }

  /** The persistent plain-text message a request is published as. */
  function ToPublishing(req: ProduceRequest): (p: Publishing)
    ensures p.body == req.value && p.headers == req.headers && p.persistent && p.contentType == "text/plain"
  {
    Publishing("text/plain", req.value, true, req.headers)
  }

  /** One send on a connected producer: the name check, the queue
      declaration, the publication. The key of the request is not sent. */
  function Send(req: ProduceRequest, o: PublishOutcome): (r: SendResult)
    ensures !Utils.ValidTopic(req.topic) ==> r == SendResult(Some(ValErr("Invalid queue name", req.topic)), [])
    ensures Utils.ValidTopic(req.topic) && o.declare.Some? ==>
              r == SendResult(Some(ConnErr("Failed to declare queue", o.declare)), [DurableQueue(req.topic)])
    ensures Utils.ValidTopic(req.topic) && o.declare.None? ==>
              r.calls == [DurableQueue(req.topic), Publish("", req.topic, ToPublishing(req))]
              && r.err == (if o.publish.Some? then Some(ConnErr("Failed to publish message", o.publish)) else None)
  {
    if !Utils.ValidTopic(req.topic) then SendResult(Some(ValErr("Invalid queue name", req.topic)), [])
    else if o.declare.Some? then SendResult(Some(ConnErr("Failed to declare queue", o.declare)), [DurableQueue(req.topic)])
    else
      var calls := [DurableQueue(req.topic), Publish("", req.topic, ToPublishing(req))];
      if o.publish.Some? then SendResult(Some(ConnErr("Failed to publish message", o.publish)), calls)
      else SendResult(None, calls)
  }

  /** `r` preceded by calls made earlier. */
  function After(earlier: seq<ChannelCall>, r: SendResult): SendResult
  {
    SendResult(r.err, earlier + r.calls)
  }

  /** The result each request of a batch would have if it were sent; the
      i-th request has outcome `o(i)`. */
  function Sends(reqs: seq<ProduceRequest>, o: nat -> PublishOutcome): (r: seq<SendResult>)
    ensures |r| == |reqs| && forall i :: 0 <= i < |reqs| ==> r[i] == Send(reqs[i], o(i))
  {
    seq(|reqs|, i requires 0 <= i < |reqs| => Send(reqs[i], o(i)))
  }

  /** A batch of sends made in order, up to and including the first that
      fails. */
  function Batch(sends: seq<SendResult>): (r: SendResult)
    ensures sends == [] ==> r.err.None? && r.calls == []
    ensures sends != [] ==> sends[0].calls <= r.calls
    ensures sends != [] && sends[0].err.Some? ==> r == sends[0]
  {
    if sends == [] then SendResult(None, [])
    else if sends[0].err.Some? then sends[0]
    else After(sends[0].calls, Batch(sends[1..]))
  }

  /** Nothing after the first failure is attempted. */
  lemma {:induction false} BatchStopsAtFailure(sends: seq<SendResult>, more: seq<SendResult>)
    requires Batch(sends).err.Some?
    ensures Batch(sends + more) == Batch(sends)
  {
    assert (sends + more)[0] == sends[0];
    if sends[0].err.None? {
      assert (sends + more)[1..] == sends[1..] + more;
      BatchStopsAtFailure(sends[1..], more);
    }
  }

  /** After a batch that succeeds, the rest of a longer batch continues
      where it ended. */
  lemma {:induction false} BatchContinues(sends: seq<SendResult>, more: seq<SendResult>)
    requires Batch(sends).err.None?
    ensures Batch(sends + more) == After(Batch(sends).calls, Batch(more))
  {
    if sends == [] {
      assert sends + more == more;
    } else {
      var s0, rest := sends[0], sends[1..];
      assert (sends + more)[0] == s0 && s0.err.None?;
      assert (sends + more)[1..] == rest + more;
      assert Batch(sends + more) == After(s0.calls, Batch(rest + more));
      assert Batch(sends) == After(s0.calls, Batch(rest));
      BatchContinues(rest, more);
      var c0, c1, c2 := s0.calls, Batch(rest).calls, Batch(more).calls;
      assert c0 + (c1 + c2) == (c0 + c1) + c2;
    }
  }

  /** The batch fails exactly when one of its sends fails, and then with
      the error of the first that fails. */
  lemma {:induction false} BatchFailsAtFirst(sends: seq<SendResult>, k: nat)
    requires k <= |sends|
    requires forall i :: 0 <= i < k ==> sends[i].err.None?
    requires k < |sends| ==> sends[k].err.Some?
    ensures Batch(sends).err == (if k < |sends| then sends[k].err else None)
  {
    if k > 0 {
      BatchFailsAtFirst(sends[1..], k - 1);
    }
  }

  /** The loop of ProduceBatch on a non-empty batch. */
  method SendAll(reqs: seq<ProduceRequest>, o: nat -> PublishOutcome) returns (r: SendResult)
    ensures r == Batch(Sends(reqs, o))
  {
    ghost var all := Sends(reqs, o);
    var calls: seq<ChannelCall> := [];
    var i := 0;
    while i < |reqs|
      invariant 0 <= i <= |reqs|
      invariant Batch(all) == After(calls, Batch(all[i..]))
    {
      var s := Send(reqs[i], o(i));
      assert all[i..][0] == s && all[i..][1..] == all[i + 1..];
      if s.err.Some? {
        return SendResult(s.err, calls + s.calls);
      }
      assert calls + (s.calls + Batch(all[i + 1..]).calls) == (calls + s.calls) + Batch(all[i + 1..]).calls;
      calls := calls + s.calls;
      i := i + 1;
    }
    assert all[i..] == [];
    return SendResult(None, calls);
  }

  class Producer {
    var conn: Option<Handle>
    var channel: Option<Handle>
    var connected: bool
    var config: Option<ConnectionConfig>

    /** Connection and channel exist together, exactly while connected,
        and a connected producer has a configuration. */
    ghost predicate Valid()
      reads this
    {
      (connected <==> conn.Some?) && (conn.Some? <==> channel.Some?) && (connected ==> config.Some?)
    }

    /** NewProducer. */
    constructor ()
      ensures Valid() && conn == None && channel == None && !connected && config == None
    {
      conn, channel, connected, config := None, None, false, None;
    }

    /** Connect: the tag check, then the configuration is stored and the
        URL dialled (returned as `dialled`), then a channel is opened. A
        channel failure closes the new connection; either failure leaves
        the previous connection state in place. */
    method Connect(cfg: ConnectionConfig, dialErr: Option<Error>, channelErr: Option<Error>)
      returns (err: Option<Error>, dialled: Option<string>)
      requires Valid()
      modifies this
      ensures Valid()
      ensures cfg.mqType != RabbitMQ ==>
                err == Some(ValErr("Invalid MQ type for RabbitMQ producer", cfg.mqType)) && dialled == None
                && unchanged(this)
      ensures cfg.mqType == RabbitMQ ==> dialled == Some(ProducerURL(cfg)) && config == Some(cfg)
      ensures cfg.mqType == RabbitMQ && dialErr.Some? ==>
                err == Some(ConnErr("Failed to connect to RabbitMQ", dialErr))
                && conn == old(conn) && channel == old(channel) && connected == old(connected)
      ensures cfg.mqType == RabbitMQ && dialErr.None? && channelErr.Some? ==>
                err == Some(ConnErr("Failed to create channel", channelErr))
                && conn == old(conn) && channel == old(channel) && connected == old(connected)
      ensures cfg.mqType == RabbitMQ && dialErr.None? && channelErr.None? ==>
                err == None && conn == Some(OpenHandle) && channel == Some(OpenHandle) && connected
    {
      if cfg.mqType != RabbitMQ {
        return Some(ValErr("Invalid MQ type for RabbitMQ producer", cfg.mqType)), None;
      }
      config := Some(cfg);
      var vhost := cfg.vhost;
      if vhost == "" {
        vhost := "/";
      }
      var url;
      if cfg.username != "" && cfg.password != "" {
        url := AmqpURL(cfg.username, cfg.password, cfg.host, cfg.port, vhost);
      } else {
        url := AmqpURLNoAuth(cfg.host, cfg.port, vhost);
      }
      dialled := Some(url);
      if dialErr.Some? {
        return Some(ConnErr("Failed to connect to RabbitMQ", dialErr)), dialled;
      }
      if channelErr.Some? {
        return Some(ConnErr("Failed to create channel", channelErr)), dialled;
      }
      conn, channel, connected := Some(OpenHandle), Some(OpenHandle), true;
      err := None;
    }

    /** Produce: the state check, then one send. */
    function Produce(req: ProduceRequest, o: PublishOutcome): (r: SendResult)
      reads this
      ensures !(connected && channel.Some?) ==> r == SendResult(Some(ConnErr("Producer not connected", None)), [])
      ensures connected && channel.Some? ==> r == Send(req, o)
    {
      if !connected || channel.None? then SendResult(Some(ConnErr("Producer not connected", None)), [])
      else Send(req, o)
    }

    /** ProduceBatch: the state check and the empty-batch check, then the
        requests one by one, stopping at the first failure. */
    method ProduceBatch(reqs: seq<ProduceRequest>, o: nat -> PublishOutcome) returns (r: SendResult)
      ensures !(connected && channel.Some?) ==> r == SendResult(Some(ConnErr("Producer not connected", None)), [])
      ensures connected && channel.Some? && reqs == [] ==> r == SendResult(Some(ValErr("Empty message batch", "")), [])
      ensures connected && channel.Some? && reqs != [] ==> r == Batch(Sends(reqs, o))
    {
      if !connected || channel.None? {
        return SendResult(Some(ConnErr("Producer not connected", None)), []);
      }
      if |reqs| == 0 {
        return SendResult(Some(ValErr("Empty message batch", "")), []);
      }
      r := SendAll(reqs, o);
    }

    /** A batch of one is a single send. */
    lemma BatchOfOne(req: ProduceRequest, o: nat -> PublishOutcome)
      requires connected && channel.Some?
      ensures Batch(Sends([req], o)) == Produce(req, o(0))
    {
      var s := Send(req, o(0));
      assert Sends([req], o) == [s];
      assert [s][1..] == [];
      assert s.calls + [] == s.calls;
    }

    /** The error Close returns for the given outcomes of closing the
        channel and the connection. */
    function CloseResult(channelErr: Option<Error>, connErr: Option<Error>): Option<Error>
      reads this
    {
      CloseOutcome(channel, conn, channelErr, connErr)
    }

    /** Close closes the channel, then the connection, keeps the last
        failure, and forgets everything. */
    method Close(channelErr: Option<Error>, connErr: Option<Error>) returns (err: Option<Error>)
      requires Valid()
      modifies this
      ensures Valid()
      ensures err == old(CloseResult(channelErr, connErr))
      ensures conn == None && channel == None && !connected && config == None
    {
      var lastErr: Option<Error> := None;
      if channel.Some? {
        if channelErr.Some? {
          lastErr := channelErr;
        }
        channel := None;
      }
      if conn.Some? {
        if connErr.Some? {
          lastErr := connErr;
        }
        conn := None;
      }
      connected, config := false, None;
      return lastErr;
    }

    /** Connected, with both objects present and the connection not
        closed by the broker. */
    function IsConnected(): (r: bool)
      reads this
      ensures r <==> connected && conn.Some? && channel.Some? && !conn.value.closed
    {
      if !connected || conn.None? || channel.None? then false else !conn.value.closed
    }
  }
}
