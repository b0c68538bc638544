/** The RabbitMQ consumer adapter of internal/mq/rabbitmq/consumer.go. The
    connection and channel are abstract handles; the outcome of every
    broker call is supplied by the caller. Of the concurrent consume loop
    the handling of the deliveries of one queue is modelled. */
module RabbitConsumer {

  import opened Types
  import opened GoStd
  import opened Errors
  import opened Outcomes
  import opened RabbitCommon

  /** A delivery from a queue; header values are given by the text `%v`
      prints for them, and a delivery may carry no header table at all. */
  datatype Delivery = Delivery(routingKey: string, body: string, headers: Option<map<string, string>>)

  /** How a delivery is settled with the broker. */
  datatype Settlement = Ack(multiple: bool) | Nack(multiple: bool, requeue: bool)

  /** The URL the consumer dials: the credentials exactly as configured,
      even when empty. */
  function ConsumerURL(cfg: ConnectionConfig): (u: string)
    ensures IsPrefix("amqp://" + cfg.username + ":" + cfg.password + "@", u)
    ensures u[|"amqp://" + cfg.username + ":" + cfg.password + "@"|..] == Endpoint(cfg.host, cfg.port, VHostOrRoot(cfg.vhost))
  {
    AmqpURL(cfg.username, cfg.password, cfg.host, cfg.port, VHostOrRoot(cfg.vhost))
  }

  /** The message handed to the handler for a delivery from a queue:
      the queue is the topic, the routing key the key; there is no
      partition and no offset. */
  function ToMessage(queue: string, d: Delivery, id: string): (m: Message)
    ensures m.id == id && m.topic == queue && m.key == d.routingKey && m.value == d.body
    ensures m.partition == 0 && m.offset == 0
    ensures d.headers.Some? ==> m.headers == d.headers.value
    ensures d.headers.None? ==> m.headers == map[]
  {
    Message(id, queue, d.routingKey, d.body, if d.headers.Some? then d.headers.value else map[], 0, 0)
  }

  /** A delivery the handler accepted is acknowledged; one it rejected is
      negatively acknowledged and put back on the queue. */
  function Settle(handlerErr: Option<Error>): (s: Settlement)
    ensures s.Ack? <==> handlerErr.None?
    ensures !s.multiple
    ensures s.Nack? ==> s.requeue
  {
    if handlerErr.Some? then Nack(false, true) else Ack(false)
  }

  /** The loop reading one queue until its delivery channel closes: the
      i-th delivery gets id `ids(i)`, the handler answers it with
      `handler(i)`, and it is settled accordingly. */
  method DrainQueue(queue: string, deliveries: seq<Delivery>, ids: nat -> string, handler: nat -> Option<Error>)
    returns (handed: seq<Message>, settled: seq<Settlement>)
    ensures |handed| == |deliveries| && |settled| == |deliveries|
    ensures forall i :: 0 <= i < |deliveries| ==> handed[i] == ToMessage(queue, deliveries[i], ids(i))
    ensures forall i :: 0 <= i < |deliveries| ==> settled[i] == Settle(handler(i))
  {
    handed, settled := [], [];
    for i := 0 to |deliveries|
      invariant |handed| == i && |settled| == i
      invariant forall j :: 0 <= j < i ==> handed[j] == ToMessage(queue, deliveries[j], ids(j))
      invariant forall j :: 0 <= j < i ==> settled[j] == Settle(handler(j))
    {
      var d := deliveries[i];
      var headers: map<string, string> := map[];
      if d.headers.Some? {
        headers := d.headers.value;
      }
      handed := handed + [Message(ids(i), queue, d.routingKey, d.body, headers, 0, 0)];
      if handler(i).Some? {
        settled := settled + [Nack(false, true)];
      } else {
        settled := settled + [Ack(false)];
      }
    }
  }

  /** The declaration loop of Subscribe: the queues declared before the
      first failure, and the error naming the queue that failed. */
  method DeclareAll(queues: seq<string>, declare: nat -> Option<Error>) returns (declared: seq<string>, err: Option<Error>)
    ensures declared == queues[..FirstFailure(queues, declare)]
    ensures FirstFailure(queues, declare) == |queues| ==> err == None
    ensures FirstFailure(queues, declare) < |queues| ==>
              var k := FirstFailure(queues, declare);
              err == Some(ConnErr("Failed to declare queue " + queues[k], declare(k)))
  {
    ghost var k := FirstFailure(queues, declare);
    declared := [];
    var i := 0;
    while i < |queues|
      invariant 0 <= i <= k
      invariant declared == queues[..i]
    {
      if declare(i).Some? {
        return declared, Some(ConnErr("Failed to declare queue " + queues[i], declare(i)));
      }
      declared := declared + [queues[i]];
      i := i + 1;
    }
    return declared, None;
  }

  class Consumer {
    var conn: Option<Handle>
    var channel: Option<Handle>
    var connected: bool
    var config: Option<ConnectionConfig>
    var subscribedQueues: seq<string>

    /** A connected consumer has a connection and a configuration, and a
        channel never outlives the connection it came from. */
    ghost predicate Valid()
      reads this
    {
      (connected ==> conn.Some? && config.Some?) && (channel.Some? ==> conn.Some?)
    }

    /** NewConsumer. */
    constructor ()
      ensures Valid() && conn == None && channel == None && !connected && config == None && subscribedQueues == []
    {
      conn, channel, connected, config, subscribedQueues := None, None, false, None, [];
    }

    /** Connect: the tag check, then the configuration is stored and the
        URL dialled (returned as `dialled`); no channel is opened. A failed
        dial leaves the previous connection in place. */
    method Connect(cfg: ConnectionConfig, dialErr: Option<Error>) returns (err: Option<Error>, dialled: Option<string>)
      requires Valid()
      modifies this
      ensures Valid()
      ensures channel == old(channel) && subscribedQueues == old(subscribedQueues)
      ensures cfg.mqType != RabbitMQ ==>
                err == Some(ValErr("Invalid MQ type for RabbitMQ consumer", cfg.mqType)) && dialled == None
                && conn == old(conn) && connected == old(connected) && config == old(config)
      ensures cfg.mqType == RabbitMQ ==> dialled == Some(ConsumerURL(cfg)) && config == Some(cfg)
      ensures cfg.mqType == RabbitMQ && dialErr.Some? ==>
                err == Some(ConnErr("Failed to connect to RabbitMQ", dialErr)) && conn == old(conn) && connected == old(connected)
      ensures cfg.mqType == RabbitMQ && dialErr.None? ==> err == None && conn == Some(OpenHandle) && connected
    {
      if cfg.mqType != RabbitMQ {
        return Some(ValErr("Invalid MQ type for RabbitMQ consumer", cfg.mqType)), None;
      }
      config := Some(cfg);
      var vhost := cfg.vhost;
      if vhost == "" {
        vhost := "/";
      }
      dialled := Some(AmqpURL(cfg.username, cfg.password, cfg.host, cfg.port, vhost));
      if dialErr.Some? {
        return Some(ConnErr("Failed to connect to RabbitMQ", dialErr)), dialled;
      }
      conn, connected := Some(OpenHandle), true;
      err := None;
    }

    /** Subscribe: the state check, the topic check, then the previous
        channel is closed and a new one opened, and the queues are
        declared in order. A channel failure keeps the closed previous
        channel and the previous queue list; a declaration failure keeps
        the queues declared before it. */
    method Subscribe(req: ConsumeRequest, channelErr: Option<Error>, declare: nat -> Option<Error>) returns (err: Option<Error>)
      requires Valid()
      modifies this
      ensures Valid()
      ensures conn == old(conn) && connected == old(connected) && config == old(config)
      ensures !(connected && conn.Some?) ==>
                err == Some(ConnErr("Consumer not connected", None)) && unchanged(this)
      ensures connected && conn.Some? && req.topics == [] ==>
                err == Some(ValErr("No queues specified for subscription", ""))
                && channel == old(channel) && subscribedQueues == old(subscribedQueues)
      ensures connected && conn.Some? && req.topics != [] && channelErr.Some? ==>
                err == Some(ConnErr("Failed to create channel", channelErr))
                && channel == (if old(channel).Some? then Some(ClosedHandle) else None)
                && subscribedQueues == old(subscribedQueues)
      ensures connected && conn.Some? && req.topics != [] && channelErr.None? ==>
                var k := FirstFailure(req.topics, declare);
                && channel == Some(OpenHandle)
                && subscribedQueues == req.topics[..k]
                && (k == |req.topics| ==> err == None)
                && (k < |req.topics| ==> err == Some(ConnErr("Failed to declare queue " + req.topics[k], declare(k))))
    {
      if !connected || conn.None? {
        return Some(ConnErr("Consumer not connected", None));
      }
      if |req.topics| == 0 {
        return Some(ValErr("No queues specified for subscription", ""));
      }
      if channel.Some? {
        channel := Some(ClosedHandle);
      }
      if channelErr.Some? {
        return Some(ConnErr("Failed to create channel", channelErr));
      }
      var declared;
      declared, err := DeclareAll(req.topics, declare);
      channel, subscribedQueues := Some(OpenHandle), declared;
    }

    /** Every queue of a successful subscription is subscribed, in the
        order requested. */
    lemma SubscribedAll(topics: seq<string>, declare: nat -> Option<Error>)
      requires forall i :: 0 <= i < |topics| ==> declare(i).None?
      ensures topics[..FirstFailure(topics, declare)] == topics
    {
    }

    /** Consume: the state checks and the quality-of-service call; once
        they pass, it returns the error of its context when every queue's
        reader has stopped (`ctxErr`). */
    function Consume(qosErr: Option<Error>, ctxErr: Option<Error>): (r: Option<Error>)
      reads this
      ensures !(connected && channel.Some?) ==> r == Some(ConnErr("Consumer not subscribed. Call Subscribe first.", None))
      ensures connected && channel.Some? && subscribedQueues == [] ==> r == Some(ValErr("No queues subscribed", ""))
      ensures connected && channel.Some? && subscribedQueues != [] && qosErr.Some? ==>
                r == Some(ConnErr("Failed to set QoS", qosErr))
      ensures connected && channel.Some? && subscribedQueues != [] && qosErr.None? ==> r == ctxErr
    {
      if !connected || channel.None? then Some(ConnErr("Consumer not subscribed. Call Subscribe first.", None))
      else if subscribedQueues == [] then Some(ValErr("No queues subscribed", ""))
      else if qosErr.Some? then Some(ConnErr("Failed to set QoS", qosErr))
      else ctxErr
    }

    /** The error Close returns for the given outcomes of closing the
        channel and the connection. */
    function CloseResult(channelErr: Option<Error>, connErr: Option<Error>): Option<Error>
      reads this
    {
      CloseOutcome(channel, conn, channelErr, connErr)
    }

    /** Close closes the channel and the connection, keeps the last
        failure and forgets the queues; the closed objects and the
        configuration stay in place. */
    method Close(channelErr: Option<Error>, connErr: Option<Error>) returns (err: Option<Error>)
      requires Valid()
      modifies this
      ensures Valid()
      ensures err == old(CloseResult(channelErr, connErr))
      ensures !connected && subscribedQueues == [] && config == old(config)
      ensures channel == (if old(channel).Some? then Some(ClosedHandle) else None)
      ensures conn == (if old(conn).Some? then Some(ClosedHandle) else None)
    {
      connected := false;
      var lastErr: Option<Error> := None;
      if channel.Some? {
        if channelErr.Some? {
          lastErr := channelErr;
        }
        channel := Some(ClosedHandle);
      }
      if conn.Some? {
        if connErr.Some? {
          lastErr := connErr;
        }
        conn := Some(ClosedHandle);
      }
      subscribedQueues := [];
      return lastErr;
    }

    function IsConnected(): (r: bool)
      reads this
      ensures r <==> connected && conn.Some? && !conn.value.closed
    {
      connected && conn.Some? && !conn.value.closed
    }

    /** A closed consumer reports itself disconnected and refuses to
        subscribe or consume until connected again. */
    lemma ClosedRefuses(qosErr: Option<Error>, ctxErr: Option<Error>)
      requires !connected
      ensures !IsConnected()
      ensures Consume(qosErr, ctxErr) == Some(ConnErr("Consumer not subscribed. Call Subscribe first.", None))
    {
    }
  }
}
