/** The composite RabbitMQ client of internal/mq/rabbitmq/client.go: a
    producer, a consumer and an admin, connected in that order with
    compensating closes, closed together, and otherwise passed through. */
module RabbitClient {

  import opened Types
  import opened Errors
  import opened Outcomes
  import opened RabbitCommon
  import RP = RabbitProducer
  import RC = RabbitConsumer
  import RA = RabbitAdmin

  /** The outcomes of the native calls Connect makes: for the producer
      and the admin a dial and a channel, for the consumer a dial. The
      errors of the compensating closes are ignored by the source and so
      are not needed. */
  datatype ConnectOutcomes = ConnectOutcomes(
    producerDial: Option<Error>, producerChannel: Option<Error>,
    consumerDial: Option<Error>,
    adminDial: Option<Error>, adminChannel: Option<Error>)

  /** The outcomes of closing the channel and the connection of each part. */
  datatype CloseOutcomes = CloseOutcomes(
    producerChannel: Option<Error>, producerConn: Option<Error>,
    consumerChannel: Option<Error>, consumerConn: Option<Error>,
    adminChannel: Option<Error>, adminConn: Option<Error>)

  /** With both credentials given, all three parts dial the same URL;
      with none, the admin alone logs in as guest. */
  lemma DialledURLs(cfg: ConnectionConfig)
    ensures cfg.username != "" && cfg.password != "" ==>
              RP.ProducerURL(cfg) == RC.ConsumerURL(cfg) == RA.AdminURL(cfg)
    ensures cfg.username == "" && cfg.password == "" ==>
              RA.AdminURL(cfg) == AmqpURL("guest", "guest", cfg.host, cfg.port, VHostOrRoot(cfg.vhost))
              && RP.ProducerURL(cfg) == AmqpURLNoAuth(cfg.host, cfg.port, VHostOrRoot(cfg.vhost))
              && RC.ConsumerURL(cfg) == AmqpURL("", "", cfg.host, cfg.port, VHostOrRoot(cfg.vhost))
  {
  }

  class Client {
    const producer: RP.Producer
    const consumer: RC.Consumer
    const admin: RA.Admin
    var config: Option<ConnectionConfig>

    ghost predicate Valid()
      reads this, producer, consumer, admin
    {
      producer.Valid() && consumer.Valid() && admin.Valid()
    }

    /** NewClient: three fresh parts. */
    constructor ()
      ensures Valid() && fresh(producer) && fresh(consumer) && fresh(admin) && config == None
      ensures !producer.connected && !consumer.connected && !admin.connected
    {
      producer := new RP.Producer();
      consumer := new RC.Consumer();
      admin := new RA.Admin();
      config := None;
    }

    /** Connect: the configuration is stored, then the producer, the
        consumer and the admin are connected in turn; the first failure
        is returned after closing the parts connected before it. */
    method Connect(cfg: ConnectionConfig, o: ConnectOutcomes) returns (err: Option<Error>)
      requires Valid()
      modifies this, producer, consumer, admin
      ensures Valid() && config == Some(cfg)
      ensures cfg.mqType != RabbitMQ ==>
                err == Some(ValErr("Invalid MQ type for RabbitMQ producer", cfg.mqType))
                && unchanged(producer) && unchanged(consumer) && unchanged(admin)
      ensures cfg.mqType == RabbitMQ && (o.producerDial.Some? || o.producerChannel.Some?) ==>
                err == Some(ConnErr(if o.producerDial.Some? then "Failed to connect to RabbitMQ" else "Failed to create channel",
                                    if o.producerDial.Some? then o.producerDial else o.producerChannel))
                && unchanged(consumer) && unchanged(admin)
      ensures cfg.mqType == RabbitMQ && o.producerDial.None? && o.producerChannel.None? && o.consumerDial.Some? ==>
                err == Some(ConnErr("Failed to connect to RabbitMQ", o.consumerDial))
                && !producer.connected && producer.conn == None && !producer.IsConnected() && unchanged(admin)
      ensures cfg.mqType == RabbitMQ && o.producerDial.None? && o.producerChannel.None? && o.consumerDial.None?
              && (o.adminDial.Some? || o.adminChannel.Some?) ==>
                err == Some(ConnErr(if o.adminDial.Some? then "Failed to connect to RabbitMQ" else "Failed to create channel",
                                    if o.adminDial.Some? then o.adminDial else o.adminChannel))
                && !producer.IsConnected() && !consumer.IsConnected()
      ensures err.None? <==>
                cfg.mqType == RabbitMQ && o.producerDial.None? && o.producerChannel.None? && o.consumerDial.None?
                && o.adminDial.None? && o.adminChannel.None?
      ensures err.None? ==> producer.IsConnected() && consumer.IsConnected() && admin.connected
    {
      config := Some(cfg);
      var e, url := producer.Connect(cfg, o.producerDial, o.producerChannel);
      if e.Some? {
        return e;
      }
      e, url := consumer.Connect(cfg, o.consumerDial);
      if e.Some? {
        var _ := producer.Close(None, None);
        return e;
      }
      e, url := admin.Connect(cfg, o.adminDial, o.adminChannel);
      if e.Some? {
        var _ := producer.Close(None, None);
        var _ := consumer.Close(None, None);
        return e;
      }
      return None;
    }

    /** The error Close returns: each part's close error, the later one
        overriding the earlier. */
    function CloseResult(o: CloseOutcomes): Option<Error>
      reads this, producer, consumer, admin
    {
      LastError(LastError(producer.CloseResult(o.producerChannel, o.producerConn),
                          consumer.CloseResult(o.consumerChannel, o.consumerConn)),
                admin.CloseResult(o.adminChannel, o.adminConn))
    }

    /** Close closes all three parts, whatever fails, and returns the last
        failure. */
    method Close(o: CloseOutcomes) returns (err: Option<Error>)
      requires Valid()
      modifies producer, consumer, admin
      ensures Valid()
      ensures err == old(CloseResult(o))
      ensures !producer.connected && !consumer.connected && !admin.connected
      ensures !IsConnected()
    {
      var lastErr: Option<Error> := None;
      var e := producer.Close(o.producerChannel, o.producerConn);
      if e.Some? {
        lastErr := e;
      }
      e := consumer.Close(o.consumerChannel, o.consumerConn);
      if e.Some? {
        lastErr := e;
      }
      e := admin.Close(o.adminChannel, o.adminConn);
      if e.Some? {
        lastErr := e;
      }
      return lastErr;
    }

    /** Close fails exactly when one of the six native closes that is
        made fails. */
    lemma CloseFailsIffPartFails(o: CloseOutcomes)
      ensures CloseResult(o).None? <==>
                producer.CloseResult(o.producerChannel, o.producerConn).None?
                && consumer.CloseResult(o.consumerChannel, o.consumerConn).None?
                && admin.CloseResult(o.adminChannel, o.adminConn).None?
    {
    }

    /** Connected when the producer and the consumer are; the admin is not
        consulted. */
    function IsConnected(): (r: bool)
      reads this, producer, consumer
      ensures r <==> producer.IsConnected() && consumer.IsConnected()
    {
      producer.IsConnected() && consumer.IsConnected()
    }

    /** The data operations pass through to the part that owns them. */
    function Produce(req: ProduceRequest, po: RP.PublishOutcome): (r: RP.SendResult)
      reads this, producer
      ensures r == producer.Produce(req, po)
    {
      producer.Produce(req, po)
    }

    method ProduceBatch(reqs: seq<ProduceRequest>, po: nat -> RP.PublishOutcome) returns (r: RP.SendResult)
      ensures !(producer.connected && producer.channel.Some?) ==>
                r == RP.SendResult(Some(ConnErr("Producer not connected", None)), [])
      ensures producer.connected && producer.channel.Some? && reqs == [] ==>
                r == RP.SendResult(Some(ValErr("Empty message batch", "")), [])
      ensures producer.connected && producer.channel.Some? && reqs != [] ==> r == RP.Batch(RP.Sends(reqs, po))
    {
      r := producer.ProduceBatch(reqs, po);
    }

    method Subscribe(req: ConsumeRequest, channelErr: Option<Error>, declare: nat -> Option<Error>) returns (err: Option<Error>)
      requires Valid()
      modifies consumer
      ensures Valid()
      ensures consumer.conn == old(consumer.conn) && consumer.connected == old(consumer.connected)
              && consumer.config == old(consumer.config)
      ensures !(consumer.connected && consumer.conn.Some?) ==>
                err == Some(ConnErr("Consumer not connected", None)) && unchanged(consumer)
      ensures consumer.connected && consumer.conn.Some? && req.topics == [] ==>
                err == Some(ValErr("No queues specified for subscription", ""))
                && consumer.channel == old(consumer.channel) && consumer.subscribedQueues == old(consumer.subscribedQueues)
      ensures consumer.connected && consumer.conn.Some? && req.topics != [] && channelErr.Some? ==>
                err == Some(ConnErr("Failed to create channel", channelErr))
                && consumer.channel == (if old(consumer.channel).Some? then Some(ClosedHandle) else None)
                && consumer.subscribedQueues == old(consumer.subscribedQueues)
      ensures consumer.connected && consumer.conn.Some? && req.topics != [] && channelErr.None? ==>
                var k := FirstFailure(req.topics, declare);
                && consumer.channel == Some(OpenHandle)
                && consumer.subscribedQueues == req.topics[..k]
                && (k == |req.topics| ==> err == None)
                && (k < |req.topics| ==> err == Some(ConnErr("Failed to declare queue " + req.topics[k], declare(k))))
    {
      err := consumer.Subscribe(req, channelErr, declare);
    }

    function Consume(qosErr: Option<Error>, ctxErr: Option<Error>): (r: Option<Error>)
      reads this, consumer
      ensures r == consumer.Consume(qosErr, ctxErr)
    {
      consumer.Consume(qosErr, ctxErr)
    }

    function TestConnection(declareErr: Option<Error>, deleteErr: Option<Error>, latency: nat): (r: TestResult)
      reads this, admin
      ensures r == admin.TestConnection(declareErr, deleteErr, latency)
    {
      admin.TestConnection(declareErr, deleteErr, latency)
    }

    method ListTopics(api: Result<seq<RA.QueueInfo>, Error>) returns (r: Result<seq<TopicInfo>, Error>, request: Option<RA.ApiRequest>)
      requires Valid()
      ensures !(admin.connected && admin.channel.Some?) ==>
                r == Err(ConnErr("Not connected to RabbitMQ", None)) && request == None
      ensures admin.connected && admin.channel.Some? ==> r.Ok? && request == Some(RA.Management(admin.config.value))
      ensures admin.connected && admin.channel.Some? && api.Err? ==> r == Ok([])
      ensures admin.connected && admin.channel.Some? && api.Ok? ==>
                r.Ok? && |r.value| == |api.value|
                && forall i :: 0 <= i < |api.value| ==> r.value[i] == RA.QueueTopic(api.value[i])
    {
      r, request := admin.ListTopics(api);
    }

    function CreateTopic(topic: string, partitions: int, replicas: int, declareErr: Option<Error>): (r: RA.Outcome)
      reads this, admin
      ensures r == admin.CreateTopic(topic, partitions, replicas, declareErr)
    {
      admin.CreateTopic(topic, partitions, replicas, declareErr)
    }

    function DeleteTopic(topic: string, deleteErr: Option<Error>): (r: RA.Outcome)
      reads this, admin
      ensures r == admin.DeleteTopic(topic, deleteErr)
    {
      admin.DeleteTopic(topic, deleteErr)
    }

    function ListConsumerGroups(): (r: Result<seq<ConsumerGroup>, Error>)
      reads this
      ensures r == Ok([])
    {
      admin.ListConsumerGroups()
    }
  }
}
