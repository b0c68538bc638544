/** The RocketMQ adapters of internal/mq/rocketmq/client.go: a producer, a
    push consumer, an admin and the composite client over them. The native
    objects of rocketmq-client-go are abstract handles, and the outcome of
    each native call is supplied by the caller. Unlike the other families,
    the parts keep their native object after Close, the client does not
    roll back a partial Connect, and neither produce path checks the topic
    name or the batch size. */
module RocketClient {

  import opened Types
  import opened GoStd
  import opened Errors
  import opened Outcomes

  const TestTopic: string := "__test_connection__"
  const AlreadyExists: string := "topic already exist"
  const TopicsUnsupported: string := "listing topics is not supported by RocketMQ admin API v2"
  const GroupsUnsupported: string := "listing consumer groups is not directly supported by RocketMQ admin API"
  const ClosePrefix: string := "errors closing RocketMQ client: "

  /** An access key and a secret key. */
  datatype Credentials = Credentials(accessKey: string, secretKey: string)

  /** The options the native producer is created with. */
  datatype ProducerOptions = ProducerOptions(nameServers: seq<string>, credentials: Option<Credentials>)

  /** The options the native push consumer is created with; `fromFirst`
      stands for the consume-from-first-offset option, which is only
      added when asked for. */
  datatype ConsumerOptions = ConsumerOptions(
    nameServers: seq<string>, groupName: string, credentials: Option<Credentials>, fromFirst: bool)

  /** A native message: topic, body, the request key as its only key and
      the request headers as properties. */
  datatype NativeMessage = NativeMessage(topic: string, body: string, keys: seq<string>, properties: map<string, string>)

  /** The result of a send and the messages handed to the native producer. */
  datatype SendOutcome = SendOutcome(err: Option<Error>, sent: seq<NativeMessage>)

  /** The native admin calls. */
  datatype AdminCall = CreateTopicCall(topic: string) | DeleteTopicCall(topic: string)

  /** The result of a topic operation and the native calls made. */
  datatype Outcome = Outcome(err: Option<Error>, calls: seq<AdminCall>)

  /** The credentials option: added only when both the username and the
      password are configured. */
  function CredentialsFor(cfg: ConnectionConfig): (r: Option<Credentials>)
    ensures r.Some? <==> cfg.username != "" && cfg.password != ""
    ensures r.Some? ==> r.value == Credentials(cfg.username, cfg.password)
  {
    if cfg.username != "" && cfg.password != "" then Some(Credentials(cfg.username, cfg.password)) else None
  }

  /** The one name server, host:port of the configuration. */
  function NameServers(cfg: ConnectionConfig): (r: seq<string>)
    ensures |r| == 1 && r[0] == Address(cfg.host, cfg.port)
  {
    [Address(cfg.host, cfg.port)]
  }

  /** The producer options: the one name server, and credentials only
      when both are configured. */
  function ProducerOptionsFor(cfg: ConnectionConfig): (o: ProducerOptions)
    ensures o.nameServers == [Address(cfg.host, cfg.port)]
    ensures o.credentials.Some? <==> cfg.username != "" && cfg.password != ""
    ensures o.credentials.Some? ==> o.credentials.value == Credentials(cfg.username, cfg.password)
  {
    ProducerOptions(NameServers(cfg), CredentialsFor(cfg))
  }

  /** The consumer options: the request's group id is used as it is, even
      when empty, and messages are read from the first offset only when the
      request asks to start from the beginning. */
  function ConsumerOptionsFor(cfg: ConnectionConfig, req: ConsumeRequest): (o: ConsumerOptions)
    ensures o.groupName == req.groupId && o.fromFirst == req.fromBeginning
    ensures o.nameServers == [Address(cfg.host, cfg.port)] && o.credentials == CredentialsFor(cfg)
  {
    ConsumerOptions(NameServers(cfg), req.groupId, CredentialsFor(cfg), req.fromBeginning)
  }

  /** The producer and the consumer of one configuration reach the same
      name server with the same credentials, whatever the request. */
  lemma SameEndpoint(cfg: ConnectionConfig, req: ConsumeRequest)
    ensures ConsumerOptionsFor(cfg, req).nameServers == ProducerOptionsFor(cfg).nameServers
    ensures ConsumerOptionsFor(cfg, req).credentials == ProducerOptionsFor(cfg).credentials
  {
  }

  /** The native message for a request. No partition is chosen. */
  function ToNative(req: ProduceRequest): (m: NativeMessage)
    ensures m.topic == req.topic && m.body == req.value && m.keys == [req.key] && m.properties == req.headers
  {
    NativeMessage(req.topic, req.value, [req.key], req.headers)
  }

  /** Two requests that differ only in their connection id or their
      partition give the same native message. */
  lemma ToNativeIgnoresPartition(req: ProduceRequest, id: string, p: Option<int>)
    ensures ToNative(req.(connectionId := id, partition := p)) == ToNative(req)
  {
  }

  /** The batch ProduceBatch hands to the native producer: one message per
      request, filled in by index, in request order. */
  method BuildMessages(reqs: seq<ProduceRequest>) returns (msgs: seq<NativeMessage>)
    ensures |msgs| == |reqs|
    ensures forall i :: 0 <= i < |reqs| ==> msgs[i] == ToNative(reqs[i])
  {
    var a := new NativeMessage[|reqs|];
    for i := 0 to |reqs|
      invariant forall j :: 0 <= j < i ==> a[j] == ToNative(reqs[j])
    {
      a[i] := NativeMessage(reqs[i].topic, reqs[i].value, [reqs[i].key], reqs[i].headers);
    }
    msgs := a[..];
  }

  /** The subscription loop of Consumer.Subscribe: each topic is
      subscribed in turn, and the first failure ends the loop with a
      subscription error. `outcome(i)` is the outcome for topic i. */
  method SubscribeAll(topics: seq<string>, outcome: nat -> Option<Error>) returns (subscribed: seq<string>, err: Option<Error>)
    ensures subscribed == topics[..FirstFailure(topics, outcome)]
    ensures err.None? <==> FirstFailure(topics, outcome) == |topics|
    ensures err.Some? ==> err == Some(SubErr("Failed to subscribe to topic", outcome(FirstFailure(topics, outcome))))
  {
    ghost var k := FirstFailure(topics, outcome);
    subscribed := [];
    var i := 0;
    while i < |topics|
      invariant 0 <= i <= k
      invariant subscribed == topics[..i]
    {
      if outcome(i).Some? {
        return subscribed, Some(SubErr("Failed to subscribe to topic", outcome(i)));
      }
      subscribed := subscribed + [topics[i]];
      i := i + 1;
    }
    err := None;
  }

  /** The result of TestConnection once the admin exists: the outcome of
      creating the test topic, where a failure whose text mentions that the
      topic already exists proves the broker reachable. */
  function Probe(createErr: Option<Error>, latency: nat): (r: TestResult)
    ensures r.latency == latency
    ensures r.success <==> createErr.None? || HasSubstring(ErrorText(createErr.value), AlreadyExists)
    ensures r.success ==> r.message == "Connected successfully to RocketMQ"
    ensures !r.success ==> r.message == "Failed to connect to RocketMQ: " + ErrorText(createErr.value)
  {
    if createErr.Some? && !HasSubstring(ErrorText(createErr.value), AlreadyExists) then
      TestResult(false, "Failed to connect to RocketMQ: " + ErrorText(createErr.value), latency)
    else
      TestResult(true, "Connected successfully to RocketMQ", latency)
  }

  /** Any error whose text carries the already-exists phrase, wherever in
      the text, counts as a successful probe. */
  lemma AlreadyExistsIsSuccess(before: string, after: string, latency: nat)
    ensures Probe(Some(Foreign(before + AlreadyExists + after)), latency).success
  {
    HasSubstringMiddle(before, AlreadyExists, after);
  }

  /** `%v` of a slice of errors: their texts between brackets, separated
      by spaces. */
  function ErrorListText(errs: seq<Error>): string
  {
    "[" + Join(Texts(errs), " ") + "]"
  }

  /** The texts of some errors, in order. */
  function Texts(errs: seq<Error>): (r: seq<string>)
    ensures |r| == |errs| && forall i :: 0 <= i < |errs| ==> r[i] == ErrorText(errs[i])
  {
    if errs == [] then [] else [ErrorText(errs[0])] + Texts(errs[1..])
  }

  /** The failures among the close outcomes of the three parts, in order. */
  function Failures(outcomes: seq<Option<Error>>): (errs: seq<Error>)
    ensures |errs| <= |outcomes|
    ensures errs == [] <==> forall i :: 0 <= i < |outcomes| ==> outcomes[i].None?
  {
    if outcomes == [] then []
    else (if outcomes[0].Some? then [outcomes[0].value] else []) + Failures(outcomes[1..])
  }

  /** The error of Client.Close for the close results of its parts. */
  function Aggregate(outcomes: seq<Option<Error>>): (r: Option<Error>)
    ensures r.None? <==> forall i :: 0 <= i < |outcomes| ==> outcomes[i].None?
    ensures r.Some? ==> r == Some(Foreign(ClosePrefix + ErrorListText(Failures(outcomes))))
  {
    var errs := Failures(outcomes);
    if errs == [] then None else Some(Foreign(ClosePrefix + ErrorListText(errs)))
  }

  /** A single failing part is reported with its own text in brackets. */
  lemma OneFailureText(e: Error)
    ensures Aggregate([None, Some(e), None]) == Some(Foreign(ClosePrefix + ("[" + ErrorText(e) + "]")))
  {
    FailuresOfThree([None, Some(e), None]);
    assert Failures([None, Some(e), None]) == [e];
    assert Texts([e]) == [ErrorText(e)];
    assert Join([ErrorText(e)], " ") == ErrorText(e);
    assert ErrorListText([e]) == "[" + ErrorText(e) + "]";
  }

  class Producer {
    var producer: Option<Handle>
    var config: Option<ConnectionConfig>

    /** NewProducer. */
    constructor ()
      ensures producer == None && config == None
    {
      producer, config := None, None;
    }

    /** Connect: the tag check, then the configuration is stored, the
        native producer created with the returned options and started. A
        creation failure is a connection error and leaves no native
        producer; a start failure is returned as it is, and the started
        producer stays in place, so the producer counts as connected. */
    method Connect(cfg: ConnectionConfig, createErr: Option<Error>, startErr: Option<Error>)
      returns (err: Option<Error>, options: Option<ProducerOptions>)
      modifies this
      ensures cfg.mqType != RocketMQ ==>
                err == Some(ValErr("Invalid MQ type for RocketMQ producer", cfg.mqType)) && options == None
                && unchanged(this)
      ensures cfg.mqType == RocketMQ ==> config == Some(cfg) && options == Some(ProducerOptionsFor(cfg))
      ensures cfg.mqType == RocketMQ && createErr.Some? ==>
                err == Some(ConnErr("Failed to create RocketMQ producer", createErr)) && producer == None
      ensures cfg.mqType == RocketMQ && createErr.None? ==> err == startErr && producer == Some(OpenHandle)
      ensures err.None? <==> cfg.mqType == RocketMQ && createErr.None? && startErr.None?
    {
      if cfg.mqType != RocketMQ {
        return Some(ValErr("Invalid MQ type for RocketMQ producer", cfg.mqType)), None;
      }
      config := Some(cfg);
      var creds: Option<Credentials> := None;
      if cfg.username != "" && cfg.password != "" {
        creds := Some(Credentials(cfg.username, cfg.password));
      }
      options := Some(ProducerOptions([Address(cfg.host, cfg.port)], creds));
      if createErr.Some? {
        producer := None;
        return Some(ConnErr("Failed to create RocketMQ producer", createErr)), options;
      }
      producer := Some(OpenHandle);
      err := startErr;
    }

    /** Produce: without a native producer, a connection error and nothing
        sent; otherwise the request's message is sent synchronously and
        the send's own error returned. The topic name is not checked. */
    function Produce(req: ProduceRequest, sendErr: Option<Error>): (r: SendOutcome)
      reads this
      ensures producer.None? ==> r == SendOutcome(Some(ConnErr("Producer not connected", None)), [])
      ensures producer.Some? ==> r == SendOutcome(sendErr, [ToNative(req)])
    {
      if producer.None? then SendOutcome(Some(ConnErr("Producer not connected", None)), [])
      else SendOutcome(sendErr, [ToNative(req)])
    }

    /** ProduceBatch: the same state check, then one synchronous send of
        all the requests' messages in order. An empty batch is handed to
        the native producer like any other. */
    method ProduceBatch(reqs: seq<ProduceRequest>, sendErr: Option<Error>) returns (r: SendOutcome)
      ensures producer.None? ==> r == SendOutcome(Some(ConnErr("Producer not connected", None)), [])
      ensures producer.Some? ==> r.err == sendErr && |r.sent| == |reqs|
                                 && forall i :: 0 <= i < |reqs| ==> r.sent[i] == ToNative(reqs[i])
    {
      if producer.None? {
        return SendOutcome(Some(ConnErr("Producer not connected", None)), []);
      }
      var msgs := BuildMessages(reqs);
      r := SendOutcome(sendErr, msgs);
    }

    /** A batch of one sends what Produce sends. */
    lemma BatchOfOne(req: ProduceRequest, sendErr: Option<Error>, r: SendOutcome)
      requires producer.Some?
      requires r.err == sendErr && |r.sent| == 1 && r.sent[0] == ToNative(req)
      ensures r == Produce(req, sendErr)
    {
    }

    /** Close shuts the native producer down, when there is one, and
        returns the shutdown's error; the native producer stays in the
        field. */
    method Close(shutdownErr: Option<Error>) returns (err: Option<Error>)
      modifies this
      ensures err == (if old(producer).Some? then shutdownErr else None)
      ensures producer == (if old(producer).Some? then Some(ClosedHandle) else None)
      ensures config == old(config)
    {
      if producer.Some? {
        producer := Some(ClosedHandle);
        return shutdownErr;
      }
      return None;
    }

    /** Connected exactly while a native producer exists, shut down or not. */
    function IsConnected(): (r: bool)
      reads this
      ensures r <==> producer.Some?
    {
      producer.Some?
    }
  }

  class Consumer {
    var consumer: Option<Handle>
    var config: Option<ConnectionConfig>

    /** NewConsumer. */
    constructor ()
      ensures consumer == None && config == None
    {
      consumer, config := None, None;
    }

    /** Connect only checks the tag and stores the configuration; nothing
        is dialled and the native consumer is not touched. */
    method Connect(cfg: ConnectionConfig) returns (err: Option<Error>)
      modifies this
      ensures cfg.mqType != RocketMQ ==>
                err == Some(ValErr("Invalid MQ type for RocketMQ consumer", cfg.mqType)) && config == old(config)
      ensures cfg.mqType == RocketMQ ==> err == None && config == Some(cfg)
      ensures consumer == old(consumer)
    {
      if cfg.mqType != RocketMQ {
        return Some(ValErr("Invalid MQ type for RocketMQ consumer", cfg.mqType));
      }
      config := Some(cfg);
      err := None;
    }

    /** Subscribe creates the native push consumer from the stored
        configuration and the request (the options are returned as
        `options`), then subscribes each topic in turn; `subscribe(i)` is
        the outcome for topic i. A creation failure leaves no native
        consumer; a subscription failure leaves it in place with the topics
        before the failing one subscribed. No topic at all is no error. */
    method Subscribe(req: ConsumeRequest, createErr: Option<Error>, subscribe: nat -> Option<Error>)
      returns (err: Option<Error>, options: ConsumerOptions, subscribed: seq<string>)
      requires config.Some?
      modifies this
      ensures config == old(config) && options == ConsumerOptionsFor(config.value, req)
      ensures createErr.Some? ==>
                err == Some(ConnErr("Failed to create RocketMQ consumer", createErr)) && consumer == None && subscribed == []
      ensures createErr.None? ==>
                consumer == Some(OpenHandle)
                && subscribed == req.topics[..FirstFailure(req.topics, subscribe)]
                && (err.None? <==> FirstFailure(req.topics, subscribe) == |req.topics|)
                && (err.Some? ==> err == Some(SubErr("Failed to subscribe to topic",
                                                     subscribe(FirstFailure(req.topics, subscribe)))))
    {
      var cfg := config.value;
      options := ConsumerOptions([Address(cfg.host, cfg.port)], req.groupId, CredentialsFor(cfg), req.fromBeginning);
      if createErr.Some? {
        consumer := None;
        return Some(ConnErr("Failed to create RocketMQ consumer", createErr)), options, [];
      }
      consumer := Some(OpenHandle);
      subscribed, err := SubscribeAll(req.topics, subscribe);
    }

    /** Consume: without a native consumer, a connection error; a start
        failure is a subscription error; otherwise the consumer runs until
        its context is done and the shutdown's error is returned. */
    function Consume(startErr: Option<Error>, shutdownErr: Option<Error>): (r: Option<Error>)
      reads this
      ensures consumer.None? ==> r == Some(ConnErr("Consumer not subscribed", None))
      ensures consumer.Some? && startErr.Some? ==> r == Some(SubErr("Failed to start consumer", startErr))
      ensures consumer.Some? && startErr.None? ==> r == shutdownErr
    {
      if consumer.None? then Some(ConnErr("Consumer not subscribed", None))
      else if startErr.Some? then Some(SubErr("Failed to start consumer", startErr))
      else shutdownErr
    }

    /** Close shuts the native consumer down, when there is one; it stays
        in the field. */
    method Close(shutdownErr: Option<Error>) returns (err: Option<Error>)
      modifies this
      ensures err == (if old(consumer).Some? then shutdownErr else None)
      ensures consumer == (if old(consumer).Some? then Some(ClosedHandle) else None)
      ensures config == old(config)
    {
      if consumer.Some? {
        consumer := Some(ClosedHandle);
        return shutdownErr;
      }
      return None;
    }

    /** Connected exactly when Subscribe has created a native consumer. */
    function IsConnected(): (r: bool)
      reads this
      ensures r <==> consumer.Some?
    {
      consumer.Some?
    }
  }

  class Admin {
    var admin: Option<Handle>
    var config: Option<ConnectionConfig>

    /** NewAdmin. */
    constructor ()
      ensures admin == None && config == None
    {
      admin, config := None, None;
    }

    /** Connect: the tag check, then the configuration is stored and the
        native admin created for the host:port end point (returned as
        `endpoint`); the creation error is returned as it is. */
    method Connect(cfg: ConnectionConfig, createErr: Option<Error>) returns (err: Option<Error>, endpoint: Option<string>)
      modifies this
      ensures cfg.mqType != RocketMQ ==>
                err == Some(ValErr("Invalid MQ type for RocketMQ admin", cfg.mqType)) && endpoint == None
                && admin == old(admin) && config == old(config)
      ensures cfg.mqType == RocketMQ ==>
                err == createErr && config == Some(cfg) && endpoint == Some(Address(cfg.host, cfg.port))
                && admin == (if createErr.Some? then None else Some(OpenHandle))
    {
      if cfg.mqType != RocketMQ {
        return Some(ValErr("Invalid MQ type for RocketMQ admin", cfg.mqType)), None;
      }
      config := Some(cfg);
      endpoint := Some(Address(cfg.host, cfg.port));
      if createErr.Some? {
        admin := None;
      } else {
        admin := Some(OpenHandle);
      }
      err := createErr;
    }

    /** TestConnection never fails with an error: without a native admin
        it reports that, otherwise it probes by creating the test topic. */
    function TestConnection(createErr: Option<Error>, latency: nat): (r: TestResult)
      reads this
      ensures r.latency == latency
      ensures admin.None? ==> r == TestResult(false, "Not connected to RocketMQ", latency)
      ensures admin.Some? ==> r == Probe(createErr, latency)
    {
      if admin.None? then TestResult(false, "Not connected to RocketMQ", latency)
      else Probe(createErr, latency)
    }

    /** The native call TestConnection makes: the creation of the test
        topic, when there is a native admin. */
    function TestConnectionCalls(): (calls: seq<AdminCall>)
      reads this
      ensures calls != [] <==> admin.Some?
      ensures calls != [] ==> calls == [CreateTopicCall(TestTopic)]
    {
      if admin.None? then [] else [CreateTopicCall(TestTopic)]
    }

    /** ListTopics is not supported: it always fails, with a connection
        error when there is no native admin. */
    function ListTopics(): (r: Result<seq<TopicInfo>, Error>)
      reads this
      ensures r.Err?
      ensures admin.None? ==> r.error == ConnErr("Not connected to RocketMQ", None)
      ensures admin.Some? ==> r.error == Foreign(TopicsUnsupported)
    {
      if admin.None? then Err(ConnErr("Not connected to RocketMQ", None)) else Err(Foreign(TopicsUnsupported))
    }

    /** The shared shape of CreateTopic and DeleteTopic: the state check,
        then the native call, whose error is returned as it is. */
    function AdminOperation(call: AdminCall, callErr: Option<Error>): (r: Outcome)
      reads this
      ensures admin.None? ==> r == Outcome(Some(ConnErr("Not connected to RocketMQ", None)), [])
      ensures admin.Some? ==> r == Outcome(callErr, [call])
    {
      if admin.None? then Outcome(Some(ConnErr("Not connected to RocketMQ", None)), [])
      else Outcome(callErr, [call])
    }

    /** CreateTopic: no check of the name; partitions and replicas are not
        passed on. */
    function CreateTopic(topic: string, partitions: int, replicas: int, createErr: Option<Error>): (r: Outcome)
      reads this
      ensures r.calls != [] <==> admin.Some?
      ensures r.calls != [] ==> r.calls == [CreateTopicCall(topic)] && r.err == createErr
    {
      AdminOperation(CreateTopicCall(topic), createErr)
    }

    /** Even a name the other families refuse reaches the broker, and the
        counts do not matter. */
    lemma CreateTopicUnchecked(topic: string, p1: int, r1: int, p2: int, r2: int, createErr: Option<Error>)
      requires admin.Some?
      ensures CreateTopic(topic, p1, r1, createErr) == CreateTopic(topic, p2, r2, createErr)
      ensures CreateTopic(topic, p1, r1, createErr).calls == [CreateTopicCall(topic)]
    {
    }

    function DeleteTopic(topic: string, deleteErr: Option<Error>): (r: Outcome)
      reads this
      ensures r.calls != [] <==> admin.Some?
      ensures r.calls != [] ==> r.calls == [DeleteTopicCall(topic)] && r.err == deleteErr
    {
      AdminOperation(DeleteTopicCall(topic), deleteErr)
    }

    /** ListConsumerGroups always fails, whatever the state. */
    function ListConsumerGroups(): (r: Result<seq<ConsumerGroup>, Error>)
      ensures r == Err(Foreign(GroupsUnsupported))
    {
      Err(Foreign(GroupsUnsupported))
    }

    /** Close closes the native admin, when there is one; it stays in the
        field. */
    method Close(closeErr: Option<Error>) returns (err: Option<Error>)
      modifies this
      ensures err == (if old(admin).Some? then closeErr else None)
      ensures admin == (if old(admin).Some? then Some(ClosedHandle) else None)
      ensures config == old(config)
    {
      if admin.Some? {
        admin := Some(ClosedHandle);
        return closeErr;
      }
      return None;
    }
  }

  /** The outcomes of the native calls Client.Connect makes. */
  datatype ConnectOutcomes = ConnectOutcomes(producerCreate: Option<Error>, producerStart: Option<Error>, adminCreate: Option<Error>)

  /** The outcomes of the three native closes. */
  datatype CloseOutcomes = CloseOutcomes(producer: Option<Error>, consumer: Option<Error>, admin: Option<Error>)

  class Client {
    const producer: Producer
    const consumer: Consumer
    const admin: Admin
    var config: Option<ConnectionConfig>

    /** The three parts are distinct objects. */
    ghost predicate Valid()
      reads this
    {
      producer != consumer as object && consumer as object != admin && producer as object != admin
    }

    /** NewClient: three fresh parts. */
    constructor ()
      ensures Valid() && fresh(producer) && fresh(consumer) && fresh(admin) && config == None
      ensures producer.producer == None && consumer.consumer == None && admin.admin == None
    {
      producer := new Producer();
      consumer := new Consumer();
      admin := new Admin();
      config := None;
    }

    /** Connect: the configuration is stored, then the producer, the
        consumer and the admin are connected in turn, and the first error is
        returned; the parts connected before it stay connected. The consumer
        only checks the tag, which the producer has already checked. */
    method Connect(cfg: ConnectionConfig, o: ConnectOutcomes) returns (err: Option<Error>)
      requires Valid()
      modifies this, producer, consumer, admin
      ensures Valid() && config == Some(cfg)
      ensures cfg.mqType != RocketMQ ==>
                err == Some(ValErr("Invalid MQ type for RocketMQ producer", cfg.mqType))
                && unchanged(producer) && unchanged(consumer) && unchanged(admin)
      ensures cfg.mqType == RocketMQ && o.producerCreate.Some? ==>
                err == Some(ConnErr("Failed to create RocketMQ producer", o.producerCreate))
                && !producer.IsConnected() && unchanged(consumer) && unchanged(admin)
      ensures cfg.mqType == RocketMQ && o.producerCreate.None? && o.producerStart.Some? ==>
                err == o.producerStart && producer.IsConnected() && unchanged(consumer) && unchanged(admin)
      ensures cfg.mqType == RocketMQ && o.producerCreate.None? && o.producerStart.None? ==>
                err == o.adminCreate && producer.IsConnected() && consumer.config == Some(cfg)
                && admin.config == Some(cfg) && (admin.admin.Some? <==> o.adminCreate.None?)
      ensures consumer.consumer == old(consumer.consumer)
      ensures err.None? <==>
                cfg.mqType == RocketMQ && o.producerCreate.None? && o.producerStart.None? && o.adminCreate.None?
      ensures err.None? ==> (IsConnected() <==> old(consumer.consumer).Some?)
    {
      config := Some(cfg);
      var e, opts := producer.Connect(cfg, o.producerCreate, o.producerStart);
      if e.Some? {
        return e;
      }
      e := consumer.Connect(cfg);
      if e.Some? {
        return e;
      }
      var endpoint;
      e, endpoint := admin.Connect(cfg, o.adminCreate);
      if e.Some? {
        return e;
      }
      return None;
    }

    /** The error Close returns for the given outcomes, in the present
        state of the parts. */
    function CloseResult(o: CloseOutcomes): Option<Error>
      reads this, producer, consumer, admin
    {
      Aggregate([if producer.producer.Some? then o.producer else None,
                 if consumer.consumer.Some? then o.consumer else None,
                 if admin.admin.Some? then o.admin else None])
    }

    /** Close closes all three parts, whatever fails, and reports every
        failure in one error. */
    method Close(o: CloseOutcomes) returns (err: Option<Error>)
      requires Valid()
      modifies producer, consumer, admin
      ensures err == old(CloseResult(o))
      ensures producer.producer == (if old(producer.producer).Some? then Some(ClosedHandle) else None)
      ensures consumer.consumer == (if old(consumer.consumer).Some? then Some(ClosedHandle) else None)
      ensures admin.admin == (if old(admin.admin).Some? then Some(ClosedHandle) else None)
      ensures IsConnected() == old(IsConnected())
    {
      var errs: seq<Error> := [];
      var e1 := producer.Close(o.producer);
      if e1.Some? {
        errs := errs + [e1.value];
      }
      var e2 := consumer.Close(o.consumer);
      if e2.Some? {
        errs := errs + [e2.value];
      }
      var e3 := admin.Close(o.admin);
      if e3.Some? {
        errs := errs + [e3.value];
      }
      FailuresOfThree([e1, e2, e3]);
      assert errs == Failures([e1, e2, e3]);
      assert [e1, e2, e3] == old([if producer.producer.Some? then o.producer else None,
                                  if consumer.consumer.Some? then o.consumer else None,
                                  if admin.admin.Some? then o.admin else None]);
      if |errs| > 0 {
        return Some(Foreign(ClosePrefix + ErrorListText(errs)));
      }
      return None;
    }

    /** Close fails exactly when a part that has a native object fails to
        close it. */
    lemma CloseFailsIffPartFails(o: CloseOutcomes)
      ensures CloseResult(o).None? <==>
                (producer.producer.None? || o.producer.None?)
                && (consumer.consumer.None? || o.consumer.None?)
                && (admin.admin.None? || o.admin.None?)
    {
      var s := [if producer.producer.Some? then o.producer else None,
                if consumer.consumer.Some? then o.consumer else None,
                if admin.admin.Some? then o.admin else None];
      assert CloseResult(o).None? <==> s[0].None? && s[1].None? && s[2].None?;
    }

    /** Connected when the producer and the consumer are; the admin is not
        consulted. */
    function IsConnected(): (r: bool)
      reads this, producer, consumer
      ensures r <==> producer.producer.Some? && consumer.consumer.Some?
    {
      producer.IsConnected() && consumer.IsConnected()
    }

    /** The data operations pass through to the part that owns them. */
    function Produce(req: ProduceRequest, sendErr: Option<Error>): (r: SendOutcome)
      reads this, producer
      ensures r == producer.Produce(req, sendErr)
    {
      producer.Produce(req, sendErr)
    }

    method ProduceBatch(reqs: seq<ProduceRequest>, sendErr: Option<Error>) returns (r: SendOutcome)
      ensures producer.producer.None? ==> r == SendOutcome(Some(ConnErr("Producer not connected", None)), [])
      ensures producer.producer.Some? ==> r.err == sendErr && |r.sent| == |reqs|
                                          && forall i :: 0 <= i < |reqs| ==> r.sent[i] == ToNative(reqs[i])
    {
      r := producer.ProduceBatch(reqs, sendErr);
    }

    method Subscribe(req: ConsumeRequest, createErr: Option<Error>, subscribe: nat -> Option<Error>)
      returns (err: Option<Error>, options: ConsumerOptions, subscribed: seq<string>)
      requires consumer.config.Some?
      modifies consumer
      ensures consumer.config == old(consumer.config) && options == ConsumerOptionsFor(consumer.config.value, req)
      ensures createErr.Some? ==>
                err == Some(ConnErr("Failed to create RocketMQ consumer", createErr))
                && consumer.consumer == None && subscribed == []
      ensures createErr.None? ==>
                consumer.consumer == Some(OpenHandle)
                && subscribed == req.topics[..FirstFailure(req.topics, subscribe)]
                && (err.None? <==> FirstFailure(req.topics, subscribe) == |req.topics|)
                && (err.Some? ==> err == Some(SubErr("Failed to subscribe to topic",
                                                     subscribe(FirstFailure(req.topics, subscribe)))))
    {
      err, options, subscribed := consumer.Subscribe(req, createErr, subscribe);
    }

    function Consume(startErr: Option<Error>, shutdownErr: Option<Error>): (r: Option<Error>)
      reads this, consumer
      ensures r == consumer.Consume(startErr, shutdownErr)
    {
      consumer.Consume(startErr, shutdownErr)
    }

    function TestConnection(createErr: Option<Error>, latency: nat): (r: TestResult)
      reads this, admin
      ensures r == admin.TestConnection(createErr, latency)
    {
      admin.TestConnection(createErr, latency)
    }

    function ListTopics(): (r: Result<seq<TopicInfo>, Error>)
      reads this, admin
      ensures r == admin.ListTopics()
      ensures r.Err?
    {
      admin.ListTopics()
    }

    function CreateTopic(topic: string, partitions: int, replicas: int, createErr: Option<Error>): (r: Outcome)
      reads this, admin
      ensures r == admin.CreateTopic(topic, partitions, replicas, createErr)
    {
      admin.CreateTopic(topic, partitions, replicas, createErr)
    }

    function DeleteTopic(topic: string, deleteErr: Option<Error>): (r: Outcome)
      reads this, admin
      ensures r == admin.DeleteTopic(topic, deleteErr)
    {
      admin.DeleteTopic(topic, deleteErr)
    }

    function ListConsumerGroups(): (r: Result<seq<ConsumerGroup>, Error>)
      reads this
      ensures r == admin.ListConsumerGroups()
      ensures r == Err(Foreign(GroupsUnsupported))
    {
      admin.ListConsumerGroups()
    }
  }

  /** The errors collected by Close are the failures among its results. */
  lemma FailuresOfThree(results: seq<Option<Error>>)
    requires |results| == 3
    ensures Failures(results) == (if results[0].Some? then [results[0].value] else [])
                                 + (if results[1].Some? then [results[1].value] else [])
                                 + (if results[2].Some? then [results[2].value] else [])
  {
    var r1 := results[1..];
    var r2 := r1[1..];
    assert r2[1..] == [];
    assert Failures(r2) == (if results[2].Some? then [results[2].value] else []) + Failures(r2[1..]);
    assert Failures(r1) == (if results[1].Some? then [results[1].value] else []) + Failures(r2);
  }
}
