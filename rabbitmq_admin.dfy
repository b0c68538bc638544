/** The RabbitMQ administration adapter of internal/mq/rabbitmq/admin.go.
    Queues play the part of topics. The AMQP connection and channel are
    abstract handles; the management API's HTTP call is an outcome supplied
    by the caller, together with the request it would be made with. */
module RabbitAdmin {

  import opened Types
  import opened GoStd
  import opened Errors
  import opened RabbitCommon
  import Utils

  const ManagementPort: string := "15672"

  /** A queue as the management API describes it. */
  datatype QueueInfo = QueueInfo(
    name: string, vhost: string, durable: bool, autoDelete: bool, messages: int, consumers: int)

  /** The management API request: its URL and the basic-auth credentials. */
  datatype ApiRequest = ApiRequest(url: string, username: string, password: string)

  /** The result of a queue operation and the channel calls it made. */
  datatype Outcome = Outcome(err: Option<Error>, calls: seq<ChannelCall>)

  /** The URL the admin dials: missing credentials become guest/guest. */
  function AdminURL(cfg: ConnectionConfig): (u: string)
    ensures cfg.username != "" && cfg.password != "" ==>
              u == AmqpURL(cfg.username, cfg.password, cfg.host, cfg.port, VHostOrRoot(cfg.vhost))
    ensures cfg.username == "" && cfg.password != "" ==>
              u == AmqpURL("guest", cfg.password, cfg.host, cfg.port, VHostOrRoot(cfg.vhost))
    ensures cfg.username != "" && cfg.password == "" ==>
              u == AmqpURL(cfg.username, "guest", cfg.host, cfg.port, VHostOrRoot(cfg.vhost))
    ensures cfg.username == "" && cfg.password == "" ==>
              u == AmqpURL("guest", "guest", cfg.host, cfg.port, VHostOrRoot(cfg.vhost))
  {
    AmqpURL(GuestDefault(cfg.username), GuestDefault(cfg.password), cfg.host, cfg.port, VHostOrRoot(cfg.vhost))
  }

  /** The request listing the queues of the configured virtual host on
      the management port of the configured host, escaped for a query. */
  function Management(cfg: ConnectionConfig): (r: ApiRequest)
    ensures IsPrefix("http://" + cfg.host + ":" + ManagementPort + "/api/queues/", r.url)
    ensures r.url[|"http://" + cfg.host + ":" + ManagementPort + "/api/queues/"|..] == QueryEscape(VHostOrRoot(cfg.vhost))
    ensures r.username == GuestDefault(cfg.username) && r.password == GuestDefault(cfg.password)
  {
    ApiRequest("http://" + cfg.host + ":" + ManagementPort + "/api/queues/" + QueryEscape(VHostOrRoot(cfg.vhost)),
               GuestDefault(cfg.username), GuestDefault(cfg.password))
  }

  /** Without a virtual host the default one, "/", is asked for as "%2F",
      and without credentials as guest. */
  lemma ManagementDefaults(cfg: ConnectionConfig)
    requires cfg.vhost == "" && cfg.username == "" && cfg.password == ""
    ensures Management(cfg) == ApiRequest("http://" + cfg.host + ":15672/api/queues/%2F", "guest", "guest")
  {
    QueryEscapeSlash();
    var head := "http://" + cfg.host;
    var tail := ":" + ManagementPort + "/api/queues/" + "%2F";
    assert tail == ":15672/api/queues/%2F";
    assert head + ":" + ManagementPort + "/api/queues/" + "%2F" == head + tail;
  }

  /** A queue seen as a topic: no partitions and no replicas beyond one. */
  function QueueTopic(q: QueueInfo): (t: TopicInfo)
    ensures t.name == q.name && t.partitions == 1 && t.replicas == 1
  {
    TopicInfo(q.name, 1, 1)
  }

  class Admin {
    var conn: Option<Handle>
    var channel: Option<Handle>
    var connected: bool
    var config: Option<ConnectionConfig>

    /** Connection and channel exist together, exactly while connected,
        and a connected admin has a configuration. */
    ghost predicate Valid()
      reads this
    {
      (connected <==> conn.Some?) && (conn.Some? <==> channel.Some?) && (connected ==> config.Some?)
    }

    /** NewAdmin. */
    constructor ()
      ensures Valid() && conn == None && channel == None && !connected && config == None
    {
      conn, channel, connected, config := None, None, false, None;
    }

    /** Connect: the tag check, then the configuration is stored and the
        guest-defaulted URL dialled (returned as `dialled`), then a channel
        is opened. A channel failure closes the new connection; either
        failure leaves the previous connection state in place. */
    method Connect(cfg: ConnectionConfig, dialErr: Option<Error>, channelErr: Option<Error>)
      returns (err: Option<Error>, dialled: Option<string>)
      requires Valid()
      modifies this
      ensures Valid()
      ensures cfg.mqType != RabbitMQ ==>
                err == Some(ValErr("Invalid MQ type for RabbitMQ admin", cfg.mqType)) && dialled == None
                && conn == old(conn) && channel == old(channel) && connected == old(connected) && config == old(config)
      ensures cfg.mqType == RabbitMQ ==> dialled == Some(AdminURL(cfg)) && config == Some(cfg)
      ensures cfg.mqType == RabbitMQ && dialErr.Some? ==>
                err == Some(ConnErr("Failed to connect to RabbitMQ", dialErr))
                && conn == old(conn) && channel == old(channel) && connected == old(connected)
      ensures cfg.mqType == RabbitMQ && dialErr.None? && channelErr.Some? ==>
                err == Some(ConnErr("Failed to create channel", channelErr))
                && conn == old(conn) && channel == old(channel) && connected == old(connected)
      ensures cfg.mqType == RabbitMQ && dialErr.None? && channelErr.None? ==>
                err == None && conn == Some(OpenHandle) && channel == Some(OpenHandle) && connected
    {
      if cfg.mqType != RabbitMQ {
        return Some(ValErr("Invalid MQ type for RabbitMQ admin", cfg.mqType)), None;
      }
      config := Some(cfg);
      var vhost := cfg.vhost;
      if vhost == "" {
        vhost := "/";
      }
      var username := cfg.username;
      var password := cfg.password;
      if username == "" {
        username := "guest";
      }
      if password == "" {
        password := "guest";
      }
      dialled := Some(AmqpURL(username, password, cfg.host, cfg.port, vhost));
      if dialErr.Some? {
        return Some(ConnErr("Failed to connect to RabbitMQ", dialErr)), dialled;
      }
      if channelErr.Some? {
        return Some(ConnErr("Failed to create channel", channelErr)), dialled;
      }
      conn, channel, connected := Some(OpenHandle), Some(OpenHandle), true;
      err := None;
    }

    /** TestConnection declares and deletes a temporary queue; it reports
        every failure in the result, never as an error. */
    function TestConnection(declareErr: Option<Error>, deleteErr: Option<Error>, latency: nat): (r: TestResult)
      reads this
      ensures r.latency == latency
      ensures r.success <==> connected && conn.Some? && channel.Some? && !conn.value.closed
                             && declareErr.None? && deleteErr.None?
      ensures !(connected && conn.Some? && channel.Some?) ==> r.message == "Not connected to RabbitMQ"
      ensures connected && conn.Some? && channel.Some? && conn.value.closed ==> r.message == "Connection is closed"
      ensures connected && conn.Some? && channel.Some? && !conn.value.closed && declareErr.Some? ==>
                r.message == "Failed to declare test queue: " + ErrorText(declareErr.value)
      ensures connected && conn.Some? && channel.Some? && !conn.value.closed && declareErr.None? && deleteErr.Some? ==>
                r.message == "Failed to delete test queue: " + ErrorText(deleteErr.value)
      ensures r.success ==> r.message == "Connected successfully to RabbitMQ"
    {
      if !connected || conn.None? || channel.None? then TestResult(false, "Not connected to RabbitMQ", latency)
      else if conn.value.closed then TestResult(false, "Connection is closed", latency)
      else if declareErr.Some? then
        TestResult(false, "Failed to declare test queue: " + ErrorText(declareErr.value), latency)
      else if deleteErr.Some? then
        TestResult(false, "Failed to delete test queue: " + ErrorText(deleteErr.value), latency)
      else TestResult(true, "Connected successfully to RabbitMQ", latency)
    }

    /** ListTopics asks the management API (the request made is returned
        as `request`) and maps each queue to a topic; a failing API yields
        an empty list, not an error. */
    method ListTopics(api: Result<seq<QueueInfo>, Error>) returns (r: Result<seq<TopicInfo>, Error>, request: Option<ApiRequest>)
      requires Valid()
      ensures !(connected && channel.Some?) ==> r == Err(ConnErr("Not connected to RabbitMQ", None)) && request == None
      ensures connected && channel.Some? ==> r.Ok? && request == Some(Management(config.value))
      ensures connected && channel.Some? && api.Err? ==> r.value == []
      ensures connected && channel.Some? && api.Ok? ==>
                |r.value| == |api.value| && forall i :: 0 <= i < |api.value| ==> r.value[i] == QueueTopic(api.value[i])
    {
      if !connected || channel.None? {
        return Err(ConnErr("Not connected to RabbitMQ", None)), None;
      }
      request := Some(Management(config.value));
      if api.Err? {
        return Ok([]), request;
      }
      var queues := api.value;
      var topics: seq<TopicInfo> := [];
      for i := 0 to |queues|
        invariant |topics| == i
        invariant forall j :: 0 <= j < i ==> topics[j] == QueueTopic(queues[j])
      {
        topics := topics + [TopicInfo(queues[i].name, 1, 1)];
      }
      r := Ok(topics);
    }

    /** The shared shape of CreateTopic and DeleteTopic: the state check,
        the name check, then one channel call. */
    function QueueOperation(topic: string, call: ChannelCall, failText: string, callErr: Option<Error>): (r: Outcome)
      reads this
      ensures !(connected && channel.Some?) ==> r == Outcome(Some(ConnErr("Not connected to RabbitMQ", None)), [])
      ensures connected && channel.Some? && !Utils.ValidTopic(topic) ==>
                r == Outcome(Some(ValErr("Invalid queue name", topic)), [])
      ensures r.calls != [] <==> connected && channel.Some? && Utils.ValidTopic(topic)
      ensures r.calls != [] ==> r.calls == [call] && r.err == (if callErr.Some? then Some(ConnErr(failText, callErr)) else None)
    {
      if !connected || channel.None? then Outcome(Some(ConnErr("Not connected to RabbitMQ", None)), [])
      else if !Utils.ValidTopic(topic) then Outcome(Some(ValErr("Invalid queue name", topic)), [])
      else if callErr.Some? then Outcome(Some(ConnErr(failText, callErr)), [call])
      else Outcome(None, [call])
    }

    /** CreateTopic declares a durable queue; partitions and replicas are
        ignored. */
    function CreateTopic(topic: string, partitions: int, replicas: int, declareErr: Option<Error>): (r: Outcome)
      reads this
      ensures r.calls != [] ==> r.calls == [DurableQueue(topic)]
      ensures r.calls != [] && declareErr.Some? ==> r.err == Some(ConnErr("Failed to create queue", declareErr))
      ensures r.err.None? <==> r.calls != [] && declareErr.None?
    {
      QueueOperation(topic, DurableQueue(topic), "Failed to create queue", declareErr)
    }

    /** The partition and replica counts have no effect. */
    lemma CreateTopicIgnoresCounts(topic: string, p1: int, r1: int, p2: int, r2: int, declareErr: Option<Error>)
      ensures CreateTopic(topic, p1, r1, declareErr) == CreateTopic(topic, p2, r2, declareErr)
    {
    }

    function DeleteTopic(topic: string, deleteErr: Option<Error>): (r: Outcome)
      reads this
      ensures r.calls != [] ==> r.calls == [QueueDelete(topic)]
      ensures r.calls != [] && deleteErr.Some? ==> r.err == Some(ConnErr("Failed to delete queue", deleteErr))
      ensures r.err.None? <==> r.calls != [] && deleteErr.None?
    {
      QueueOperation(topic, QueueDelete(topic), "Failed to delete queue", deleteErr)
    }

    /** RabbitMQ has no consumer groups: the list is empty whatever the
        state. */
    function ListConsumerGroups(): (r: Result<seq<ConsumerGroup>, Error>)
      ensures r == Ok([])
    {
      Ok([])
    }

    /** The error Close returns for the given outcomes of closing the
        channel and the connection. */
    function CloseResult(channelErr: Option<Error>, connErr: Option<Error>): Option<Error>
      reads this
    {
      CloseOutcome(channel, conn, channelErr, connErr)
    }

    /** Close closes the channel, then the connection, keeps the last
        failure, and forgets everything. */
    method Close(channelErr: Option<Error>, connErr: Option<Error>) returns (err: Option<Error>)
      requires Valid()
      modifies this
      ensures Valid()
      ensures err == old(CloseResult(channelErr, connErr))
      ensures conn == None && channel == None && !connected && config == None
    {
      var lastErr: Option<Error> := None;
      if channel.Some? {
        if channelErr.Some? {
          lastErr := channelErr;
        }
        channel := None;
      }
      if conn.Some? {
        if connErr.Some? {
          lastErr := connErr;
        }
        conn := None;
      }
      connected, config := false, None;
      return lastErr;
    }
  }
}
