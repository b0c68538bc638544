/** The application service of internal/service/app_service.go: the front
    door of the toolkit. It looks connection configurations up, tests
    them, keeps one cached client per connection for producing and for
    topic administration, records what it did in the history, and hands
    consuming to the consumer service. Clients are made by the factory and
    known here by a reference; what their Connect, IsConnected, Produce,
    ListTopics, CreateTopic, DeleteTopic and TestConnection return is
    supplied by the caller, as are the latency and the generated history
    ids. The mutex that guards the cache is not modelled; the service's
    log lines are not modelled either. */
module AppService {

  import opened Types
  import opened Errors
  import opened GoStd
  import F = Factory
  import CS = ConfigService
  import HS = HistoryService
  import CSvc = ConsumerService

  /** A client adapter made by the factory; `serial` tells apart the
      clients the service has made. */
  datatype ClientRef = ClientRef(serial: nat, adapter: F.Adapter)

  /** The client cache: the cached client of every connection, the serial
      of the next client made, and every client closed so far, in order. */
  datatype CacheState = CacheState(clients: map<string, ClientRef>, nextSerial: nat, closed: seq<ClientRef>)

  /** The cache is reused for a connection when it holds a client for it
      and that client reports itself connected (`connected`). */
  predicate Hit(s: CacheState, connectionId: string, connected: bool)
    ensures Hit(s, connectionId, connected) ==> connectionId in s.clients
    ensures !connected ==> !Hit(s, connectionId, connected)
  {
    connectionId in s.clients && connected
  }

  /** The client getOrCreateClient returns: the cached one on a hit;
      otherwise a new client of the configuration's family, unless the
      factory refuses the tag or its Connect fails (`connectErr`), whose
      errors are returned unchanged. */
  function Lookup(s: CacheState, connectionId: string, config: ConnectionConfig, connected: bool,
                  connectErr: Option<Error>): (r: Result<ClientRef, Error>)
    ensures Hit(s, connectionId, connected) ==> r == Ok(s.clients[connectionId])
    ensures !Hit(s, connectionId, connected) && r.Ok? ==>
              r.value.serial == s.nextSerial && r.value.adapter.role == F.ClientRole
              && F.TagOf(r.value.adapter.family) == config.mqType && connectErr.None?
    ensures !Hit(s, connectionId, connected) && r.Err? ==>
              (!F.Supported(config.mqType) && r.error == Foreign("unsupported mq type: " + config.mqType))
              || (F.Supported(config.mqType) && connectErr == Some(r.error))
  {
    if Hit(s, connectionId, connected) then Ok(s.clients[connectionId])
    else match F.CreateClient(config.mqType)
      case Err(e) => Err(e)
      case Ok(a) => if connectErr.Some? then Err(connectErr.value) else Ok(ClientRef(s.nextSerial, a))
  }

  /** How getOrCreateClient changes the cache: a hit or a refused tag
      changes nothing; a new client whose Connect fails is closed and
      not cached; a new connected client is cached for the connection,
      replacing a stale one without closing it. */
  predicate ClientStep(s: CacheState, t: CacheState, connectionId: string, config: ConnectionConfig,
                       connected: bool, connectErr: Option<Error>)
    ensures ClientStep(s, t, connectionId, config, connected, connectErr) ==>
              s.nextSerial <= t.nextSerial <= s.nextSerial + 1 && |s.closed| <= |t.closed| <= |s.closed| + 1
    ensures ClientStep(s, t, connectionId, config, connected, connectErr) && t.nextSerial == s.nextSerial ==> t == s
  {
    if Hit(s, connectionId, connected) then t == s
    else match F.CreateClient(config.mqType)
      case Err(_) => t == s
      case Ok(a) =>
        var made := ClientRef(s.nextSerial, a);
        if connectErr.Some? then t == CacheState(s.clients, s.nextSerial + 1, s.closed + [made])
        else t == CacheState(s.clients[connectionId := made], s.nextSerial + 1, s.closed)
  }

  /** Every cached client was made by the service. */
  predicate Made(s: CacheState)
  {
    forall id :: id in s.clients ==> s.clients[id].serial < s.nextSerial
  }

  /** The step keeps every cached client one the service made, and the
      closed clients only grow. */
  lemma StepKeepsMade(s: CacheState, t: CacheState, connectionId: string, config: ConnectionConfig,
                      connected: bool, connectErr: Option<Error>)
    requires Made(s) && ClientStep(s, t, connectionId, config, connected, connectErr)
    ensures Made(t)
    ensures |s.closed| <= |t.closed| && t.closed[..|s.closed|] == s.closed
  {
    if !Hit(s, connectionId, connected) && F.CreateClient(config.mqType).Ok? {
      assert t.closed[..|s.closed|] == s.closed;
    }
  }

  /** The client returned is the one cached for the connection afterwards;
      after a failure the cache of connections is as it was. */
  lemma StepCachesResult(s: CacheState, t: CacheState, connectionId: string, config: ConnectionConfig,
                         connected: bool, connectErr: Option<Error>)
    requires ClientStep(s, t, connectionId, config, connected, connectErr)
    ensures Lookup(s, connectionId, config, connected, connectErr).Ok? ==>
              connectionId in t.clients && t.clients[connectionId] == Lookup(s, connectionId, config, connected, connectErr).value
    ensures Lookup(s, connectionId, config, connected, connectErr).Err? ==> t.clients == s.clients
  {
  }

  /** A new client is different from every client cached before it. */
  lemma NewClientIsFresh(s: CacheState, connectionId: string, config: ConnectionConfig, connectErr: Option<Error>)
    requires Made(s)
    requires !Hit(s, connectionId, false)
    requires Lookup(s, connectionId, config, false, connectErr).Ok?
    ensures forall id :: id in s.clients ==> s.clients[id] != Lookup(s, connectionId, config, false, connectErr).value
  {
  }

  /** Asked again while its client is still connected, the service returns
      the client of the first call and changes nothing. */
  lemma SecondCallReuses(s: CacheState, t: CacheState, connectionId: string, config: ConnectionConfig,
                         connected: bool, connectErr: Option<Error>, config2: ConnectionConfig,
                         connectErr2: Option<Error>)
    requires ClientStep(s, t, connectionId, config, connected, connectErr)
    requires Lookup(s, connectionId, config, connected, connectErr).Ok?
    ensures Lookup(t, connectionId, config2, true, connectErr2) == Lookup(s, connectionId, config, connected, connectErr)
    ensures ClientStep(t, t, connectionId, config2, true, connectErr2)
  {
    StepCachesResult(s, t, connectionId, config, connected, connectErr);
  }

  /** The history holds `rec` afterwards exactly when its insert succeeds:
      a fresh id and no database failure. */
  predicate Recorded(before: seq<HistoryRecord>, after: seq<HistoryRecord>, rec: HistoryRecord,
                     freshId: string, insertErr: Option<Error>)
  {
    (insertErr.None? && freshId !in HS.Ids(before) ==> after == before + [rec])
    && (!(insertErr.None? && freshId !in HS.Ids(before)) ==> after == before)
  }

  /** The result of a connection test that reached the broker: the
      adapter's result, or a failure when it returned none, with the
      measured latency. */
  function Reported(adapterResult: Option<TestResult>, latency: nat): (r: TestResult)
    ensures r.latency == latency
    ensures r.success <==> adapterResult.Some? && adapterResult.value.success
    ensures adapterResult.Some? ==> r.message == adapterResult.value.message
    ensures adapterResult.None? ==> r.message == "Test returned a nil result"
  {
    var res := if adapterResult.Some? then adapterResult.value else TestResult(false, "Test returned a nil result", 0);
    res.(latency := latency)
  }

  /** The history message of a produce attempt. */
  function ProduceText(produceErr: Option<Error>): string
  {
    if produceErr.None? then "Message sent successfully" else "Failed to send message: " + ErrorText(produceErr.value)
  }

  /** The history message tells a delivered message from a failed one. */
  lemma ProduceTextTellsOutcome(produceErr: Option<Error>)
    ensures ProduceText(produceErr) == "Message sent successfully" <==> produceErr.None?
  {
    if produceErr.Some? {
      assert ProduceText(produceErr)[0] == 'F';
    }
  }

  /** The clients of the connections `order` names, in that order. */
  function ClientsOf(clients: map<string, ClientRef>, order: seq<string>): (r: seq<ClientRef>)
    requires forall k :: k in order ==> k in clients
    ensures |r| == |order| && forall i :: 0 <= i < |order| ==> r[i] == clients[order[i]]
  {
    if order == [] then [] else ClientsOf(clients, order[..|order| - 1]) + [clients[order[|order| - 1]]]
  }

  class App {
    const configs: CS.Configs
    const history: HS.History
    const consumers: CSvc.Consumers
    var activeClients: map<string, ClientRef>
    var nextSerial: nat
    var closed: seq<ClientRef>

    /** The client cache as a value. */
    function Cache(): CacheState
      reads this
    {
      CacheState(activeClients, nextSerial, closed)
    }

    /** The consumer service works on the same configurations and history
        as this service, and every cached client was made here. */
    ghost predicate Valid()
      reads this, consumers, history
    {
      consumers.configs == configs && consumers.history == history
      && consumers.Valid() && history.Valid() && Made(Cache())
    }

    /** NewAppService: fresh configuration, history and consumer services
        and an empty cache. */
    constructor ()
      ensures Valid() && fresh(configs) && fresh(history) && fresh(consumers)
      ensures configs.rows == [] && history.records == [] && consumers.activeSubs == map[]
      ensures activeClients == map[] && nextSerial == 0 && closed == []
    {
      var c := new CS.Configs();
      var h := new HS.History();
      configs, history := c, h;
      consumers := new CSvc.Consumers(c, h);
      activeClients, nextSerial, closed := map[], 0, [];
    }

    /** getOrCreateClient; `connected` is what the cached client's
        IsConnected answers, `connectErr` what a new client's Connect
        returns. */
    method GetOrCreateClient(connectionId: string, config: ConnectionConfig, connected: bool, connectErr: Option<Error>)
      returns (r: Result<ClientRef, Error>)
      requires Valid()
      modifies this
      ensures Valid()
      ensures r == old(Lookup(Cache(), connectionId, config, connected, connectErr))
      ensures ClientStep(old(Cache()), Cache(), connectionId, config, connected, connectErr)
    {
      if connectionId in activeClients && connected {
        return Ok(activeClients[connectionId]);
      }
      var made := F.CreateClient(config.mqType);
      if made.Err? {
        return Err(made.error);
      }
      var client := ClientRef(nextSerial, made.value);
      nextSerial := nextSerial + 1;
      if connectErr.Some? {
        closed := closed + [client];
        return Err(connectErr.value);
      }
      activeClients := activeClients[connectionId := client];
      r := Ok(client);
    }

    /** TestConnection: the configuration, a new admin of its family and
        its Connect, then the admin's own test (`adapterResult`); every
        outcome carries the latency. A test that reached Connect is
        recorded in the history and closes its admin (`adminClosed`); the
        earlier failures record nothing. */
    method TestConnection(connectionId: string, getErr: Option<Error>, adminConnectErr: Option<Error>,
                          adapterResult: Option<TestResult>, latency: nat, freshId: string, insertErr: Option<Error>)
      returns (r: TestResult, adminClosed: bool)
      requires Valid()
      modifies history
      ensures Valid()
      ensures r.latency == latency
      ensures var cfg := configs.GetConnection(connectionId, getErr);
              cfg.Err? ==>
                r == TestResult(false, "Failed to get connection config: " + ErrorText(cfg.error), latency)
                && !adminClosed && history.records == old(history.records)
      ensures var cfg := configs.GetConnection(connectionId, getErr);
              cfg.Ok? && F.CreateAdmin(cfg.value.mqType).Err? ==>
                r == TestResult(false, "Failed to create admin client: " + ErrorText(F.CreateAdmin(cfg.value.mqType).error), latency)
                && !adminClosed && history.records == old(history.records)
      ensures var cfg := configs.GetConnection(connectionId, getErr);
              cfg.Ok? && F.CreateAdmin(cfg.value.mqType).Ok? ==>
                adminClosed
                && (adminConnectErr.Some? ==> r == TestResult(false, "Connection failed: " + ErrorText(adminConnectErr.value), latency))
                && (adminConnectErr.None? ==> r == Reported(adapterResult, latency))
                && Recorded(old(history.records), history.records,
                            HS.History.Tagged(freshId, connectionId, HS.TestType, "", r.success, r.message, latency), freshId, insertErr)
    {
      var cfg := configs.GetConnection(connectionId, getErr);
      if cfg.Err? {
        return TestResult(false, "Failed to get connection config: " + ErrorText(cfg.error), latency), false;
      }
      var admin := F.CreateAdmin(cfg.value.mqType);
      if admin.Err? {
        return TestResult(false, "Failed to create admin client: " + ErrorText(admin.error), latency), false;
      }
      adminClosed := true;
      if adminConnectErr.Some? {
        r := TestResult(false, "Connection failed: " + ErrorText(adminConnectErr.value), latency);
        var _ := history.AddTestRecord(connectionId, false, r.message, latency, freshId, insertErr);
        return;
      }
      var testResult := TestResult(false, "Test returned a nil result", 0);
      if adapterResult.Some? {
        testResult := adapterResult.value;
      }
      r := testResult.(latency := latency);
      var _ := history.AddTestRecord(connectionId, r.success, r.message, latency, freshId, insertErr);
    }

    /** A successful test is the adapter's own success on a stored
        configuration of a supported tag, after a successful Connect. */
    lemma SuccessMeansReached(connectionId: string, getErr: Option<Error>, adminConnectErr: Option<Error>,
                              adapterResult: Option<TestResult>, latency: nat, r: TestResult)
      requires var cfg := configs.GetConnection(connectionId, getErr);
               cfg.Ok? && F.CreateAdmin(cfg.value.mqType).Ok? && adminConnectErr.None?
               && r == Reported(adapterResult, latency)
      ensures r.success ==> adapterResult.Some? && adapterResult.value.success
      ensures getErr.None? && CS.IndexOf(configs.rows, connectionId).Some?
    {
    }

    /** ProduceMessage: the configuration and the cached client, whose
        failures are returned unchanged and record nothing; then the
        client's Produce (`produceErr`), whose outcome is recorded in the
        history and returned. */
    method ProduceMessage(req: ProduceRequest, getErr: Option<Error>, connected: bool, connectErr: Option<Error>,
                          produceErr: Option<Error>, latency: nat, freshId: string, insertErr: Option<Error>)
      returns (err: Option<Error>)
      requires Valid()
      modifies this, history
      ensures Valid()
      ensures var cfg := old(configs.GetConnection(req.connectionId, getErr));
              cfg.Err? ==> err == Some(cfg.error) && Cache() == old(Cache()) && history.records == old(history.records)
      ensures var cfg := old(configs.GetConnection(req.connectionId, getErr));
              cfg.Ok? ==>
                var client := old(Lookup(Cache(), req.connectionId, cfg.value, connected, connectErr));
                ClientStep(old(Cache()), Cache(), req.connectionId, cfg.value, connected, connectErr)
                && (client.Err? ==> err == Some(client.error) && history.records == old(history.records))
                && (client.Ok? ==>
                      err == produceErr
                      && Recorded(old(history.records), history.records,
                                  HS.History.Tagged(freshId, req.connectionId, HS.ProduceType, req.topic,
                                                    produceErr.None?, ProduceText(produceErr), latency),
                                  freshId, insertErr))
    {
      var cfg := configs.GetConnection(req.connectionId, getErr);
      if cfg.Err? {
        return Some(cfg.error);
      }
      var client := GetOrCreateClient(req.connectionId, cfg.value, connected, connectErr);
      if client.Err? {
        return Some(client.error);
      }
      err := produceErr;
      var message := "Message sent successfully";
      if err.Some? {
        message := "Failed to send message: " + ErrorText(err.value);
      }
      var _ := history.AddProduceRecord(req.connectionId, req.topic, err.None?, message, latency, freshId, insertErr);
    }

    /** StartConsuming hands the request to the consumer service: the
        configuration, a consumer of its family, Connect and Subscribe,
        each failure wrapped with its step; a failing Subscribe closes the
        new consumer. Only a successful start registers `freshId`. */
    method StartConsuming(req: ConsumeRequest, getErr: Option<Error>, connectErr: Option<Error>,
                          subscribeErr: Option<Error>, freshId: string)
      returns (id: string, err: Option<Error>)
      requires Valid()
      modifies consumers
      ensures Valid()
      ensures consumers.cancelled == old(consumers.cancelled) && consumers.events == old(consumers.events)
      ensures var cfg := configs.GetConnection(req.connectionId, getErr);
              cfg.Err? ==>
                err == Some(Wrapped("failed to get connection config: ", cfg.error)) && id == ""
                && consumers.activeSubs == old(consumers.activeSubs) && consumers.closed == old(consumers.closed)
                && consumers.nextSerial == old(consumers.nextSerial)
      ensures var cfg := configs.GetConnection(req.connectionId, getErr);
              cfg.Ok? && F.CreateConsumer(cfg.value.mqType).Err? ==>
                err == Some(Wrapped("failed to create consumer: ", F.CreateConsumer(cfg.value.mqType).error)) && id == ""
                && consumers.activeSubs == old(consumers.activeSubs) && consumers.closed == old(consumers.closed)
                && consumers.nextSerial == old(consumers.nextSerial)
      ensures var cfg := configs.GetConnection(req.connectionId, getErr);
              cfg.Ok? && F.CreateConsumer(cfg.value.mqType).Ok? ==>
                var made := CSvc.ConsumerRef(old(consumers.nextSerial), F.CreateConsumer(cfg.value.mqType).value);
                consumers.nextSerial == old(consumers.nextSerial) + 1
                && (connectErr.Some? ==>
                      err == Some(Wrapped("failed to connect: ", connectErr.value)) && id == ""
                      && consumers.activeSubs == old(consumers.activeSubs) && consumers.closed == old(consumers.closed))
                && (connectErr.None? && subscribeErr.Some? ==>
                      err == Some(Wrapped("failed to subscribe: ", subscribeErr.value)) && id == ""
                      && consumers.activeSubs == old(consumers.activeSubs)
                      && consumers.closed == old(consumers.closed) + [made])
                && (connectErr.None? && subscribeErr.None? ==>
                      err == None && id == freshId && consumers.closed == old(consumers.closed)
                      && consumers.activeSubs
                         == old(consumers.activeSubs)[freshId := CSvc.ActiveSubscription(made, req.connectionId, req.topics)])
    {
      id, err := consumers.StartConsuming(req, getErr, connectErr, subscribeErr, freshId);
    }

    /** StopConsuming hands the id to the consumer service: a registered
        subscription is cancelled, its consumer closed and the entry
        removed; an unknown id changes nothing. */
    method StopConsuming(subscriptionId: string)
      requires Valid()
      modifies consumers
      ensures Valid()
      ensures consumers.activeSubs == old(consumers.activeSubs) - {subscriptionId}
      ensures subscriptionId in old(consumers.activeSubs) ==>
                consumers.cancelled == old(consumers.cancelled) + [subscriptionId]
                && consumers.closed == old(consumers.closed) + [old(consumers.activeSubs)[subscriptionId].consumer]
      ensures subscriptionId !in old(consumers.activeSubs) ==> unchanged(consumers)
      ensures consumers.events == old(consumers.events) && consumers.nextSerial == old(consumers.nextSerial)
    {
      consumers.StopConsuming(subscriptionId);
    }

    /** ListTopics: the configuration and the cached client, then the
        client's topics (`listed`); every failure is returned unchanged. */
    method ListTopics(connectionId: string, getErr: Option<Error>, connected: bool, connectErr: Option<Error>,
                      listed: Result<seq<TopicInfo>, Error>)
      returns (r: Result<seq<TopicInfo>, Error>)
      requires Valid()
      modifies this
      ensures Valid()
      ensures var cfg := old(configs.GetConnection(connectionId, getErr));
              cfg.Err? ==> r == Err(cfg.error) && Cache() == old(Cache())
      ensures var cfg := old(configs.GetConnection(connectionId, getErr));
              cfg.Ok? ==>
                var client := old(Lookup(Cache(), connectionId, cfg.value, connected, connectErr));
                ClientStep(old(Cache()), Cache(), connectionId, cfg.value, connected, connectErr)
                && (client.Err? ==> r == Err(client.error))
                && (client.Ok? ==> r == listed)
    {
      var cfg := configs.GetConnection(connectionId, getErr);
      if cfg.Err? {
        return Err(cfg.error);
      }
      var client := GetOrCreateClient(connectionId, cfg.value, connected, connectErr);
      if client.Err? {
        return Err(client.error);
      }
      match listed {
        case Err(e) => r := Err(e);
        case Ok(topics) => r := Ok(topics);
      }
    }

    /** CreateTopic: an empty connection id is refused before any lookup;
        then as ListTopics, returning the client's CreateTopic outcome
        (`createErr`). */
    method CreateTopic(req: CreateTopicRequest, getErr: Option<Error>, connected: bool, connectErr: Option<Error>,
                       createErr: Option<Error>)
      returns (err: Option<Error>)
      requires Valid()
      modifies this
      ensures Valid()
      ensures req.connectionId == "" ==> err == Some(Foreign("ConnectionID is required")) && unchanged(this)
      ensures var cfg := old(configs.GetConnection(req.connectionId, getErr));
              req.connectionId != "" && cfg.Err? ==> err == Some(cfg.error) && Cache() == old(Cache())
      ensures var cfg := old(configs.GetConnection(req.connectionId, getErr));
              req.connectionId != "" && cfg.Ok? ==>
                var client := old(Lookup(Cache(), req.connectionId, cfg.value, connected, connectErr));
                ClientStep(old(Cache()), Cache(), req.connectionId, cfg.value, connected, connectErr)
                && (client.Err? ==> err == Some(client.error))
                && (client.Ok? ==> err == createErr)
    {
      if req.connectionId == "" {
        return Some(Foreign("ConnectionID is required"));
      }
      var cfg := configs.GetConnection(req.connectionId, getErr);
      if cfg.Err? {
        return Some(cfg.error);
      }
      var client := GetOrCreateClient(req.connectionId, cfg.value, connected, connectErr);
      if client.Err? {
        return Some(client.error);
      }
      err := createErr;
    }

    /** DeleteTopic, with the same checks as CreateTopic, returning the
        client's DeleteTopic outcome (`deleteErr`). */
    method DeleteTopic(req: DeleteTopicRequest, getErr: Option<Error>, connected: bool, connectErr: Option<Error>,
                       deleteErr: Option<Error>)
      returns (err: Option<Error>)
      requires Valid()
      modifies this
      ensures Valid()
      ensures req.connectionId == "" ==> err == Some(Foreign("ConnectionID is required")) && unchanged(this)
      ensures var cfg := old(configs.GetConnection(req.connectionId, getErr));
              req.connectionId != "" && cfg.Err? ==> err == Some(cfg.error) && Cache() == old(Cache())
      ensures var cfg := old(configs.GetConnection(req.connectionId, getErr));
              req.connectionId != "" && cfg.Ok? ==>
                var client := old(Lookup(Cache(), req.connectionId, cfg.value, connected, connectErr));
                ClientStep(old(Cache()), Cache(), req.connectionId, cfg.value, connected, connectErr)
                && (client.Err? ==> err == Some(client.error))
                && (client.Ok? ==> err == deleteErr)
    {
      if req.connectionId == "" {
        return Some(Foreign("ConnectionID is required"));
      }
      var cfg := configs.GetConnection(req.connectionId, getErr);
      if cfg.Err? {
        return Some(cfg.error);
      }
      var client := GetOrCreateClient(req.connectionId, cfg.value, connected, connectErr);
      if client.Err? {
        return Some(client.error);
      }
      err := deleteErr;
    }

    /** CloseConnection: a cached client is closed and forgotten and its
        Close outcome (`closeErr`) returned; an unknown connection is no
        error and changes nothing. */
    method CloseConnection(connectionId: string, closeErr: Option<Error>) returns (err: Option<Error>)
      requires Valid()
      modifies this
      ensures Valid()
      ensures connectionId in old(activeClients) ==>
                err == closeErr && activeClients == old(activeClients) - {connectionId}
                && closed == old(closed) + [old(activeClients)[connectionId]] && nextSerial == old(nextSerial)
      ensures connectionId !in old(activeClients) ==> err == None && unchanged(this)
    {
      if connectionId in activeClients {
        var client := activeClients[connectionId];
        closed := closed + [client];
        activeClients := activeClients - {connectionId};
        return closeErr;
      }
      return None;
    }

    /** Shutdown's second half: every cached client is closed once, in
        the map's iteration order (returned as `order`), and the cache
        emptied. */
    method CloseClients() returns (order: seq<string>)
      requires Made(Cache())
      modifies this
      ensures Made(Cache())
      ensures activeClients == map[] && nextSerial == old(nextSerial)
      ensures |order| == |old(activeClients)| && (forall k :: k in order <==> k in old(activeClients))
      ensures forall i, j :: 0 <= i < j < |order| ==> order[i] != order[j]
      ensures closed == old(closed) + ClientsOf(old(activeClients), order)
    {
      order := RangeKeys(activeClients);
      closed := closed + ClientsOf(activeClients, order);
      activeClients := map[];
    }

    /** Shutdown: every subscription is stopped (cancelled and its
        consumer closed, in the order returned as `subs`), then every
        cached client is closed once, in the order returned as `order`,
        and the cache emptied; close failures are ignored and the result
        is never an error. */
    method Shutdown() returns (err: Option<Error>, subs: seq<string>, order: seq<string>)
      requires Valid()
      modifies this, consumers
      ensures Valid()
      ensures err == None
      ensures consumers.activeSubs == map[]
      ensures |subs| == |old(consumers.activeSubs)| && (forall k :: k in subs <==> k in old(consumers.activeSubs))
      ensures forall i, j :: 0 <= i < j < |subs| ==> subs[i] != subs[j]
      ensures consumers.cancelled == old(consumers.cancelled) + subs
      ensures consumers.closed == old(consumers.closed) + CSvc.ConsumersOf(old(consumers.activeSubs), subs)
      ensures consumers.events == old(consumers.events) && consumers.nextSerial == old(consumers.nextSerial)
      ensures activeClients == map[] && nextSerial == old(nextSerial)
      ensures |order| == |old(activeClients)| && (forall k :: k in order <==> k in old(activeClients))
      ensures forall i, j :: 0 <= i < j < |order| ==> order[i] != order[j]
      ensures closed == old(closed) + ClientsOf(old(activeClients), order)
    {
      subs := consumers.StopAllConsumers();
      order := CloseClients();
      err := None;
    }
  }
}
