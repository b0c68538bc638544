/** The Kafka administration adapter of internal/mq/kafka/admin.go. The
    dialled broker connection is an abstract handle; every call into the
    Kafka client library is an outcome supplied by the caller. */
module KafkaAdmin {

  import opened Types
  import opened GoStd
  import opened Errors
  import Utils

  /** One partition as the broker reports it: its topic, its id and the
      number of its replicas. */
  datatype Partition = Partition(topic: string, id: int, replicas: nat)

  /** The native calls an operation makes, in order. */
  datatype AdminCall =
    | DialBroker
    | GetController
    | DialController
    | CreateTopics(topic: string, partitions: int, replicas: int)
    | DeleteTopics(topic: string)

  /** The outcomes of the four native steps of a topic operation: the
      re-dial, the controller lookup, the controller dial and the request. */
  datatype StepOutcomes = StepOutcomes(
    dial: Option<Error>,
    controller: Option<Error>,
    controllerDial: Option<Error>,
    request: Option<Error>)

  /** What a topic operation returns and which native calls it made. */
  datatype Outcome = Outcome(err: Option<Error>, calls: seq<AdminCall>)

  // ---------------------------------------------------------------------
  // Grouping partitions into topics

  /** One step of the grouping loop. */
  function GroupStep(m: map<string, TopicInfo>, p: Partition): map<string, TopicInfo>
  {
    if p.topic in m then
      if p.id >= m[p.topic].partitions then m[p.topic := m[p.topic].(partitions := p.id + 1)] else m
    else m[p.topic := TopicInfo(p.topic, p.id + 1, p.replicas)]
  }

  /** The topic map after the grouping loop has seen all of `ps`. */
  function Grouped(ps: seq<Partition>): (m: map<string, TopicInfo>)
    ensures |m| <= |ps|
    ensures ps != [] ==> ps[|ps| - 1].topic in m
  {
    if ps == [] then map[] else GroupStep(Grouped(ps[..|ps| - 1]), ps[|ps| - 1])
  }

  ghost predicate HasTopic(ps: seq<Partition>, name: string)
  {
    exists i :: 0 <= i < |ps| && ps[i].topic == name
  }

  /** The topics of the map are exactly those of the partitions. */
  lemma {:induction false} GroupedKeys(ps: seq<Partition>, name: string)
    ensures name in Grouped(ps) <==> HasTopic(ps, name)
  {
    if ps != [] {
      var init := ps[..|ps| - 1];
      GroupedKeys(init, name);
      if HasTopic(init, name) {
        var i :| 0 <= i < |init| && init[i].topic == name;
        assert ps[i].topic == name;
      }
      if HasTopic(ps, name) && name != ps[|ps| - 1].topic {
        var i :| 0 <= i < |ps| && ps[i].topic == name;
        assert i < |init| && init[i].topic == name;
      }
    }
  }

  /** Every entry is named after its key. */
  lemma {:induction false} GroupedNames(ps: seq<Partition>)
    ensures forall name :: name in Grouped(ps) ==> Grouped(ps)[name].name == name
  {
    if ps != [] {
      GroupedNames(ps[..|ps| - 1]);
    }
  }

  /** Every partition id of a topic is below its partition count. */
  lemma {:induction false} GroupedBound(ps: seq<Partition>, i: int)
    requires 0 <= i < |ps|
    ensures ps[i].topic in Grouped(ps) && ps[i].id < Grouped(ps)[ps[i].topic].partitions
  {
    var init := ps[..|ps| - 1];
    if i < |init| {
      assert init[i] == ps[i];
      GroupedBound(init, i);
    }
  }

  /** The partition count is one more than some partition id of the topic. */
  lemma {:induction false} GroupedAttained(ps: seq<Partition>, name: string)
    requires name in Grouped(ps)
    ensures exists i :: 0 <= i < |ps| && ps[i].topic == name && Grouped(ps)[name].partitions == ps[i].id + 1
  {
    var init := ps[..|ps| - 1];
    var p := ps[|ps| - 1];
    var m0 := Grouped(init);
    if name == p.topic && (name !in m0 || p.id >= m0[name].partitions) {
      assert ps[|ps| - 1].topic == name;
    } else {
      GroupedAttained(init, name);
      var i :| 0 <= i < |init| && init[i].topic == name && m0[name].partitions == init[i].id + 1;
      assert ps[i] == init[i];
    }
  }

  /** The replica count is that of the first partition of the topic. */
  lemma {:induction false} GroupedReplicas(ps: seq<Partition>, name: string)
    requires name in Grouped(ps)
    ensures exists i :: && 0 <= i < |ps| && ps[i].topic == name && Grouped(ps)[name].replicas == ps[i].replicas
                        && forall j :: 0 <= j < i ==> ps[j].topic != name
  {
    var init := ps[..|ps| - 1];
    var m0 := Grouped(init);
    if name in m0 {
      GroupedReplicas(init, name);
      var i :| && 0 <= i < |init| && init[i].topic == name && m0[name].replicas == init[i].replicas
               && forall j :: 0 <= j < i ==> init[j].topic != name;
      assert ps[i] == init[i];
      assert forall j :: 0 <= j < i ==> ps[j] == init[j];
    } else {
      assert name == ps[|ps| - 1].topic;
      forall j | 0 <= j < |ps| - 1 ensures ps[j].topic != name {
        assert ps[j] == init[j];
        if init[j].topic == name {
          GroupedKeys(init, name);
        }
      }
    }
  }

  /** `topics` lists the values of `m`, each once, in some order (Go's map
      iteration order is unspecified). */
  predicate Lists(topics: seq<TopicInfo>, m: map<string, TopicInfo>)
  {
    && |topics| == |m|
    && (forall i :: 0 <= i < |topics| ==> topics[i].name in m && m[topics[i].name] == topics[i])
    && (forall i, j :: 0 <= i < j < |topics| ==> topics[i].name != topics[j].name)
    && (forall name :: name in m ==> exists i :: 0 <= i < |topics| && topics[i].name == name)
  }

  class Admin {
    var conn: Option<Handle>
    var connected: bool
    var config: Option<ConnectionConfig>

    /** A connection exists exactly when the adapter is connected, and a
        connected adapter has a configuration. */
    ghost predicate Valid()
      reads this
    {
      (conn.Some? <==> connected) && (connected ==> config.Some?)
    }

    /** NewAdmin. */
    constructor ()
      ensures Valid() && conn == None && !connected && config == None
    {
      conn := None;
      connected := false;
      config := None;
    }

    /** Connect: the tag is checked first; the configuration is stored
        before the dial, so a failed dial leaves it replaced while the
        connection state stays as it was. */
    method Connect(cfg: ConnectionConfig, dialErr: Option<Error>) returns (err: Option<Error>)
      requires Valid()
      modifies this
      ensures Valid()
      ensures cfg.mqType != Kafka ==>
                err == Some(ValErr("Invalid MQ type for Kafka admin", cfg.mqType))
                && conn == old(conn) && connected == old(connected) && config == old(config)
      ensures cfg.mqType == Kafka && dialErr.Some? ==>
                err == Some(ConnErr("Failed to connect to Kafka", dialErr))
                && conn == old(conn) && connected == old(connected) && config == Some(cfg)
      ensures cfg.mqType == Kafka && dialErr.None? ==>
                err == None && conn == Some(OpenHandle) && connected && config == Some(cfg)
    {
      if cfg.mqType != Kafka {
        return Some(ValErr("Invalid MQ type for Kafka admin", cfg.mqType));
      }
      config := Some(cfg);
      if dialErr.Some? {
        return Some(ConnErr("Failed to connect to Kafka", dialErr));
      }
      conn := Some(OpenHandle);
      connected := true;
      return None;
    }

    /** TestConnection never returns an error value: every failure is a
        result with Success false. `brokers` is the outcome of asking the
        connection for its brokers (their number on success). */
    function TestConnection(brokers: Result<nat, Error>, latency: nat): (r: TestResult)
      reads this
      ensures r.success <==> connected && conn.Some? && brokers.Ok?
      ensures !(connected && conn.Some?) ==> r.message == "Not connected to Kafka"
      ensures connected && conn.Some? && brokers.Err? ==>
                r.message == "Failed to get brokers: " + ErrorText(brokers.error)
      ensures r.success ==> r.message == "Connected successfully. Found " + DecimalString(brokers.value) + " brokers"
      ensures r.latency == latency
    {
      if !connected || conn.None? then TestResult(false, "Not connected to Kafka", latency)
      else if brokers.Err? then TestResult(false, "Failed to get brokers: " + ErrorText(brokers.error), latency)
      else TestResult(true, "Connected successfully. Found " + DecimalString(brokers.value) + " brokers", latency)
    }

    /** ListTopics: re-dials, reads the partitions and groups them by topic. */
    method ListTopics(dialErr: Option<Error>, partitions: Result<seq<Partition>, Error>)
      returns (r: Result<seq<TopicInfo>, Error>)
      requires Valid()
      ensures !(connected && conn.Some?) ==> r == Err(ConnErr("Not connected to Kafka", None))
      ensures connected && conn.Some? && dialErr.Some? ==>
                r == Err(ConnErr("Failed to reconnect to Kafka", dialErr))
      ensures connected && conn.Some? && dialErr.None? && partitions.Err? ==>
                r == Err(ConnErr("Failed to read partitions", Some(partitions.error)))
      ensures r.Ok? <==> connected && conn.Some? && dialErr.None? && partitions.Ok?
      ensures r.Ok? ==> Lists(r.value, Grouped(partitions.value))
    {
      if !connected || conn.None? {
        return Err(ConnErr("Not connected to Kafka", None));
      }
      if dialErr.Some? {
        return Err(ConnErr("Failed to reconnect to Kafka", dialErr));
      }
      if partitions.Err? {
        return Err(ConnErr("Failed to read partitions", Some(partitions.error)));
      }
      var ps := partitions.value;
      var topicMap: map<string, TopicInfo> := map[];
      for i := 0 to |ps|
        invariant topicMap == Grouped(ps[..i])
      {
        assert ps[..i + 1][..i] == ps[..i];
        var p := ps[i];
        if p.topic in topicMap {
          if p.id >= topicMap[p.topic].partitions {
            topicMap := topicMap[p.topic := topicMap[p.topic].(partitions := p.id + 1)];
          }
        } else {
          topicMap := topicMap[p.topic := TopicInfo(p.topic, p.id + 1, p.replicas)];
        }
      }
      assert ps[..|ps|] == ps;
      GroupedNames(ps);
      var topics := ToSlice(topicMap);
      return Ok(topics);
    }

    /** The loop over the map that copies every topic into the result. */
    static method ToSlice(m: map<string, TopicInfo>) returns (topics: seq<TopicInfo>)
      requires forall name :: name in m ==> m[name].name == name
      ensures Lists(topics, m)
    {
      topics := [];
      var rest := m.Keys;
      while rest != {}
        invariant rest <= m.Keys
        invariant |topics| + |rest| == |m.Keys|
        invariant forall i :: 0 <= i < |topics| ==>
                    topics[i].name in m && topics[i].name !in rest && m[topics[i].name] == topics[i]
        invariant forall i, j :: 0 <= i < j < |topics| ==> topics[i].name != topics[j].name
        invariant forall k :: k in m && k !in rest ==> exists i :: 0 <= i < |topics| && topics[i].name == k
        decreases |rest|
      {
        var k :| k in rest;
        ghost var before := topics;
        topics := topics + [m[k]];
        rest := rest - {k};
        forall k' | k' in m && k' !in rest
          ensures exists i :: 0 <= i < |topics| && topics[i].name == k'
        {
          if k' == k {
            assert topics[|before|].name == k';
          } else {
            var i :| 0 <= i < |before| && before[i].name == k';
            assert topics[i] == before[i];
          }
        }
      }
      assert |m.Keys| == |m|;
    }

    /** The common shape of CreateTopic and DeleteTopic: the connection
        check, then the topic-name check, then the four native steps, each
        of which ends the operation with a connection error when it fails. */
    function TopicOperation(topic: string, request: AdminCall, failText: string, steps: StepOutcomes): (r: Outcome)
      reads this
      ensures !(connected && conn.Some?) ==> r == Outcome(Some(ConnErr("Not connected to Kafka", None)), [])
      ensures connected && conn.Some? && !Utils.ValidTopic(topic) ==>
                r == Outcome(Some(ValErr("Invalid topic name", topic)), [])
      ensures request in r.calls ==> connected && conn.Some? && Utils.ValidTopic(topic)
      ensures r.err.None? <==>
                connected && conn.Some? && Utils.ValidTopic(topic) && steps.dial.None?
                && steps.controller.None? && steps.controllerDial.None? && steps.request.None?
      ensures r.err.None? ==> r.calls == [DialBroker, GetController, DialController, request]
    {
      if !connected || conn.None? then Outcome(Some(ConnErr("Not connected to Kafka", None)), [])
      else if !Utils.ValidTopic(topic) then Outcome(Some(ValErr("Invalid topic name", topic)), [])
      else if steps.dial.Some? then Outcome(Some(ConnErr("Failed to reconnect to Kafka", steps.dial)), [DialBroker])
      else if steps.controller.Some? then
        Outcome(Some(ConnErr("Failed to get controller", steps.controller)), [DialBroker, GetController])
      else if steps.controllerDial.Some? then
        Outcome(Some(ConnErr("Failed to connect to controller", steps.controllerDial)),
                [DialBroker, GetController, DialController])
      else if steps.request.Some? then
        Outcome(Some(ConnErr(failText, steps.request)), [DialBroker, GetController, DialController, request])
      else Outcome(None, [DialBroker, GetController, DialController, request])
    }

    function CreateTopic(topic: string, partitions: int, replicas: int, steps: StepOutcomes): (r: Outcome)
      reads this
      ensures r.err.None? ==> r.calls == [DialBroker, GetController, DialController, CreateTopics(topic, partitions, replicas)]
      ensures steps.request.Some? && r.calls == [DialBroker, GetController, DialController, CreateTopics(topic, partitions, replicas)]
              ==> r.err == Some(ConnErr("Failed to create topic", steps.request))
    {
      TopicOperation(topic, CreateTopics(topic, partitions, replicas), "Failed to create topic", steps)
    }

    function DeleteTopic(topic: string, steps: StepOutcomes): (r: Outcome)
      reads this
      ensures r.err.None? ==> r.calls == [DialBroker, GetController, DialController, DeleteTopics(topic)]
      ensures steps.request.Some? && r.calls == [DialBroker, GetController, DialController, DeleteTopics(topic)]
              ==> r.err == Some(ConnErr("Failed to delete topic", steps.request))
    {
      TopicOperation(topic, DeleteTopics(topic), "Failed to delete topic", steps)
    }

    /** ListConsumerGroups: the client library offers no listing, so a
        connected adapter reports none. */
    function ListConsumerGroups(): (r: Result<seq<ConsumerGroup>, Error>)
      reads this
      ensures r.Ok? <==> connected && conn.Some?
      ensures r.Ok? ==> r.value == []
      ensures r.Err? ==> r.error == ConnErr("Not connected to Kafka", None)
    {
      if !connected || conn.None? then Err(ConnErr("Not connected to Kafka", None)) else Ok([])
    }

    /** Close: without a connection nothing happens; otherwise the
        connection's close error is returned and the adapter forgets its
        connection and configuration, so a second Close does nothing. */
    method Close(closeErr: Option<Error>) returns (err: Option<Error>)
      requires Valid()
      modifies this
      ensures Valid()
      ensures old(conn).None? ==> err == None && conn == old(conn) && connected == old(connected) && config == old(config)
      ensures old(conn).Some? ==> err == closeErr && conn == None && !connected && config == None
    {
      if conn.Some? {
        conn := None;
        connected := false;
        config := None;
        return closeErr;
      }
      return None;
    }
  }
}
