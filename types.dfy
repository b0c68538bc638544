/** The shared data model of the toolkit (pkg/types/types.go): the broker tag,
    connection settings, requests, normalized messages and the results that
    every adapter returns. Time stamps are not modelled. */
module Types {

  datatype Option<+T> = None | Some(value: T)

  datatype Result<+T, +E> = Ok(value: T) | Err(error: E)

  /** The broker tag is an open string: a configuration may carry any tag,
      and only the factories decide which three are supported. */
  type MQType = string

  const Kafka: MQType := "kafka"
  const RabbitMQ: MQType := "rabbitmq"
  const RocketMQ: MQType := "rocketmq"

  /** One broker endpoint. `extra` holds the per-adapter tuning parameters. */
  datatype ConnectionConfig = ConnectionConfig(
    id: string,
    name: string,
    mqType: MQType,
    host: string,
    port: int,
    username: string,
    password: string,
    vhost: string,
    groupId: string,
    extra: map<string, string>)

  /** A received message in the shared envelope. */
  datatype Message = Message(
    id: string,
    topic: string,
    key: string,
    value: string,
    headers: map<string, string>,
    partition: int,
    offset: int)

  datatype ProduceRequest = ProduceRequest(
    connectionId: string,
    topic: string,
    key: string,
    value: string,
    headers: map<string, string>,
    partition: Option<int>)

  datatype ConsumeRequest = ConsumeRequest(
    connectionId: string,
    topics: seq<string>,
    groupId: string,
    autoCommit: bool,
    fromBeginning: bool)

  /** Latency is in milliseconds; it is supplied by the caller of the model. */
  datatype TestResult = TestResult(success: bool, message: string, latency: nat)

  datatype HistoryRecord = HistoryRecord(
    id: string,
    connectionId: string,
    recordType: string,
    topic: string,
    success: bool,
    message: string,
    latency: int)

  datatype LogEntry = LogEntry(level: string, message: string, source: string)

  datatype TopicInfo = TopicInfo(name: string, partitions: int, replicas: int)

  datatype ConsumerGroup = ConsumerGroup(id: string, members: seq<string>, topics: seq<string>)

  datatype CreateTopicRequest = CreateTopicRequest(
    connectionId: string,
    topic: string,
    partitions: int,
    replicas: int)

  datatype DeleteTopicRequest = DeleteTopicRequest(connectionId: string, topic: string)

  /** A native client object (a dialled connection, a channel, a writer, ...):
      present or absent in an adapter field, and open or closed. */
  datatype Handle = Handle(closed: bool)

  const OpenHandle := Handle(false)
  const ClosedHandle := Handle(true)
}
