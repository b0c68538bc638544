/** The adapter factory of internal/factory/factory.go: a stateless switch
    from the broker tag to a newly built adapter of that broker family.
    An adapter is named by its family and its role; the objects themselves
    are the classes of the broker modules. */
module Factory {

  import opened Types
  import opened Errors

  datatype Family = KafkaFamily | RabbitMQFamily | RocketMQFamily

  datatype Role = ClientRole | AdminRole | ProducerRole | ConsumerRole

  /** A newly constructed adapter. */
  datatype Adapter = Adapter(family: Family, role: Role)

  /** The three supported tags. */
  predicate Supported(mqType: MQType)
  {
    mqType == Kafka || mqType == RabbitMQ || mqType == RocketMQ
  }

  /** The family that serves a supported tag. */
  function FamilyOf(mqType: MQType): (f: Family)
    requires Supported(mqType)
  {
    if mqType == Kafka then KafkaFamily
    else if mqType == RabbitMQ then RabbitMQFamily
    else RocketMQFamily
  }

  /** The tag that selects a family. */
  function TagOf(f: Family): MQType
  {
    match f
    case KafkaFamily => Kafka
    case RabbitMQFamily => RabbitMQ
    case RocketMQFamily => RocketMQ
  }

  /** The tag dispatch shared by the four methods of the factory. */
  function Build(mqType: MQType, role: Role): (r: Result<Adapter, Error>)
    ensures r.Ok? <==> Supported(mqType)
    ensures r.Ok? ==> r.value.role == role && TagOf(r.value.family) == mqType
    ensures r.Err? ==> r.error == Foreign("unsupported mq type: " + mqType)
  {
    if Supported(mqType) then Ok(Adapter(FamilyOf(mqType), role))
    else Err(Foreign("unsupported mq type: " + mqType))
  }

  function CreateClient(mqType: MQType): (r: Result<Adapter, Error>)
    ensures r.Ok? <==> Supported(mqType)
    ensures r.Ok? ==> r.value.role == ClientRole && TagOf(r.value.family) == mqType
    ensures r.Err? ==> ErrorText(r.error) == "unsupported mq type: " + mqType
  {
    Build(mqType, ClientRole)
  }

  function CreateAdmin(mqType: MQType): (r: Result<Adapter, Error>)
    ensures r.Ok? <==> Supported(mqType)
    ensures r.Ok? ==> r.value.role == AdminRole && TagOf(r.value.family) == mqType
    ensures r.Err? ==> ErrorText(r.error) == "unsupported mq type: " + mqType
  {
    Build(mqType, AdminRole)
  }

  function CreateProducer(mqType: MQType): (r: Result<Adapter, Error>)
    ensures r.Ok? <==> Supported(mqType)
    ensures r.Ok? ==> r.value.role == ProducerRole && TagOf(r.value.family) == mqType
    ensures r.Err? ==> ErrorText(r.error) == "unsupported mq type: " + mqType
  {
    Build(mqType, ProducerRole)
  }

  function CreateConsumer(mqType: MQType): (r: Result<Adapter, Error>)
    ensures r.Ok? <==> Supported(mqType)
    ensures r.Ok? ==> r.value.role == ConsumerRole && TagOf(r.value.family) == mqType
    ensures r.Err? ==> ErrorText(r.error) == "unsupported mq type: " + mqType
  {
    Build(mqType, ConsumerRole)
  }

  /** The dispatch is a bijection between the families and the supported
      tags. */
  lemma FamilyTagBijection(f: Family, mqType: MQType)
    ensures Supported(TagOf(f)) && FamilyOf(TagOf(f)) == f
    ensures Supported(mqType) ==> TagOf(FamilyOf(mqType)) == mqType
  {
  }

  /** Each supported tag builds its own family for every role, with no
      error; any other tag builds nothing and names itself in the error. */
  lemma FactoryTotal(mqType: MQType)
    ensures CreateClient(Kafka) == Ok(Adapter(KafkaFamily, ClientRole))
    ensures CreateClient(RabbitMQ) == Ok(Adapter(RabbitMQFamily, ClientRole))
    ensures CreateClient(RocketMQ) == Ok(Adapter(RocketMQFamily, ClientRole))
    ensures CreateAdmin(Kafka) == Ok(Adapter(KafkaFamily, AdminRole))
    ensures CreateAdmin(RabbitMQ) == Ok(Adapter(RabbitMQFamily, AdminRole))
    ensures CreateAdmin(RocketMQ) == Ok(Adapter(RocketMQFamily, AdminRole))
    ensures CreateProducer(Kafka) == Ok(Adapter(KafkaFamily, ProducerRole))
    ensures CreateProducer(RabbitMQ) == Ok(Adapter(RabbitMQFamily, ProducerRole))
    ensures CreateProducer(RocketMQ) == Ok(Adapter(RocketMQFamily, ProducerRole))
    ensures CreateConsumer(Kafka) == Ok(Adapter(KafkaFamily, ConsumerRole))
    ensures CreateConsumer(RabbitMQ) == Ok(Adapter(RabbitMQFamily, ConsumerRole))
    ensures CreateConsumer(RocketMQ) == Ok(Adapter(RocketMQFamily, ConsumerRole))
    ensures !Supported(mqType) ==>
              var e := Err(Foreign("unsupported mq type: " + mqType));
              CreateClient(mqType) == e && CreateAdmin(mqType) == e
              && CreateProducer(mqType) == e && CreateConsumer(mqType) == e
  {
  }

  /** The four methods accept the same tags and agree on the family. */
  lemma RolesAgree(mqType: MQType)
    ensures CreateClient(mqType).Ok? == CreateAdmin(mqType).Ok? == CreateProducer(mqType).Ok?
            == CreateConsumer(mqType).Ok?
    ensures CreateClient(mqType).Ok? ==>
              CreateAdmin(mqType).value.family == CreateClient(mqType).value.family
              && CreateProducer(mqType).value.family == CreateClient(mqType).value.family
              && CreateConsumer(mqType).value.family == CreateClient(mqType).value.family
  {
  }
}
