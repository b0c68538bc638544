/** The second factory, internal/service/mq_factory.go: the same stateless
    dispatch as the adapter factory, with its own error text. */
module MQFactory {

  import opened Types
  import opened Errors
  import F = Factory

  function Build(mqType: MQType, role: F.Role): (r: Result<F.Adapter, Error>)
    ensures r.Ok? <==> F.Supported(mqType)
    ensures r.Ok? ==> r.value.role == role && F.TagOf(r.value.family) == mqType
    ensures r.Err? ==> r.error == Foreign("unsupported MQ type: " + mqType)
  {
    if F.Supported(mqType) then Ok(F.Adapter(F.FamilyOf(mqType), role))
    else Err(Foreign("unsupported MQ type: " + mqType))
  }

  function CreateProducer(mqType: MQType): (r: Result<F.Adapter, Error>)
    ensures r.Ok? <==> F.Supported(mqType)
    ensures r.Ok? ==> r.value.role == F.ProducerRole && F.TagOf(r.value.family) == mqType
    ensures r.Err? ==> ErrorText(r.error) == "unsupported MQ type: " + mqType
  {
    Build(mqType, F.ProducerRole)
  }

  function CreateConsumer(mqType: MQType): (r: Result<F.Adapter, Error>)
    ensures r.Ok? <==> F.Supported(mqType)
    ensures r.Ok? ==> r.value.role == F.ConsumerRole && F.TagOf(r.value.family) == mqType
    ensures r.Err? ==> ErrorText(r.error) == "unsupported MQ type: " + mqType
  {
    Build(mqType, F.ConsumerRole)
  }

  function CreateAdmin(mqType: MQType): (r: Result<F.Adapter, Error>)
    ensures r.Ok? <==> F.Supported(mqType)
    ensures r.Ok? ==> r.value.role == F.AdminRole && F.TagOf(r.value.family) == mqType
    ensures r.Err? ==> ErrorText(r.error) == "unsupported MQ type: " + mqType
  {
    Build(mqType, F.AdminRole)
  }

  function CreateClient(mqType: MQType): (r: Result<F.Adapter, Error>)
    ensures r.Ok? <==> F.Supported(mqType)
    ensures r.Ok? ==> r.value.role == F.ClientRole && F.TagOf(r.value.family) == mqType
    ensures r.Err? ==> ErrorText(r.error) == "unsupported MQ type: " + mqType
  {
    Build(mqType, F.ClientRole)
  }

  /** The two factories build the same adapters and refuse the same tags;
      only the capitalisation of their error text differs. */
  lemma AgreesWithFactory(mqType: MQType, role: F.Role)
    ensures Build(mqType, role).Ok? <==> F.Build(mqType, role).Ok?
    ensures Build(mqType, role).Ok? ==> Build(mqType, role) == F.Build(mqType, role)
    ensures Build(mqType, role).Err? ==>
              ErrorText(Build(mqType, role).error) == "unsupported MQ type: " + mqType
              && ErrorText(F.Build(mqType, role).error) == "unsupported mq type: " + mqType
  {
  }
}
