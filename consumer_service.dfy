/** The consumer registry of internal/service/consumer_service.go. Each
    started subscription keeps its consumer, its cancel function, its
    connection id and its topics under a generated id until it is stopped.
    Consumers are made by the factory and known here by a reference; what
    their Connect, Subscribe and Consume return is supplied by the caller.
    The goroutine that runs a subscription is modelled by its two
    observable steps: the message handler (HandleMessage) and the end of
    the consume loop (ConsumeEnded). The service's log lines are not
    modelled; the events it emits to the front end are kept in `events`. */
module ConsumerService {

  import opened Types
  import opened GoStd
  import opened Errors
  import F = Factory
  import CS = ConfigService
  import HS = HistoryService

  /** A consumer adapter made by the factory; `serial` tells apart the
      consumers the service has made. */
  datatype ConsumerRef = ConsumerRef(serial: nat, adapter: F.Adapter)

  /** An active subscription. Its cancel function is the one of its own
      context, and calling it is recorded by the subscription's id. */
  datatype ActiveSubscription = ActiveSubscription(consumer: ConsumerRef, connectionId: string, topics: seq<string>)

  /** The events emitted to the front end. */
  datatype Event = MessageReceived(msg: Message) | ConsumerError(subscriptionId: string, error: string)

  /** How the end of a consume loop is reported: not at all, as a normal
      stop, or as a consumer error. */
  datatype LoopEnd = Quiet | NormalStop | Failed

  /** The texts that mark a consumer's connection being closed under it. */
  predicate NormalShutdownText(text: string)
    ensures HasSubstring(text, "CONN_") ==> NormalShutdownText(text)
    ensures NormalShutdownText(text) ==> text != ""
  {
    HasSubstring(text, "connection closed")
    || HasSubstring(text, "use of closed network connection")
    || HasSubstring(text, "CONN_")
  }

  /** The classification at the end of the consume goroutine. Only the
      context's own Canceled error is quiet; a cancellation behind a
      wrapper is judged by its text like any other error. */
  function ClassifyLoopEnd(err: Option<Error>): (r: LoopEnd)
    ensures r == Quiet <==> err.None? || err == Some(Canceled)
    ensures r == NormalStop <==> err.Some? && err != Some(Canceled) && NormalShutdownText(ErrorText(err.value))
    ensures r == Failed <==> err.Some? && err != Some(Canceled) && !NormalShutdownText(ErrorText(err.value))
  {
    if err.None? || err == Some(Canceled) then Quiet
    else if NormalShutdownText(ErrorText(err.value)) then NormalStop
    else Failed
  }

  /** Every connection error of the application, also behind `%w`
      prefixes, is a normal stop, because its text carries its code
      CONN_001. */
  lemma ConnectionErrorIsNormalStop(err: Error)
    requires IsConnectionChain(err)
    ensures ClassifyLoopEnd(Some(err)) == NormalStop
  {
    ConnectionTextHasConnMarker(err);
  }

  /** In particular the connection errors the adapters return, whatever
      their message and cause. */
  lemma AdapterConnectionErrorIsNormalStop(message: string, cause: Option<Error>)
    ensures ClassifyLoopEnd(Some(ConnErr(message, cause))) == NormalStop
  {
    ConnectionErrorIsNormalStop(ConnErr(message, cause));
  }

  /** The history message of a consumed message. */
  function ConsumedText(msg: Message): string
  {
    "Consumed message: " + msg.value
  }

  /** The consumers of the subscriptions `order` names, in that order. */
  function ConsumersOf(subs: map<string, ActiveSubscription>, order: seq<string>): (r: seq<ConsumerRef>)
    requires forall k :: k in order ==> k in subs
    ensures |r| == |order| && forall i :: 0 <= i < |order| ==> r[i] == subs[order[i]].consumer
  {
    if order == [] then [] else ConsumersOf(subs, order[..|order| - 1]) + [subs[order[|order| - 1]].consumer]
  }

  class Consumers {
    const configs: CS.Configs
    const history: HS.History
    var activeSubs: map<string, ActiveSubscription>
    var nextSerial: nat
    var cancelled: seq<string>
    var closed: seq<ConsumerRef>
    var events: seq<Event>

    /** Every registered consumer was made by the service. */
    ghost predicate Valid()
      reads this
    {
      forall id :: id in activeSubs ==> activeSubs[id].consumer.serial < nextSerial
    }

    /** NewConsumerService, over the given configuration and history
        services. */
    constructor (configs: CS.Configs, history: HS.History)
      ensures Valid() && this.configs == configs && this.history == history
      ensures activeSubs == map[] && nextSerial == 0 && cancelled == [] && closed == [] && events == []
    {
      this.configs := configs;
      this.history := history;
      activeSubs, nextSerial, cancelled, closed, events := map[], 0, [], [], [];
    }

    /** StartConsuming: the configuration, a consumer of its family,
        Connect and Subscribe, each failure wrapped with its step; a
        failing Subscribe closes the consumer, a failing Connect does not.
        Only a successful start registers a subscription, under `freshId`. */
    method StartConsuming(req: ConsumeRequest, getErr: Option<Error>, connectErr: Option<Error>,
                          subscribeErr: Option<Error>, freshId: string)
      returns (id: string, err: Option<Error>)
      requires Valid()
      modifies this
      ensures Valid()
      ensures cancelled == old(cancelled) && events == old(events)
      ensures var cfg := configs.GetConnection(req.connectionId, getErr);
              cfg.Err? ==>
                err == Some(Wrapped("failed to get connection config: ", cfg.error)) && id == ""
                && activeSubs == old(activeSubs) && closed == old(closed) && nextSerial == old(nextSerial)
      ensures var cfg := configs.GetConnection(req.connectionId, getErr);
              cfg.Ok? && F.CreateConsumer(cfg.value.mqType).Err? ==>
                err == Some(Wrapped("failed to create consumer: ", F.CreateConsumer(cfg.value.mqType).error)) && id == ""
                && activeSubs == old(activeSubs) && closed == old(closed) && nextSerial == old(nextSerial)
      ensures var cfg := configs.GetConnection(req.connectionId, getErr);
              cfg.Ok? && F.CreateConsumer(cfg.value.mqType).Ok? ==>
                var made := ConsumerRef(old(nextSerial), F.CreateConsumer(cfg.value.mqType).value);
                nextSerial == old(nextSerial) + 1
                && (connectErr.Some? ==>
                      err == Some(Wrapped("failed to connect: ", connectErr.value)) && id == ""
                      && activeSubs == old(activeSubs) && closed == old(closed))
                && (connectErr.None? && subscribeErr.Some? ==>
                      err == Some(Wrapped("failed to subscribe: ", subscribeErr.value)) && id == ""
                      && activeSubs == old(activeSubs) && closed == old(closed) + [made])
                && (connectErr.None? && subscribeErr.None? ==>
                      err == None && id == freshId && closed == old(closed)
                      && activeSubs == old(activeSubs)[freshId := ActiveSubscription(made, req.connectionId, req.topics)])
    {
      var cfg := configs.GetConnection(req.connectionId, getErr);
      if cfg.Err? {
        return "", Some(Wrapped("failed to get connection config: ", cfg.error));
      }
      var adapter := F.CreateConsumer(cfg.value.mqType);
      if adapter.Err? {
        return "", Some(Wrapped("failed to create consumer: ", adapter.error));
      }
      var consumer := ConsumerRef(nextSerial, adapter.value);
      nextSerial := nextSerial + 1;
      if connectErr.Some? {
        return "", Some(Wrapped("failed to connect: ", connectErr.value));
      }
      if subscribeErr.Some? {
        closed := closed + [consumer];
        return "", Some(Wrapped("failed to subscribe: ", subscribeErr.value));
      }
      activeSubs := activeSubs[freshId := ActiveSubscription(consumer, req.connectionId, req.topics)];
      return freshId, None;
    }

    /** The message handler of a subscription of `connectionId`: one
        consume record in the history (its own failure is ignored), one
        event to the front end, and never an error. */
    method HandleMessage(connectionId: string, msg: Message, freshId: string, insertErr: Option<Error>)
      returns (err: Option<Error>)
      requires history.Valid()
      modifies this, history
      ensures history.Valid()
      ensures err == None
      ensures events == old(events) + [MessageReceived(msg)]
      ensures activeSubs == old(activeSubs) && closed == old(closed) && cancelled == old(cancelled) && nextSerial == old(nextSerial)
      ensures insertErr.None? && freshId !in HS.Ids(old(history.records)) ==>
                history.records == old(history.records)
                  + [HS.History.Tagged(freshId, connectionId, HS.ConsumeType, msg.topic, true, ConsumedText(msg), 0)]
      ensures !(insertErr.None? && freshId !in HS.Ids(old(history.records))) ==> history.records == old(history.records)
    {
      var _ := history.AddConsumeRecord(connectionId, msg.topic, true, ConsumedText(msg), 0, freshId, insertErr);
      events := events + [MessageReceived(msg)];
      err := None;
    }

    /** The end of a subscription's consume loop: an error that is neither
        a cancellation nor a normal stop is emitted as a consumer error;
        then the subscription is stopped and removed, if it still is
        registered. */
    method ConsumeEnded(subscriptionId: string, endErr: Option<Error>)
      requires Valid()
      modifies this
      ensures Valid()
      ensures ClassifyLoopEnd(endErr) == Failed ==>
                events == old(events) + [ConsumerError(subscriptionId, ErrorText(endErr.value))]
      ensures ClassifyLoopEnd(endErr) != Failed ==> events == old(events)
      ensures subscriptionId !in activeSubs && activeSubs == old(activeSubs) - {subscriptionId}
      ensures subscriptionId in old(activeSubs) ==>
                cancelled == old(cancelled) + [subscriptionId]
                && closed == old(closed) + [old(activeSubs)[subscriptionId].consumer]
      ensures subscriptionId !in old(activeSubs) ==> cancelled == old(cancelled) && closed == old(closed)
    {
      if ClassifyLoopEnd(endErr) == Failed {
        events := events + [ConsumerError(subscriptionId, ErrorText(endErr.value))];
      }
      StopAndRemove(subscriptionId);
    }

    /** stopAndRemove: a registered subscription is cancelled, its
        consumer closed (errors ignored) and its record deleted; an unknown
        id changes nothing, so stopping twice is stopping once. */
    method StopAndRemove(subscriptionId: string)
      requires Valid()
      modifies this
      ensures Valid()
      ensures subscriptionId !in activeSubs && activeSubs == old(activeSubs) - {subscriptionId}
      ensures subscriptionId in old(activeSubs) ==>
                cancelled == old(cancelled) + [subscriptionId]
                && closed == old(closed) + [old(activeSubs)[subscriptionId].consumer]
      ensures subscriptionId !in old(activeSubs) ==> unchanged(this)
      ensures events == old(events) && nextSerial == old(nextSerial)
    {
      if subscriptionId in activeSubs {
        var sub := activeSubs[subscriptionId];
        cancelled := cancelled + [subscriptionId];
        closed := closed + [sub.consumer];
        activeSubs := activeSubs - {subscriptionId};
      }
    }

    /** StopConsuming is stopAndRemove. */
    method StopConsuming(subscriptionId: string)
      requires Valid()
      modifies this
      ensures Valid()
      ensures subscriptionId !in activeSubs && activeSubs == old(activeSubs) - {subscriptionId}
      ensures subscriptionId in old(activeSubs) ==>
                cancelled == old(cancelled) + [subscriptionId]
                && closed == old(closed) + [old(activeSubs)[subscriptionId].consumer]
      ensures subscriptionId !in old(activeSubs) ==> unchanged(this)
      ensures events == old(events) && nextSerial == old(nextSerial)
    {
      StopAndRemove(subscriptionId);
    }

    /** StopAllConsumers stops every registered subscription once, in the
        map's iteration order, returned as `order`; none is left. Each
        subscription is cancelled and its consumer closed, as stopAndRemove
        does. */
    method StopAllConsumers() returns (order: seq<string>)
      requires Valid()
      modifies this
      ensures Valid()
      ensures activeSubs == map[]
      ensures |order| == |old(activeSubs)| && (forall k :: k in order <==> k in old(activeSubs))
      ensures forall i, j :: 0 <= i < j < |order| ==> order[i] != order[j]
      ensures cancelled == old(cancelled) + order
      ensures closed == old(closed) + ConsumersOf(old(activeSubs), order)
      ensures events == old(events) && nextSerial == old(nextSerial)
    {
      order := RangeKeys(activeSubs);
      cancelled := cancelled + order;
      closed := closed + ConsumersOf(activeSubs, order);
      activeSubs := map[];
    }
  }
}
