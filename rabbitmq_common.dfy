/** Pieces shared by the three RabbitMQ adapters of internal/mq/rabbitmq:
    the AMQP URL, the channel calls they make and the way their Close
    reports errors. */
module RabbitCommon {

  import opened Types
  import opened GoStd
  import opened Errors

  /** The virtual host, "/" when none is configured. */
  function VHostOrRoot(vhost: string): (v: string)
    ensures v != ""
    ensures vhost != "" ==> v == vhost
    ensures vhost == "" ==> v == "/"
  {
    if vhost == "" then "/" else vhost
  }

  /** A credential, "guest" when none is configured. */
  function GuestDefault(s: string): (r: string)
    ensures r != ""
    ensures s != "" ==> r == s
    ensures s == "" ==> r == "guest"
  {
    if s == "" then "guest" else s
  }

  /** The part of an AMQP URL after the credentials: "host:port" and the
      virtual host. */
  function Endpoint(host: string, port: int, vhost: string): string
  {
    Address(host, port) + vhost
  }

  /** `fmt.Sprintf("amqp://%s:%d%s", host, port, vhost)`. */
  function AmqpURLNoAuth(host: string, port: int, vhost: string): (u: string)
    ensures IsPrefix("amqp://", u) && u[|"amqp://"|..] == Endpoint(host, port, vhost)
  {
    "amqp://" + Endpoint(host, port, vhost)
  }

  /** `fmt.Sprintf("amqp://%s:%s@%s:%d%s", username, password, host, port, vhost)`:
      the URL without credentials with "user:pass@" inserted after the
      scheme. */
  function AmqpURL(username: string, password: string, host: string, port: int, vhost: string): (u: string)
    ensures IsPrefix("amqp://" + username + ":" + password + "@", u)
    ensures u == "amqp://" + username + ":" + password + "@" + AmqpURLNoAuth(host, port, vhost)[|"amqp://"|..]
  {
    "amqp://" + username + ":" + password + "@" + Endpoint(host, port, vhost)
  }

  /** A message as it is published. */
  datatype Publishing = Publishing(contentType: string, body: string, persistent: bool, headers: map<string, string>)

  /** The channel operations the adapters invoke. */
  datatype ChannelCall =
    | QueueDeclare(name: string, durable: bool, autoDelete: bool, exclusive: bool)
    | QueueDelete(name: string)
    | Publish(exchange: string, routingKey: string, msg: Publishing)

  /** The durable, non-exclusive queue the adapters declare for a name. */
  function DurableQueue(name: string): ChannelCall
  {
    QueueDeclare(name, true, false, false)
  }

  /** The error of two closes made one after the other, each overriding
      the error kept so far when it fails. */
  function LastError(first: Option<Error>, second: Option<Error>): (r: Option<Error>)
    ensures r.None? <==> first.None? && second.None?
    ensures second.Some? ==> r == second
    ensures second.None? ==> r == first
  {
    if second.Some? then second else first
  }

  /** The result of closing what exists: a channel first, then a
      connection; a missing one is not closed and cannot fail. */
  function CloseOutcome(channel: Option<Handle>, conn: Option<Handle>,
                        channelErr: Option<Error>, connErr: Option<Error>): (r: Option<Error>)
    ensures r.Some? ==> (conn.Some? && r == connErr) || (channel.Some? && r == channelErr)
    ensures conn.Some? && connErr.Some? ==> r == connErr
    ensures r.None? <==> (channel.None? || channelErr.None?) && (conn.None? || connErr.None?)
  {
    LastError(if channel.Some? then channelErr else None, if conn.Some? then connErr else None)
  }
}
