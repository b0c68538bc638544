# mq-toolkit core, modelled in Dafny

mq-toolkit is a desktop tool for talking to message brokers. It puts three
broker families (Kafka, RabbitMQ, RocketMQ) behind one set of producer,
consumer, admin and client contracts. On top of those it keeps:
- a configuration store of named connections;
- a history of produce, consume and connection-test outcomes;
- a cache of one live client per connection;
- a registry of running subscriptions;
- a bounded in-memory log.

This project models that core in Dafny and proves what its code promises:
- the typed application errors and their rendering;
- the string and sequence helpers;
- the logger's entry buffer;
- the two adapter factories;
- the nine broker adapters, as classes whose fields hold the connected, subscribed and closed state;
- the four services above the adapters.

Every call into a broker client library, a database or the clock is a
parameter of the Dafny member that models the calling code: the error it
returns, or the value it yields. The models make no assumption about what
those parameters are. Native client objects are abstract handles that are
either open or closed.

One module per source file:

| module | file |
|---|---|
| Types | pkg/types/types.go (records only) |
| Errors | pkg/utils/errors.go |
| Utils | pkg/utils/utils.go |
| GoStd | the parts of Go's `strconv`, `strings`, `net/url` and `fmt` the core relies on |
| Logging | internal/logger/logger.go |
| Factory | internal/factory/factory.go |
| MQFactory | internal/service/mq_factory.go |
| KafkaCommon, KafkaAdmin, KafkaConsumer, KafkaProducer | internal/mq/kafka/*.go |
| RabbitCommon, RabbitAdmin, RabbitProducer, RabbitConsumer, RabbitClient | internal/mq/rabbitmq/*.go |
| RocketClient | internal/mq/rocketmq/client.go |
| Rows | the row order and key rule shared by the two database tables |
| Outcomes | the stop-at-first-failure loops shared by the RabbitMQ and RocketMQ consumers |
| ConfigService, HistoryService, ConsumerService, AppService | internal/service/*.go |

The model keeps these behaviours of the code as written:
- RocketMQ subscriptions get no default group: an empty group id is passed on (internal/mq/rocketmq/client.go:230).
- RocketMQ topic administration uses the name-server address. It does not use a separate broker address (internal/mq/rocketmq/client.go:306-308, 350-363).
- Several adapter paths return the native error unchanged rather than a typed one:
  - RocketMQ `Producer.Connect`'s Start;
  - `Admin.Connect`;
  - `Produce`;
  - `CreateTopic` and `DeleteTopic`.
- `getOrCreateClient` replaces a cached client that reports itself disconnected without closing it (internal/service/app_service.go:255-269).
- `StartConsuming` does not close a consumer whose Connect failed (internal/service/consumer_service.go:61-63).

## Model

| member | source | states |
|---|---|---|
| Errors.Render | pkg/utils/errors.go:35-40 | Error() begins with "[TYPE:CODE] message" and is exactly that long iff the details are empty |
| Errors.Unwrap | pkg/utils/errors.go:43-45 | the cause of an error is strictly smaller than the error, so the cause chain is finite |
| Errors.RenderShape | pkg/utils/errors.go:35-40 | Error() starts with "[TYPE:CODE] message"; with empty details it is exactly that text, otherwise it is that text followed by " - " and the details |
| Errors.RenderContainsCode | pkg/utils/errors.go:35-40 | the rendered text always contains the error's code |
| Errors.RenderIgnoresCause | pkg/utils/errors.go:35-40 | the cause does not appear in Error() |
| Errors.WrappedText | pkg/utils/errors.go:35-45 | a `%w` wrapper renders as its prefix followed by the inner text, and unwraps to the inner error |
| Errors.ConnectionErrorText | pkg/utils/errors.go:106-108 | a connection error renders as "[CONNECTION:CONN_001] " + message |
| Errors.NotFoundErrorText | pkg/utils/errors.go:126-129 | a not-found error renders as "[NOT_FOUND:NOT_FOUND_001] <resource> not found: <id>" |
| Errors.ConstructorCodes | pkg/utils/errors.go:106-149 | the nine constructors fix pairwise different kinds and pairwise different codes |
| Errors.ConstructorCauses | pkg/utils/errors.go:48-77 | Unwrap returns exactly the cause given to a constructor, and nothing for the cause-less ones |
| Errors.NewError | pkg/utils/errors.go:48-55 | an error of the given category and code, IsErrorType and GetErrorCode report them; the message as given, no details, no cause |
| Errors.NewErrorWithCause | pkg/utils/errors.go:58-66 | as NewError, and Unwrap returns the cause given |
| Errors.NewErrorWithDetails | pkg/utils/errors.go:69-77 | as NewError, with the details given and no cause |
| Errors.NewConnectionError | pkg/utils/errors.go:106-108 | category CONNECTION, code CONN_001, the message and the cause given |
| Errors.NewValidationError | pkg/utils/errors.go:111-113 | category VALIDATION, code VAL_001, the message and details given, no cause |
| Errors.NewTimeoutError | pkg/utils/errors.go:116-118 | category TIMEOUT, code TIMEOUT_001, no details and no cause |
| Errors.NewAuthError | pkg/utils/errors.go:121-123 | category AUTHENTICATION, code AUTH_001, no details and no cause |
| Errors.NewNotFoundError | pkg/utils/errors.go:126-129 | category NOT_FOUND, code NOT_FOUND_001, message "<resource> not found: <id>" |
| Errors.NewInternalError | pkg/utils/errors.go:132-134 | category INTERNAL, code INT_001, the message and the cause given |
| Errors.NewNetworkError | pkg/utils/errors.go:137-139 | category NETWORK, code NET_001, the message and the cause given |
| Errors.NewConfigError | pkg/utils/errors.go:142-144 | category CONFIG, code CFG_001, the message and details given, no cause |
| Errors.NewSubscriptionError | pkg/utils/errors.go:147-149 | category SUBSCRIPTION, code SUB_001, the message and the cause given |
| Errors.CodeHasConnMarker | pkg/utils/errors.go:35-40 | any error with code CONN_001 prints "CONN_", with or without details |
| Errors.ConnectionTextHasConnMarker | pkg/utils/errors.go:106-108 | the text of every connection error, with or without details and behind any number of `%w` prefixes, contains "CONN_" |
| Errors.SuffixKeepsSubstring | pkg/utils/errors.go:35-40 | a prefix in front of a text keeps every substring of it |
| Errors.WrapError | pkg/utils/errors.go:152-163 | nil gives nil; an application error is returned unchanged; any other error becomes Internal/WRAP_001 with that error as cause |
| Errors.WrapErrorIdempotent | pkg/utils/errors.go:152-163 | wrapping a wrapped error again changes nothing |
| Errors.IsErrorType | pkg/utils/errors.go:166-171 | false for nil and for every non-application error (a wrapped one included); for an application error, true iff its category is the one asked |
| Errors.GetErrorCode | pkg/utils/errors.go:174-179 | the code of an application error, else "UNKNOWN" |
| Errors.GetErrorMessage | pkg/utils/errors.go:182-187 | "" for nil, otherwise err.Error() |
| Errors.WrapErrorCodes | pkg/utils/errors.go:152-179 | after WrapError, IsErrorType and GetErrorCode report the original kind and code, or Internal/WRAP_001 for foreign errors |
| Outcomes.FirstFailureFrom | internal/mq/rabbitmq/consumer.go:73-87 | the index of the first failing step of a sequence of calls: every earlier step succeeded |
| GoStd.Digits | internal/mq/kafka/admin.go:147 | the decimal digits of a natural number are a non-empty digit string |
| GoStd.DigitsRoundTrip | internal/mq/kafka/admin.go:147 | reading the digits back gives the number |
| GoStd.Int32 | internal/mq/kafka/consumer.go:145 | Go's int32 conversion wraps around modulo 2^32 into the int32 range and keeps values already in range |
| GoStd.Atoi | internal/mq/kafka/consumer.go:90 | strconv.Atoi yields a value in the int64 range or fails |
| GoStd.AtoiDecimalString | internal/mq/kafka/producer.go:61 | Atoi reads back every int64 printed in decimal |
| GoStd.TrimSpace | pkg/utils/utils.go:102 | the trimmed text neither begins nor ends with white space |
| GoStd.ScanInt | pkg/utils/utils.go:108 | Sscanf("%d") yields an int64-range value read from a leading integer |
| GoStd.ScanIntDecimalString | pkg/utils/utils.go:108 | Sscanf("%d") reads back every int64 printed in decimal |
| GoStd.Split | pkg/utils/utils.go:97 | strings.Split gives one more part than separators, and no part contains the separator |
| GoStd.SplitOnce | pkg/utils/utils.go:97-100 | a text with one separator splits into exactly its two sides |
| GoStd.QueryEscapeUnreserved | internal/mq/rabbitmq/admin.go:180 | url.QueryEscape leaves unreserved ASCII text unchanged |
| GoStd.QueryEscapeSlash | internal/mq/rabbitmq/admin.go:176-180 | the default vhost "/" is escaped as "%2F" |
| GoStd.RangeKeys | internal/service/consumer_service.go:144 | `range` over a map visits every key exactly once |
| Utils.TruncateString | pkg/utils/utils.go:60-68 | unchanged when short enough; otherwise exactly maxLen characters: the plain prefix when maxLen <= 3, else a prefix ending in "..." |
| Utils.TruncateIdempotent | pkg/utils/utils.go:60-68 | truncating twice is truncating once |
| Utils.Sanitized | pkg/utils/utils.go:71-79 | the sanitised text is no longer than the input and only has runes >= 32 other than 127 |
| Utils.SanitizedAppend | pkg/utils/utils.go:71-79 | sanitising a concatenation is concatenating the sanitised parts: each rune is kept or dropped on its own, in order |
| Utils.SanitizeString | pkg/utils/utils.go:71-79 | the loop computes the sanitised text |
| Utils.SanitizedKeepsPrintable | pkg/utils/utils.go:71-79 | a text of printable runes is returned unchanged |
| Utils.SanitizedIdempotent | pkg/utils/utils.go:71-79 | sanitising twice is sanitising once |
| Utils.SanitizedKeepsAllPrintable | pkg/utils/utils.go:71-79 | every printable rune of the input survives |
| Utils.ValidTopicByMembership | pkg/utils/utils.go:82-93 | valid iff non-empty and none of space, tab, LF and CR occurs in the name |
| Utils.IsValidTopic | pkg/utils/utils.go:82-93 | true exactly for non-empty names without space, tab, LF or CR |
| Utils.SanitizedTopic | pkg/utils/utils.go:71-93 | a non-empty sanitised text without spaces is a valid topic |
| Utils.ParseConnectionString | pkg/utils/utils.go:96-117 | success gives a non-empty trimmed host without ':' and a port in 1..65535; not exactly one ':' is "invalid connection string format" |
| Utils.TrimSpaceIdempotent | pkg/utils/utils.go:102 | trimming twice is trimming once |
| Utils.TrimSpaceSub | pkg/utils/utils.go:102 | trimming adds no character |
| Utils.ParseConnectionStringRoundTrip | pkg/utils/utils.go:96-117 | "host:port" is parsed back to host and port for every valid pair |
| Utils.Stars | pkg/utils/utils.go:120-128 | n asterisks |
| Utils.MaskPassword | pkg/utils/utils.go:120-128 | same length; all '*' up to two characters, else first and last kept with '*' between |
| Utils.MaskIdempotent | pkg/utils/utils.go:120-128 | masking twice is masking once |
| Utils.Contains | pkg/utils/utils.go:131-138 | true iff the item occurs |
| Utils.Removed | pkg/utils/utils.go:141-149 | the result holds no occurrence of the item and only elements of the input |
| Utils.Remove | pkg/utils/utils.go:141-149 | the loop computes the removal |
| Utils.RemovedCounts | pkg/utils/utils.go:141-149 | every other element keeps its number of occurrences |
| Utils.RemovedAppend | pkg/utils/utils.go:141-149 | removal distributes over concatenation, so the rest keep their order |
| Utils.UniqueOf | pkg/utils/utils.go:152-162 | the result has the same elements as the input |
| Utils.Unique | pkg/utils/utils.go:152-162 | the loop computes the first-occurrence de-duplication |
| Utils.UniqueNoDuplicates | pkg/utils/utils.go:152-162 | the result has no duplicates |
| Utils.UniqueOfDistinct | pkg/utils/utils.go:152-162 | a sequence without duplicates is returned unchanged |
| Utils.UniqueKeepsFirstOrder | pkg/utils/utils.go:152-162 | of two elements of the output, the one listed first also occurs first in the input |
| Utils.UniqueIdempotent | pkg/utils/utils.go:152-162 | de-duplicating twice is de-duplicating once |
| Utils.MaxInt | pkg/utils/utils.go:165-170 | one of the arguments, bounding both |
| Utils.MinInt | pkg/utils/utils.go:173-178 | one of the arguments, bounded by both |
| Logging.LevelName | internal/logger/logger.go:24-30 | the five levels have names, other values none |
| Logging.LevelNamesDistinct | internal/logger/logger.go:24-30 | different levels have different names |
| Logging.NewestKnown | internal/logger/logger.go:103-117 | appending and evicting keep every stored entry's level a known name |
| Logging.WithLevel | internal/logger/logger.go:197-208 | only entries of that level, all from the buffer |
| Logging.WithSource | internal/logger/logger.go:211-222 | only entries of that source, all from the buffer |
| Logging.WithLevelAppend | internal/logger/logger.go:197-208 | filtering a concatenation by level is concatenating the filtered parts, so buffer order is kept |
| Logging.WithSourceAppend | internal/logger/logger.go:211-222 | filtering a concatenation by source is concatenating the filtered parts, so buffer order is kept |
| Logging.WithLevelComplete | internal/logger/logger.go:197-208 | every entry of that level is returned |
| Logging.WithSourceComplete | internal/logger/logger.go:211-222 | every entry of that source is returned |
| Logging.WithUnknownLevel | internal/logger/logger.go:197-208 | filtering by a level name that is not used returns nothing |
| Logging.Newest | internal/logger/logger.go:76-85 | at most max entries, the newest ones, in their stored order; a short buffer is kept whole |
| Logging.SuffixOfSuffix | internal/logger/logger.go:76-85 | a suffix of a suffix of the accepted entries is a suffix of them |
| Logging.SuffixAppend | internal/logger/logger.go:112 | appending the same entry keeps the suffix relation |
| Logging.DropOldest | internal/logger/logger.go:112-117 | on a buffer within its bound, the append drops the single oldest entry at most |
| Logging.NewestSuffix | internal/logger/logger.go:115-117 | the buffer is always the newest part of everything accepted |
| Logging.Logger.constructor | internal/logger/logger.go:46-54 | empty buffer, the given level, maxEntries 1000, no listeners |
| Logging.Logger.SetLevel | internal/logger/logger.go:62-66 | only the level changes |
| Logging.Logger.SetOutput | internal/logger/logger.go:69-73 | only the output changes |
| Logging.Logger.SetMaxEntries | internal/logger/logger.go:76-85 | the bound is set and the newest max entries are kept in order |
| Logging.Logger.AddListener | internal/logger/logger.go:88-92 | one more listener, nothing else changes |
| Logging.Logger.Fanout | internal/logger/logger.go:120-122 | one notification per listener, each with the entry |
| Logging.Logger.Notify | internal/logger/logger.go:120-122 | the listener loop sends the fan-out |
| Logging.Logger.Log | internal/logger/logger.go:95-137 | below the threshold nothing changes; otherwise one entry with the level's name is appended, the oldest entry evicted above the bound, every listener notified and the entry written when there is an output |
| Logging.Logger.Debug | internal/logger/logger.go:140-146 | Log with the level fixed at DEBUG: when the logger's level admits it, the entry is accepted, added to the bounded buffer, sent to every listener and written when there is output; otherwise nothing changes; level, bound, listeners, output and exit state are kept |
| Logging.Logger.Info | internal/logger/logger.go:149-155 | Log with the level fixed at INFO: when the logger's level admits it, the entry is accepted, added to the bounded buffer, sent to every listener and written when there is output; otherwise nothing changes; level, bound, listeners, output and exit state are kept |
| Logging.Logger.Warn | internal/logger/logger.go:158-164 | Log with the level fixed at WARN: when the logger's level admits it, the entry is accepted, added to the bounded buffer, sent to every listener and written when there is output; otherwise nothing changes; level, bound, listeners, output and exit state are kept |
| Logging.Logger.Error | internal/logger/logger.go:167-173 | Log with the level fixed at ERROR: when the logger's level admits it, the entry is accepted, added to the bounded buffer, sent to every listener and written when there is output; otherwise nothing changes; level, bound, listeners, output and exit state are kept |
| Logging.Logger.Fatal | internal/logger/logger.go:176-183 | Log with the level fixed at FATAL (accepted, buffered, sent to every listener, written when there is output, when the level admits it), with level, bound, listeners and output kept; then the process has exited |
| Logging.Logger.GetEntries | internal/logger/logger.go:186-194 | a copy of the buffer: within the bound, every level a known name |
| Logging.Logger.GetEntriesByLevel | internal/logger/logger.go:197-208 | the loop returns exactly the entries of that level in stored order |
| Logging.Logger.GetEntriesBySource | internal/logger/logger.go:211-222 | the loop returns exactly the entries of that source in stored order |
| Logging.Logger.Clear | internal/logger/logger.go:225-229 | the buffer is emptied and nothing else changes |
| Factory.Build | internal/factory/factory.go:27-77 | a new adapter of the requested role and of the tag's family iff the tag is one of the three; otherwise "unsupported mq type: <tag>" |
| Factory.CreateClient | internal/factory/factory.go:27-38 | a client of the tag's family for the three supported tags, else "unsupported mq type: <tag>" |
| Factory.CreateAdmin | internal/factory/factory.go:40-51 | an admin of the tag's family for the three supported tags, else "unsupported mq type: <tag>" |
| Factory.CreateProducer | internal/factory/factory.go:53-64 | a producer of the tag's family for the three supported tags, else "unsupported mq type: <tag>" |
| Factory.CreateConsumer | internal/factory/factory.go:66-77 | a consumer of the tag's family for the three supported tags, else "unsupported mq type: <tag>" |
| Factory.FamilyTagBijection | internal/factory/factory.go:27-37 | families and supported tags correspond one to one |
| Factory.FactoryTotal | internal/factory/factory.go:27-77 | each of the four methods maps each of the three tags to its family and refuses every other tag with the same error |
| Factory.RolesAgree | internal/factory/factory.go:40-77 | the four methods accept the same tags and agree on the family |
| MQFactory.Build | internal/service/mq_factory.go:21-74 | the same dispatch, refusing with "unsupported MQ type: <tag>" |
| MQFactory.CreateProducer | internal/service/mq_factory.go:21-32 | a producer of the tag's family for the three supported tags, else "unsupported MQ type: <tag>" |
| MQFactory.CreateConsumer | internal/service/mq_factory.go:35-46 | a consumer of the tag's family for the three supported tags, else "unsupported MQ type: <tag>" |
| MQFactory.CreateAdmin | internal/service/mq_factory.go:49-60 | an admin of the tag's family for the three supported tags, else "unsupported MQ type: <tag>" |
| MQFactory.CreateClient | internal/service/mq_factory.go:63-74 | a client of the tag's family for the three supported tags, else "unsupported MQ type: <tag>" |
| MQFactory.AgreesWithFactory | internal/service/mq_factory.go:21-74 | the two factories accept the same tags and build the same adapters; only the capitalisation of their refusal differs |
| KafkaCommon.NonEmpty | internal/mq/kafka/consumer.go:51-55 | only non-empty entries of the list |
| KafkaCommon.NonEmptyComplete | internal/mq/kafka/consumer.go:51-55 | every non-empty entry is kept |
| KafkaCommon.NonEmptyAppend | internal/mq/kafka/consumer.go:51-55 | dropping empty entries from a concatenation is concatenating the two results, so the list order is kept |
| KafkaCommon.BrokerList | internal/mq/kafka/consumer.go:49-56 | host:port first, then the extra brokers; host:port alone when there is no "brokers" extra |
| KafkaCommon.BuildBrokers | internal/mq/kafka/producer.go:33-42 | the loop builds the broker list |
| KafkaCommon.PositiveExtra | internal/mq/kafka/producer.go:60-64 | an extra overrides only when present and Atoi gives a positive value |
| KafkaCommon.PositiveExtraRoundTrip | internal/mq/kafka/consumer.go:89-99 | a positive number written into an extra is read back |
| KafkaAdmin.Grouped | internal/mq/kafka/admin.go:99-112 | at most one topic per partition, and the last partition's topic is always present |
| KafkaAdmin.GroupedKeys | internal/mq/kafka/admin.go:99-112 | one topic per distinct partition topic |
| KafkaAdmin.GroupedNames | internal/mq/kafka/admin.go:106-110 | each topic carries its own name |
| KafkaAdmin.GroupedBound | internal/mq/kafka/admin.go:101-108 | every partition id is below the topic's partition count |
| KafkaAdmin.GroupedAttained | internal/mq/kafka/admin.go:101-108 | the partition count is one more than some partition id seen, so it is max id + 1 |
| KafkaAdmin.GroupedReplicas | internal/mq/kafka/admin.go:105-110 | the replica count is that of the topic's first partition |
| KafkaAdmin.Admin.constructor | internal/mq/kafka/admin.go:24-26 | not connected, no connection, no configuration |
| KafkaAdmin.Admin.Connect | internal/mq/kafka/admin.go:29-47 | wrong tag: validation error, nothing changes; dial failure: connection error, still disconnected; success: connected with the configuration |
| KafkaAdmin.Admin.TestConnection | internal/mq/kafka/admin.go:50-76 | success iff connected and the broker list is read; each failure message; the latency |
| KafkaAdmin.Admin.ListTopics | internal/mq/kafka/admin.go:79-121 | the connection, redial and partition errors in order; on success exactly the grouped topics |
| KafkaAdmin.Admin.ToSlice | internal/mq/kafka/admin.go:114-118 | the loop lists every grouped topic once |
| KafkaAdmin.Admin.TopicOperation | internal/mq/kafka/admin.go:124-208 | connection check, then name check, before any dial; success iff every step succeeds, after the four calls in order |
| KafkaAdmin.Admin.CreateTopic | internal/mq/kafka/admin.go:124-169 | the create request is the fourth call; its failure is "Failed to create topic" |
| KafkaAdmin.Admin.DeleteTopic | internal/mq/kafka/admin.go:172-208 | the delete request is the fourth call; its failure is "Failed to delete topic" |
| KafkaAdmin.Admin.ListConsumerGroups | internal/mq/kafka/admin.go:211-219 | an empty list iff connected, otherwise a connection error |
| KafkaAdmin.Admin.Close | internal/mq/kafka/admin.go:222-231 | no connection: no-op; otherwise the close error, disconnected, no configuration, so a second Close is a no-op |
| KafkaConsumer.GroupFor | internal/mq/kafka/consumer.go:59-65 | request group, else configuration group, else "mq-toolkit-default-consumer" |
| KafkaConsumer.Settings | internal/mq/kafka/consumer.go:48-99 | reader brokers, group, first topic, offsets and byte limits with their defaults and overrides |
| KafkaConsumer.OnlyFirstTopic | internal/mq/kafka/consumer.go:69-72 | topics after the first do not change the reader |
| KafkaConsumer.HeaderMap | internal/mq/kafka/consumer.go:151-156 | one key per header key |
| KafkaConsumer.HeaderMapLastWins | internal/mq/kafka/consumer.go:153-155 | a repeated header key keeps its last value |
| KafkaConsumer.ToMessage | internal/mq/kafka/consumer.go:140-156 | the message copies topic, key, value, offset and headers, and the int32-converted partition |
| KafkaConsumer.ReadErrorEnd | internal/mq/kafka/consumer.go:125-136 | cancel, deadline and closed-connection read errors end quietly; others become "Failed to read message" |
| KafkaConsumer.ConnectionErrorEndsQuietly | internal/mq/kafka/consumer.go:131-134 | every application connection error ends the loop quietly |
| KafkaConsumer.StopIndex | internal/mq/kafka/consumer.go:118-137 | the first read event that is not a message |
| KafkaConsumer.ConsumeLoop | internal/mq/kafka/consumer.go:118-164 | every message before the stop is handed on in order and the loop ends as that event says; handler errors do not stop it |
| KafkaConsumer.NothingAfterStop | internal/mq/kafka/consumer.go:118-137 | events after the stop are never read |
| KafkaConsumer.Consumer.constructor | internal/mq/kafka/consumer.go:23-25 | not connected, no reader |
| KafkaConsumer.Consumer.Connect | internal/mq/kafka/consumer.go:28-36 | wrong tag: validation error; otherwise connected with the configuration and no network work |
| KafkaConsumer.Consumer.Subscribe | internal/mq/kafka/consumer.go:39-105 | connection check, then topic check, before any reader; success sets the reader from the settings |
| KafkaConsumer.Consumer.Consume | internal/mq/kafka/consumer.go:108-165 | not connected and not subscribed are connection errors; otherwise the loop |
| KafkaConsumer.Consumer.Close | internal/mq/kafka/consumer.go:168-177 | disconnected, no configuration, no reader; the reader's close error |
| KafkaConsumer.Consumer.IsConnected | internal/mq/kafka/consumer.go:180-182 | the connected flag |
| KafkaProducer.WriterFor | internal/mq/kafka/producer.go:32-72 | the writer's broker list and batch size of 100 unless a positive "batch_size" overrides it |
| KafkaProducer.ToOut | internal/mq/kafka/producer.go:89-111 | topic, key, value and headers copied; the partition only when given |
| KafkaProducer.FirstInvalid | internal/mq/kafka/producer.go:129-132 | the first request with an invalid topic |
| KafkaProducer.BatchOutcome | internal/mq/kafka/producer.go:123-162 | empty batch and invalid topics are refused with nothing written; else one write of all messages in order |
| KafkaProducer.BuildBatch | internal/mq/kafka/producer.go:127-162 | the loop builds that outcome |
| KafkaProducer.StopsAtFirstInvalid | internal/mq/kafka/producer.go:129-132 | the refusal names the first invalid topic |
| KafkaProducer.Producer.constructor | internal/mq/kafka/producer.go:22-24 | no writer, not connected |
| KafkaProducer.Producer.Connect | internal/mq/kafka/producer.go:27-76 | wrong tag: validation error, nothing changes; otherwise connected with the writer |
| KafkaProducer.Producer.Produce | internal/mq/kafka/producer.go:79-115 | connection check, then topic check; a message is written iff both pass |
| KafkaProducer.Producer.ProduceBatch | internal/mq/kafka/producer.go:118-163 | connection check, then the batch outcome |
| KafkaProducer.Producer.BatchOfOne | internal/mq/kafka/producer.go:79-163 | a batch of one behaves like Produce |
| KafkaProducer.Producer.Close | internal/mq/kafka/producer.go:166-174 | no writer: no-op; otherwise the close error and disconnected, so Close is idempotent |
| KafkaProducer.Producer.IsConnected | internal/mq/kafka/producer.go:177-179 | connected and a writer |
| RabbitCommon.VHostOrRoot | internal/mq/rabbitmq/producer.go:36-39 | the vhost, "/" when empty |
| RabbitCommon.GuestDefault | internal/mq/rabbitmq/admin.go:47-54 | the value, "guest" when empty |
| RabbitCommon.AmqpURLNoAuth | internal/mq/rabbitmq/producer.go:46 | "amqp://" followed by host:port and the virtual host |
| RabbitCommon.AmqpURL | internal/mq/rabbitmq/producer.go:43-44 | the URL without credentials with "user:pass@" between the scheme and the address |
| RabbitCommon.LastError | internal/mq/rabbitmq/admin.go:291-311 | the later failure wins, an error iff either failed |
| RabbitCommon.CloseOutcome | internal/mq/rabbitmq/producer.go:146-166 | the connection's close error if any, else the channel's; none iff neither present object failed |
| RabbitAdmin.AdminURL | internal/mq/rabbitmq/admin.go:40-57 | each missing credential becomes guest on its own; with both given, the URL with them |
| RabbitAdmin.Management | internal/mq/rabbitmq/admin.go:174-201 | "http://<host>:15672/api/queues/" followed by the query-escaped virtual host ("/" when empty), with guest for each missing credential |
| RabbitAdmin.ManagementDefaults | internal/mq/rabbitmq/admin.go:174-201 | with nothing configured: "http://host:15672/api/queues/%2F" with guest/guest |
| RabbitAdmin.QueueTopic | internal/mq/rabbitmq/admin.go:160-166 | a queue becomes a topic of the same name with one partition and one replica |
| RabbitAdmin.Admin.constructor | internal/mq/rabbitmq/admin.go:27-29 | nothing open |
| RabbitAdmin.Admin.Connect | internal/mq/rabbitmq/admin.go:32-77 | wrong tag: validation error; the guest-defaulted URL; dial and channel failures leave it disconnected; success opens both |
| RabbitAdmin.Admin.TestConnection | internal/mq/rabbitmq/admin.go:80-133 | success iff connected, open and the test queue is declared and deleted; each failure message; the latency |
| RabbitAdmin.Admin.ListTopics | internal/mq/rabbitmq/admin.go:146-169 | not connected: connection error; otherwise the management request, an empty list when it fails, else one topic per queue in order |
| RabbitAdmin.Admin.QueueOperation | internal/mq/rabbitmq/admin.go:232-282 | connection check, then name check, before the one channel call |
| RabbitAdmin.Admin.CreateTopic | internal/mq/rabbitmq/admin.go:232-257 | declares one durable queue; its failure is "Failed to create queue" |
| RabbitAdmin.Admin.CreateTopicIgnoresCounts | internal/mq/rabbitmq/admin.go:232-257 | partitions and replicas make no difference |
| RabbitAdmin.Admin.DeleteTopic | internal/mq/rabbitmq/admin.go:260-282 | deletes the queue; its failure is "Failed to delete queue" |
| RabbitAdmin.Admin.ListConsumerGroups | internal/mq/rabbitmq/admin.go:285-288 | always an empty list |
| RabbitAdmin.Admin.Close | internal/mq/rabbitmq/admin.go:291-311 | everything cleared, the last close error returned |
| RabbitProducer.ProducerURL | internal/mq/rabbitmq/producer.go:36-47 | with both credentials, the URL with them; with either missing, the URL without any; "/" as the default virtual host |
| RabbitProducer.HalfCredentialsDropped | internal/mq/rabbitmq/producer.go:41-47 | credentials are used only when both are given |
| RabbitProducer.ToPublishing | internal/mq/rabbitmq/producer.go:92-106 | persistent text/plain with the value as body and the headers copied |
| RabbitProducer.Send | internal/mq/rabbitmq/producer.go:75-122 | topic check first; then a durable declare of the topic's queue and a publish to the default exchange with the topic as routing key |
| RabbitProducer.Sends | internal/mq/rabbitmq/producer.go:133-138 | one send per request |
| RabbitProducer.Batch | internal/mq/rabbitmq/producer.go:136-140 | an empty batch succeeds with no calls; the first send's calls come first; a failing first send ends the batch with its result |
| RabbitProducer.BatchStopsAtFailure | internal/mq/rabbitmq/producer.go:133-140 | nothing is sent after the first failure |
| RabbitProducer.BatchContinues | internal/mq/rabbitmq/producer.go:133-140 | after successes the batch goes on with the rest |
| RabbitProducer.BatchFailsAtFirst | internal/mq/rabbitmq/producer.go:133-140 | the batch returns the first failure's error |
| RabbitProducer.SendAll | internal/mq/rabbitmq/producer.go:133-142 | the loop computes the batch |
| RabbitProducer.Producer.constructor | internal/mq/rabbitmq/producer.go:23-25 | nothing open |
| RabbitProducer.Producer.Connect | internal/mq/rabbitmq/producer.go:28-67 | wrong tag: validation error, nothing changes; the URL; dial and channel failures leave it disconnected; success opens both |
| RabbitProducer.Producer.Produce | internal/mq/rabbitmq/producer.go:70-123 | connection check, then the send |
| RabbitProducer.Producer.ProduceBatch | internal/mq/rabbitmq/producer.go:126-143 | connection check, empty-batch check, then the batch |
| RabbitProducer.Producer.BatchOfOne | internal/mq/rabbitmq/producer.go:126-143 | a batch of one behaves like Produce |
| RabbitProducer.Producer.Close | internal/mq/rabbitmq/producer.go:146-166 | everything cleared, the close error returned |
| RabbitProducer.Producer.IsConnected | internal/mq/rabbitmq/producer.go:169-176 | flag, connection and channel present, connection open |
| RabbitConsumer.ConsumerURL | internal/mq/rabbitmq/consumer.go:35-40 | "amqp://user:pass@" with the credentials exactly as configured, even empty, then host:port and the virtual host |
| RabbitConsumer.ToMessage | internal/mq/rabbitmq/consumer.go:132-144 | queue as topic, routing key as key, body as value, partition and offset 0, headers copied |
| RabbitConsumer.Settle | internal/mq/rabbitmq/consumer.go:146-151 | ack iff the handler succeeded, else nack with requeue |
| RabbitConsumer.DrainQueue | internal/mq/rabbitmq/consumer.go:125-153 | each delivery handed on in order and settled by its handler outcome |
| RabbitConsumer.DeclareAll | internal/mq/rabbitmq/consumer.go:73-87 | the queues declared before the first failure, and that failure as "Failed to declare queue <name>" |
| RabbitConsumer.Consumer.constructor | internal/mq/rabbitmq/consumer.go:24-26 | nothing open |
| RabbitConsumer.Consumer.Connect | internal/mq/rabbitmq/consumer.go:29-49 | wrong tag: validation error; the URL with the credentials as given; success connects, no channel |
| RabbitConsumer.Consumer.Subscribe | internal/mq/rabbitmq/consumer.go:52-89 | connection check, then topic check, before a channel; queue list is the declared prefix |
| RabbitConsumer.Consumer.SubscribedAll | internal/mq/rabbitmq/consumer.go:73-87 | a successful subscription lists every requested queue in order |
| RabbitConsumer.Consumer.Consume | internal/mq/rabbitmq/consumer.go:92-159 | the state, queue and QoS checks in order, then the context's error |
| RabbitConsumer.Consumer.Close | internal/mq/rabbitmq/consumer.go:162-177 | disconnected, no queues, the last close error |
| RabbitConsumer.Consumer.IsConnected | internal/mq/rabbitmq/consumer.go:180-182 | flag and an open connection |
| RabbitConsumer.Consumer.ClosedRefuses | internal/mq/rabbitmq/consumer.go:162-182 | after Close it reports disconnected and refuses to consume |
| RabbitClient.DialledURLs | internal/mq/rabbitmq/client.go:31-44 | with credentials the three parts dial the same URL; without, admin uses guest, producer none, consumer empty ones |
| RabbitClient.Client.constructor | internal/mq/rabbitmq/client.go:18-24 | three fresh, unconnected parts |
| RabbitClient.Client.Connect | internal/mq/rabbitmq/client.go:27-47 | producer, consumer, admin in order; the first failure returned; a consumer failure closes the producer, an admin failure both |
| RabbitClient.Client.Close | internal/mq/rabbitmq/client.go:95-111 | all three closed; the last failure returned |
| RabbitClient.Client.CloseFailsIffPartFails | internal/mq/rabbitmq/client.go:95-111 | Close fails iff some part's close fails |
| RabbitClient.Client.IsConnected | internal/mq/rabbitmq/client.go:114-116 | producer and consumer connected; admin not consulted |
| RabbitClient.Client.Produce | internal/mq/rabbitmq/client.go:50-52 | delegated unchanged to the producer |
| RabbitClient.Client.ProduceBatch | internal/mq/rabbitmq/client.go:55-57 | delegated unchanged to the producer |
| RabbitClient.Client.Subscribe | internal/mq/rabbitmq/client.go:60-62 | delegated to the consumer with its whole contract: not-connected error, empty topic list, channel failure, queues declared up to the first failure and that failure's error |
| RabbitClient.Client.Consume | internal/mq/rabbitmq/client.go:65-67 | delegated unchanged to the consumer |
| RabbitClient.Client.TestConnection | internal/mq/rabbitmq/client.go:70-72 | delegated unchanged to the admin |
| RabbitClient.Client.ListTopics | internal/mq/rabbitmq/client.go:75-77 | delegated to the admin: once connected it requests the management queue list and answers an empty list when that call fails |
| RabbitClient.Client.CreateTopic | internal/mq/rabbitmq/client.go:80-82 | delegated unchanged to the admin |
| RabbitClient.Client.DeleteTopic | internal/mq/rabbitmq/client.go:85-87 | delegated unchanged to the admin |
| RabbitClient.Client.ListConsumerGroups | internal/mq/rabbitmq/client.go:90-92 | always an empty list |
| RocketClient.NameServers | internal/mq/rocketmq/client.go:133 | exactly one name server, host:port |
| RocketClient.ProducerOptionsFor | internal/mq/rocketmq/client.go:132-140 | the one name server, and credentials iff both are configured, carrying them |
| RocketClient.CredentialsFor | internal/mq/rocketmq/client.go:135-140 | credentials iff both username and password are given |
| RocketClient.ConsumerOptionsFor | internal/mq/rocketmq/client.go:228-240 | name server host:port, the request's group as given (no default), credentials, first offset iff from the beginning |
| RocketClient.SameEndpoint | internal/mq/rocketmq/client.go:132-140 | producer and consumer use the same name server and credentials |
| RocketClient.ToNative | internal/mq/rocketmq/client.go:157-164 | topic, body, the key as the only key, headers as properties |
| RocketClient.ToNativeIgnoresPartition | internal/mq/rocketmq/client.go:157-164 | the partition and connection id are not used |
| RocketClient.BuildMessages | internal/mq/rocketmq/client.go:176-187 | one native message per request, at its index |
| RocketClient.SubscribeAll | internal/mq/rocketmq/client.go:248-255 | topics subscribed up to the first failure, which is a subscription error |
| RocketClient.Probe | internal/mq/rocketmq/client.go:324-336 | success iff no error or an error containing "topic already exist"; the messages; the latency |
| RocketClient.AlreadyExistsIsSuccess | internal/mq/rocketmq/client.go:325 | an "already exists" refusal counts as a successful test |
| RocketClient.Texts | internal/mq/rocketmq/client.go:104 | the texts of the collected errors |
| RocketClient.Failures | internal/mq/rocketmq/client.go:93-102 | the collected errors; none iff every close succeeded |
| RocketClient.Aggregate | internal/mq/rocketmq/client.go:103-106 | an error iff some close failed, listing the failures after "errors closing RocketMQ client: " |
| RocketClient.OneFailureText | internal/mq/rocketmq/client.go:103-106 | one failure renders as the prefix and "[<its text>]" |
| RocketClient.FailuresOfThree | internal/mq/rocketmq/client.go:93-102 | the failures of three closes, in order |
| RocketClient.Producer.constructor | internal/mq/rocketmq/client.go:121-123 | no native producer, no configuration |
| RocketClient.Producer.Connect | internal/mq/rocketmq/client.go:126-149 | wrong tag: validation error, nothing changes; a create failure is a connection error; a Start failure is returned unchanged |
| RocketClient.Producer.Produce | internal/mq/rocketmq/client.go:152-168 | connection check only, then one synchronous send |
| RocketClient.Producer.ProduceBatch | internal/mq/rocketmq/client.go:171-191 | connection check only, no empty check, one send of every message in order |
| RocketClient.Producer.BatchOfOne | internal/mq/rocketmq/client.go:152-191 | a batch of one behaves like Produce |
| RocketClient.Producer.Close | internal/mq/rocketmq/client.go:194-199 | the shutdown error if there is a producer; the closed object stays |
| RocketClient.Producer.IsConnected | internal/mq/rocketmq/client.go:202-204 | a native producer exists |
| RocketClient.Consumer.constructor | internal/mq/rocketmq/client.go:213-215 | no native consumer, no configuration |
| RocketClient.Consumer.Connect | internal/mq/rocketmq/client.go:218-224 | tag check, then the configuration is stored; no network work |
| RocketClient.Consumer.Subscribe | internal/mq/rocketmq/client.go:227-257 | the options; a create failure is a connection error; else the subscribed prefix and a subscription error at the first failure |
| RocketClient.Consumer.Consume | internal/mq/rocketmq/client.go:260-273 | not subscribed: connection error; a start failure is a subscription error; else the shutdown outcome |
| RocketClient.Consumer.Close | internal/mq/rocketmq/client.go:276-281 | the shutdown error if there is a consumer; the closed object stays |
| RocketClient.Consumer.IsConnected | internal/mq/rocketmq/client.go:284-286 | a native consumer exists, so false until Subscribe |
| RocketClient.Admin.constructor | internal/mq/rocketmq/client.go:295-297 | no native admin, no configuration |
| RocketClient.Admin.Connect | internal/mq/rocketmq/client.go:300-310 | wrong tag: validation error; otherwise the endpoint and the raw create outcome |
| RocketClient.Admin.TestConnection | internal/mq/rocketmq/client.go:313-337 | no admin: "Not connected to RocketMQ"; otherwise the probe |
| RocketClient.Admin.TestConnectionCalls | internal/mq/rocketmq/client.go:324 | the probe creates "__test_connection__" iff there is an admin |
| RocketClient.Admin.ListTopics | internal/mq/rocketmq/client.go:340-347 | always an error: connection error without admin, else "not supported" |
| RocketClient.Admin.AdminOperation | internal/mq/rocketmq/client.go:350-363 | connection check, then the one call with its raw outcome |
| RocketClient.Admin.CreateTopic | internal/mq/rocketmq/client.go:350-355 | creates the topic by name only |
| RocketClient.Admin.CreateTopicUnchecked | internal/mq/rocketmq/client.go:350-355 | no name check and partitions and replicas are not used |
| RocketClient.Admin.DeleteTopic | internal/mq/rocketmq/client.go:358-363 | deletes the topic by name |
| RocketClient.Admin.ListConsumerGroups | internal/mq/rocketmq/client.go:366-370 | always "not directly supported" |
| RocketClient.Admin.Close | internal/mq/rocketmq/client.go:373-378 | the close error if there is an admin |
| RocketClient.Client.constructor | internal/mq/rocketmq/client.go:28-34 | three fresh parts with no native objects |
| RocketClient.Client.Connect | internal/mq/rocketmq/client.go:37-50 | producer, consumer, admin in order; the first error returned; earlier parts stay connected |
| RocketClient.Client.Close | internal/mq/rocketmq/client.go:92-107 | all three closed; the aggregated failure text |
| RocketClient.Client.CloseFailsIffPartFails | internal/mq/rocketmq/client.go:92-107 | Close fails iff some part's close fails |
| RocketClient.Client.IsConnected | internal/mq/rocketmq/client.go:110-112 | producer and consumer connected |
| RocketClient.Client.Produce | internal/mq/rocketmq/client.go:53-55 | delegated unchanged to the producer |
| RocketClient.Client.ProduceBatch | internal/mq/rocketmq/client.go:57-59 | delegated unchanged to the producer |
| RocketClient.Client.Subscribe | internal/mq/rocketmq/client.go:62-64 | delegated to the consumer with its whole contract: the consumer options, a creation failure as a connection error, topics subscribed up to the first failure and that failure's subscription error |
| RocketClient.Client.Consume | internal/mq/rocketmq/client.go:66-68 | delegated unchanged to the consumer |
| RocketClient.Client.TestConnection | internal/mq/rocketmq/client.go:71-73 | delegated unchanged to the admin |
| RocketClient.Client.ListTopics | internal/mq/rocketmq/client.go:75-77 | exactly the admin's result, which is always an error |
| RocketClient.Client.CreateTopic | internal/mq/rocketmq/client.go:79-81 | delegated unchanged to the admin |
| RocketClient.Client.DeleteTopic | internal/mq/rocketmq/client.go:83-85 | delegated unchanged to the admin |
| RocketClient.Client.ListConsumerGroups | internal/mq/rocketmq/client.go:87-89 | exactly the admin's result: the unsupported-operation error |
| Rows.Newest | internal/service/history_service.go:74-89 | the rows in reverse insertion order, newest first |
| Rows.NewestSameRows | internal/service/history_service.go:74-89 | ordering loses and adds no row |
| ConfigService.Ids | internal/service/config_service.go:23-38 | the ids of the rows in order |
| ConfigService.NameCount | internal/service/config_service.go:30-35 | the count is positive iff the name is taken by a row other than the excepted id |
| ConfigService.IndexOf | internal/service/config_service.go:76-85 | the position of the id's row, or none |
| ConfigService.OfType | internal/service/config_service.go:97-103 | only rows of that type, in order |
| ConfigService.Without | internal/service/config_service.go:64-73 | the rows without the id |
| ConfigService.WithoutUnique | internal/service/config_service.go:64-73 | deletion keeps ids and names unique |
| ConfigService.InsertKeepsUnique | internal/service/config_service.go:30-37 | inserting an unused id and name keeps them unique |
| ConfigService.ReplaceKeepsUnique | internal/service/config_service.go:53-60 | replacing a row with a name not used by others keeps them unique |
| ConfigService.WithoutOne | internal/service/config_service.go:64-73 | deleting a present id removes exactly one row |
| ConfigService.WithoutAbsent | internal/service/config_service.go:64-73 | deleting an absent id changes nothing |
| ConfigService.Configs.constructor | internal/service/config_service.go:18-20 | an empty table |
| ConfigService.Configs.CreateConnection | internal/service/config_service.go:23-38 | a fresh id only when empty; a taken name is refused with the table unchanged; count and insert failures |
| ConfigService.Configs.UpdateConnection | internal/service/config_service.go:41-61 | not found; a name held by another id is refused, one's own allowed; success replaces the row |
| ConfigService.Configs.DeleteConnection | internal/service/config_service.go:64-73 | not found; otherwise exactly that row is removed |
| ConfigService.Configs.GetConnection | internal/service/config_service.go:76-85 | the stored row, or "connection not found: <id>", or the wrapped query failure |
| ConfigService.Configs.ListConnections | internal/service/config_service.go:88-94 | every row, or the wrapped failure |
| ConfigService.Configs.ListConnectionsByType | internal/service/config_service.go:97-103 | only rows of that type, or the wrapped failure |
| ConfigService.Configs.ListByTypeExact | internal/service/config_service.go:97-103 | a row is listed iff it is stored and of that type |
| ConfigService.Configs.GetFindsStored | internal/service/config_service.go:76-85 | every stored row is found by its id |
| HistoryService.Ids | internal/service/history_service.go:24-29 | the ids of the records in order |
| HistoryService.Where | internal/service/history_service.go:92-125 | only records with that connection or type, in order |
| HistoryService.WhereComplete | internal/service/history_service.go:92-125 | every matching record is selected |
| HistoryService.WhereNewest | internal/service/history_service.go:92-125 | filtering commutes with newest-first ordering |
| HistoryService.WhereAppend | internal/service/history_service.go:92-125 | filtering distributes over appended records |
| HistoryService.Skip | internal/service/history_service.go:80-85 | the offset applies only when positive |
| HistoryService.Page | internal/service/history_service.go:74-89 | a contiguous slice after the offset, at most limit long when the limit is positive |
| HistoryService.ConsecutivePages | internal/service/history_service.go:74-89 | two consecutive pages follow each other |
| HistoryService.PageSub | internal/service/history_service.go:74-89 | a page holds only stored records |
| HistoryService.PageOfWhere | internal/service/history_service.go:92-125 | filtering the newest-first order and then paging gives the same page as paging the newest-first order of the filtered records |
| HistoryService.Without | internal/service/history_service.go:146-155 | the records without the id |
| HistoryService.WithoutDistinct | internal/service/history_service.go:146-155 | deletion keeps the record ids distinct |
| HistoryService.History.constructor | internal/service/history_service.go:19-21 | an empty table |
| HistoryService.History.Tagged | internal/service/history_service.go:33-42 | a record carrying exactly the id, connection id, type, topic, outcome, message and latency given |
| HistoryService.History.AddRecord | internal/service/history_service.go:24-29 | a fresh id only when empty; the record appended, or the insert failure with the table unchanged |
| HistoryService.History.AddProduceRecord | internal/service/history_service.go:32-43 | a "produce" record with the given fields |
| HistoryService.History.AddConsumeRecord | internal/service/history_service.go:46-57 | a "consume" record with the given fields |
| HistoryService.History.AddTestRecord | internal/service/history_service.go:60-71 | a "test_connection" record with an empty topic |
| HistoryService.History.GetRecords | internal/service/history_service.go:74-89 | a page of all records, newest first, or the wrapped failure |
| HistoryService.History.GetRecordsByConnection | internal/service/history_service.go:92-107 | on a successful query, exactly Page(Newest(records with that connection id), limit, offset); otherwise the wrapped failure |
| HistoryService.History.GetRecordsByType | internal/service/history_service.go:110-125 | on a successful query, exactly Page(Newest(records of that type), limit, offset); otherwise the wrapped failure |
| HistoryService.History.DeleteRecord | internal/service/history_service.go:146-155 | a failing DELETE is wrapped with "failed to delete record: " and an absent id gives "record not found: <id>", both leaving the table as it was; otherwise the table is the old one without that id's row, the other rows kept in order |
| HistoryService.History.ClearRecords | internal/service/history_service.go:158-160 | every record removed |
| ConsumerService.NormalShutdownText | internal/service/consumer_service.go:103-106 | every text holding "CONN_" is a normal shutdown, and the empty text never is |
| ConsumerService.ClassifyLoopEnd | internal/service/consumer_service.go:101-120 | nil or Canceled is quiet; a normal-shutdown text is a normal stop; anything else fails |
| ConsumerService.ConnectionErrorIsNormalStop | internal/service/consumer_service.go:104-106 | every connection error, behind any prefixes, is a normal stop |
| ConsumerService.AdapterConnectionErrorIsNormalStop | internal/service/consumer_service.go:104-106 | in particular every connection error an adapter returns |
| ConsumerService.Consumers.constructor | internal/service/consumer_service.go:36-44 | no subscriptions |
| ConsumerService.Consumers.StartConsuming | internal/service/consumer_service.go:47-124 | each failure wrapped with its step and nothing stored; a subscribe failure closes the consumer, a connect failure does not; success stores one record under the new id |
| ConsumerService.Consumers.HandleMessage | internal/service/consumer_service.go:87-98 | one consume record, one event, never an error |
| ConsumerService.Consumers.ConsumeEnded | internal/service/consumer_service.go:101-120 | a failure is emitted as a consumer error; the record is then removed |
| ConsumerService.Consumers.StopAndRemove | internal/service/consumer_service.go:132-140 | cancel, close and delete a present id; an absent id changes nothing |
| ConsumerService.Consumers.StopConsuming | internal/service/consumer_service.go:127-129 | stopAndRemove |
| ConsumerService.ConsumersOf | internal/service/consumer_service.go:143-148 | the consumers of the named subscriptions, each at the position of its subscription |
| ConsumerService.Consumers.StopAllConsumers | internal/service/consumer_service.go:143-148 | every subscription cancelled and its consumer closed exactly once, in iteration order; none remains |
| AppService.Hit | internal/service/app_service.go:255-257 | only a cached client is reused, and never one that reports itself disconnected |
| AppService.ClientStep | internal/service/app_service.go:251-271 | one call makes at most one client and closes at most one; a call that makes none changes nothing |
| AppService.Lookup | internal/service/app_service.go:251-271 | a cached connected client is returned; else a new client of the tag's family, or the factory's or Connect's error unchanged |
| AppService.StepKeepsMade | internal/service/app_service.go:251-271 | the cache only holds clients the service made; closed clients only grow |
| AppService.StepCachesResult | internal/service/app_service.go:264-270 | the returned client is the cached one afterwards; after a failure the cache is as it was |
| AppService.NewClientIsFresh | internal/service/app_service.go:259-270 | a new client differs from every cached one |
| AppService.SecondCallReuses | internal/service/app_service.go:255-257 | asked again while connected, the same client is returned and nothing changes |
| AppService.Reported | internal/service/app_service.go:102-109 | the adapter's result, a failure "Test returned a nil result" when it gave none, with the latency |
| AppService.ProduceTextTellsOutcome | internal/service/app_service.go:134-138 | the history message says "sent" iff the send succeeded |
| AppService.ClientsOf | internal/service/app_service.go:296-300 | the clients of the named connections, each at the position of its connection |
| AppService.App.constructor | internal/service/app_service.go:30-49 | new services sharing one configuration store and history, an empty cache |
| AppService.App.GetOrCreateClient | internal/service/app_service.go:251-271 | the looked-up client and the cache step: hit or refused tag changes nothing, a failed Connect closes the new client, success caches it |
| AppService.App.TestConnection | internal/service/app_service.go:67-113 | always a result with the latency; config and factory failures record nothing; after Connect a test record with the result's success and message, and the admin is closed |
| AppService.App.SuccessMeansReached | internal/service/app_service.go:67-113 | a successful test is the adapter's success for a stored configuration |
| AppService.App.ProduceMessage | internal/service/app_service.go:116-148 | config and client failures returned unchanged with no record; otherwise one produce record with success = no error, and the send's error |
| AppService.App.StartConsuming | internal/service/app_service.go:151-160 | the consumer service's start: each failing step's error wrapped with "failed to get connection config: ", "failed to create consumer: ", "failed to connect: " or "failed to subscribe: "; a failed Subscribe closes the new consumer; success registers exactly the request under the new id; nothing is cancelled |
| AppService.App.StopConsuming | internal/service/app_service.go:163-166 | the consumer service's stop: a registered subscription is cancelled, its consumer closed and its entry removed; an unknown id changes nothing |
| AppService.App.ListTopics | internal/service/app_service.go:169-190 | config and client failures unchanged; otherwise the client's topics |
| AppService.App.CreateTopic | internal/service/app_service.go:193-219 | an empty connection id is refused before any lookup; then as ListTopics with the client's outcome |
| AppService.App.DeleteTopic | internal/service/app_service.go:222-248 | an empty connection id is refused before any lookup; then as ListTopics with the client's outcome |
| AppService.App.CloseConnection | internal/service/app_service.go:274-285 | a cached client is closed and removed and its error returned; an absent id is no error and changes nothing |
| AppService.App.CloseClients | internal/service/app_service.go:296-302 | every cached client closed exactly once, in the map's iteration order, and the cache emptied |
| AppService.App.Shutdown | internal/service/app_service.go:288-305 | every subscription cancelled once and its consumer closed, in the returned order, leaving none; then every cached client closed exactly once, in the second returned order, and the cache empty; never an error |

## Left out

- Network, broker and database calls: they are foreign. Each one's outcome is a parameter of the member that makes it.
- ParseCommaSeparated, used for the Kafka "brokers" extra: internal/mq/kafka/client.go is not part of this model. The splitting function is a parameter of the broker-list members.
- The Kafka composite client: internal/mq/kafka/client.go is not part of this model.
- Concurrency is modelled sequentially. This covers:
  - goroutines and the per-subscription consume goroutine, modelled by its message step and its end;
  - `sync.Map`;
  - the cache mutex;
  - the WaitGroup fan-out over RabbitMQ queues (one queue's loop is modelled);
  - the logger's asynchronous listeners (recorded as notifications).
- Time:
  - latencies are parameters;
  - timestamps are not stored;
  - "newest first" is reverse insertion order;
  - `batch_timeout` parsing is not modelled;
  - GetRecordsByTimeRange and ClearOldRecords are not modelled, because their only logic is a time comparison;
  - the RabbitMQ test queue's name is not modelled, because it holds the current time.
- GenerateID and GenerateShortID: they are random. Generated ids are parameters.
- getStack: it is runtime introspection.
- FormatDuration and FormatBytes: they use floating-point formatting.
- The logger's JSON output: only the fact that an entry is written is modelled.
- Fatal's `os.Exit`: it is an `exited` flag.
- The package-level global logger: it only forwards to an instance.
- MaxInt64 and MinInt64: they are the same functions as MaxInt and MinInt on unbounded integers.
- Kafka SASL: the source leaves it empty.
- The int16 truncation of Kafka replica counts and the int32 sign of partition ids in ListTopics: they are modelled as unbounded integers.
- Nil and empty slices and maps are not told apart.
- Strings are sequences of characters; the source counts bytes. Only the escaping of the RabbitMQ vhost encodes characters as UTF-8.
- Header order in Kafka messages and `%v` rendering of AMQP header values: a header map is a map, and a consumed header value is given as its text.
- The database layer, template_service.go, app.go, the Wails runtime and the file dialog: outside the core. Emitted events are kept as a log.
- The duplicate-key text of the database ("UNIQUE constraint failed: <table>.id") is an assumed rendering of the SQLite error.
- The service's log lines are not modelled.
- RocketClient.Consumer.Subscribe: requires a stored configuration, because the source dereferences a nil configuration otherwise.
- RocketClient.Producer.Connect, RocketClient.Consumer.Subscribe and RocketClient.Admin.Connect: a failed native constructor is modelled as leaving no native object.
- Re-connecting an adapter that is already connected leaks its earlier native objects in the source. The model keeps only the newest ones, as the fields do.
