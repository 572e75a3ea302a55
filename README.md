# Synapse event-sourcing core, modelled in Dafny

This project models the core of Synapse, a library for event-sourced services on AWS Kinesis, and proves properties of the model. The model covers:

- **S3 snapshot message store** (`SnapshotFormat`, `SnapshotStore`, with `Json` as the token stream a Jackson parser reports).
  - On construction it retrieves the latest compacted snapshot of a channel and publishes STARTING/STARTED/FAILED notifications.
  - It reads the channel's start position from the `startSequenceNumbers` header of the snapshot document.
  - It leaves a message iterator positioned on the `data` array, and `streamAll()` hands out those messages.
- **Kinesis message sender** (`KinesisSender`).
  - It encodes messages into `putRecords` entries and partitions them into batches of 500.
  - It sends each batch until no record fails, giving up after the 15th failed attempt.
- **`MessageStore` interface defaults** (`MessageStore`): the single-channel guard of `getLatestChannelPosition()`, the channel filter `stream(channelName)`, and `size()`.
- **`ConcurrentMapStateRepository`** (`StateRepository`): a named key/value store of entity state over a `ConcurrentMap`.
- **`EventSourceConsumerProcess`** (`ConsumerProcess`).
  - It pairs each event consumer with the first event source of the same stream name.
  - It sizes a thread pool, submits one task per matched source, and raises a stop flag on shutdown.
- **`MessageReceiverEndpointInfoProvider`** (`EndpointInfo`): the per-channel status state machine driven by STARTING/STARTED/RUNNING/FINISHED/FAILED notifications.
- **`KinesisAutoConfiguration.DefaultLoggingRetryCondition`** (`RetryCondition`): the log level chosen per retry, the exception-message search down the cause chain, and the delegation of the retry decision.

How the model is shaped:

- Code that changes state in place is modelled as classes whose methods are proved against pure specification functions. These are:
  - the snapshot store's constructor loop, `processSequenceNumbers` and iterator;
  - the sender's retry loop;
  - the state repository;
  - the consumer process;
  - the endpoint-info provider.
- Properties relating several calls are lemmas about those functions.
- Java `null` and `Optional` are `Option`; thrown exceptions are `Result.Failure` values or an out-parameter.
- Object identity of event sources and consumers is an `id` field.
- Clock instants are integers passed to each call.

- `EventSourceConsumerProcess` sizes its pool by `Multimap.size()`, which counts (source, consumer) pairs, so the pool can have more threads than `init` submits tasks. `ConsumerProcess.EventSourceConsumerProcess.constructor` gives `nThreads` as the number of pairs, and `ConsumerProcess.TasksPerSource` proves threads >= tasks.
- The message iterator runs `hasNext()` as written, without remembering that the data array has ended (see "## Findings"). A single pass hands out the same messages either way, so `StreamAll` and the snapshot round trip are unaffected.

## Model

| member | source | states |
|---|---|---|
| `Json.ValueAsString` | synapse-compaction-aws-s3/src/main/java/de/otto/synapse/messagestore/aws/S3SnapshotMessageStore.java:164-171 | getValueAsString gives the text of a string value, the name of a field name, and null for the null value, structural tokens and no current token |
| `Json.TextValue` | synapse-compaction-aws-s3/src/main/java/de/otto/synapse/messagestore/aws/S3SnapshotMessageStore.java:229-232 | nextTextValue is present exactly when the token read is a string, and is then its text |
| `Json.JsonParser.NextToken` | synapse-compaction-aws-s3/src/main/java/de/otto/synapse/messagestore/aws/S3SnapshotMessageStore.java:76-77 | the parser hands out the tokens in order; at the end it returns null and closes itself, or throws the lexer's exception |
| `SnapshotFormat.StartOf` | synapse-compaction-aws-s3/src/main/java/de/otto/synapse/messagestore/aws/S3SnapshotMessageStore.java:179-181 | a shard starts at the horizon exactly when its sequence number is absent, "" or "0"; otherwise it starts at that sequence number |
| `SnapshotFormat.Build` | synapse-compaction-aws-s3/src/main/java/de/otto/synapse/messagestore/aws/S3SnapshotMessageStore.java:182-191 | a built position has exactly the collected shards as keys |
| `SnapshotFormat.BuildFailureNamesRepeatedShard` | synapse-compaction-aws-s3/src/main/java/de/otto/synapse/messagestore/aws/S3SnapshotMessageStore.java:182-191 | when build() fails, the error is a duplicate key, and the shard it names occurs twice among the collected records |
| `SnapshotFormat.BuildSucceedsIffDistinct` | synapse-compaction-aws-s3/src/main/java/de/otto/synapse/messagestore/aws/S3SnapshotMessageStore.java:182-191 | build() succeeds if and only if no shard name repeats |
| `SnapshotFormat.BuildMapsEachShard` | synapse-compaction-aws-s3/src/main/java/de/otto/synapse/messagestore/aws/S3SnapshotMessageStore.java:179-191 | on success every collected shard maps to the start collected for it |
| `SnapshotFormat.ParseSequenceNumbers` | synapse-compaction-aws-s3/src/main/java/de/otto/synapse/messagestore/aws/S3SnapshotMessageStore.java:155-192 | processSequenceNumbers ends strictly after where it started, inside the input, when it succeeds |
| `SnapshotFormat.ParseRecord` | synapse-compaction-aws-s3/src/main/java/de/otto/synapse/messagestore/aws/S3SnapshotMessageStore.java:160-186 | reading one written shard record collects what that record contributes and resets both accumulators |
| `SnapshotFormat.ParseRecords` | synapse-compaction-aws-s3/src/main/java/de/otto/synapse/messagestore/aws/S3SnapshotMessageStore.java:155-192 | over written shard records, processSequenceNumbers collects every record, in order, then builds at END_ARRAY |
| `SnapshotFormat.ScanHeader` | synapse-compaction-aws-s3/src/main/java/de/otto/synapse/messagestore/aws/S3SnapshotMessageStore.java:76-91 | the header loop stops right after the first "data" field name, at a position inside the input |
| `SnapshotFormat.ScanNext` | synapse-compaction-aws-s3/src/main/java/de/otto/synapse/messagestore/aws/S3SnapshotMessageStore.java:225-235 | the search for the next message moves forward within the input; a closed parser is at the end; a failure is the lexer's exception |
| `SnapshotFormat.HasNextStep` | synapse-compaction-aws-s3/src/main/java/de/otto/synapse/messagestore/aws/S3SnapshotMessageStore.java:222-241 | hasNext answers true exactly when a message is pending; a pending message is answered without reading; with none pending a true answer moves the parser forward; a lexer failure is reported as the exception hasNext rethrows, with no message pending |
| `SnapshotFormat.GuardedHasNext` | synapse-compaction-aws-s3/src/main/java/de/otto/synapse/messagestore/aws/S3SnapshotMessageStore.java:222-241 | the corrected hasNext: as HasNextStep, except that once a search has ended without a message it answers false without reading |
| `SnapshotFormat.HasNextIsStable` | synapse-compaction-aws-s3/src/main/java/de/otto/synapse/messagestore/aws/S3SnapshotMessageStore.java:222-241 | with the correction, asking hasNext again after an answer gives the same answer and changes nothing |
| `SnapshotFormat.GuardedPassIsSamePass` | synapse-compaction-aws-s3/src/main/java/de/otto/synapse/messagestore/aws/S3SnapshotMessageStore.java:148-153 | a full pass of the corrected iterator hands out exactly the messages and the exception of a full pass of the iterator as written |
| `SnapshotFormat.DrainData` | synapse-compaction-aws-s3/src/main/java/de/otto/synapse/messagestore/aws/S3SnapshotMessageStore.java:222-252 | over a written data array the iterator hands out one message per record, with key, empty header and payload, in document order, and then stops |
| `SnapshotFormat.SnapshotRoundTrip` | synapse-compaction-aws-s3/src/main/java/de/otto/synapse/messagestore/aws/S3SnapshotMessageStore.java:76-91 | reading a written snapshot yields the position built from its shard records (or the duplicate-shard failure) and exactly its data records, in order |
| `SnapshotFormat.RecordsDeterminePosition` | synapse-compaction-aws-s3/src/main/java/de/otto/synapse/messagestore/aws/S3SnapshotMessageStore.java:177-183 | every record naming a shard puts that shard, with StartOf of its sequence number, into the position |
| `SnapshotFormat.PositionShardsAreNamedShards` | synapse-compaction-aws-s3/src/main/java/de/otto/synapse/messagestore/aws/S3SnapshotMessageStore.java:177-183 | the shards of the position are exactly those named by records; records without a shard contribute nothing |
| `SnapshotFormat.ParseEndsRecord` | synapse-compaction-aws-s3/src/main/java/de/otto/synapse/messagestore/aws/S3SnapshotMessageStore.java:177-186 | at END_OBJECT, for any shard name and sequence number read so far, the record's entry is collected and the parse goes on with neither: nothing carries over into the next record |
| `SnapshotFormat.ScanHeaderStopsAtFirstData` | synapse-compaction-aws-s3/src/main/java/de/otto/synapse/messagestore/aws/S3SnapshotMessageStore.java:76-91 | for any token stream, the header scan stops right after the first "data" field name when no "startSequenceNumbers" field name comes before it, with the position unchanged (none read when the scan started with none) |
| `SnapshotFormat.HasNextAsWrittenResumesAfterDataArray` | synapse-compaction-aws-s3/src/main/java/de/otto/synapse/messagestore/aws/S3SnapshotMessageStore.java:225-237 | as written, hasNext answers false at the end of the data array and then true on the next call when a field follows the array; the corrected hasNext answers false both times |
| `SnapshotStore.EventLog.PublishEvent` | synapse-compaction-aws-s3/src/main/java/de/otto/synapse/messagestore/aws/S3SnapshotMessageStore.java:204-205 | an accepting publisher records the notification; a throwing one records nothing and reports the exception |
| `SnapshotStore.PositionOfChannel` | synapse-compaction-aws-s3/src/main/java/de/otto/synapse/messagestore/aws/S3SnapshotMessageStore.java:135-146 | a position other than the horizon is only ever the one read, and only for the store's own channel |
| `SnapshotStore.Entries` | synapse-compaction-aws-s3/src/main/java/de/otto/synapse/messagestore/aws/S3SnapshotMessageStore.java:149-153 | streamAll tags every message, in order, with the store's channel and nothing else |
| `SnapshotStore.MessageIterator.HasNext` | synapse-compaction-aws-s3/src/main/java/de/otto/synapse/messagestore/aws/S3SnapshotMessageStore.java:222-241 | the method's answer, exception and new iterator state are those of HasNextStep, the step as written |
| `SnapshotStore.MessageIterator.Next` | synapse-compaction-aws-s3/src/main/java/de/otto/synapse/messagestore/aws/S3SnapshotMessageStore.java:243-252 | next returns the message hasNext (as written) finds and clears it; with none, NoSuchElementException, or the exception hasNext threw; after a false answer at END_ARRAY a later next reads on like hasNext |
| `SnapshotStore.S3SnapshotMessageStore.constructor` | synapse-compaction-aws-s3/src/main/java/de/otto/synapse/messagestore/aws/S3SnapshotMessageStore.java:58-105 | the fields and the notifications published are those Load describes for the retrieval outcome |
| `SnapshotStore.S3SnapshotMessageStore.OpenFile` | synapse-compaction-aws-s3/src/main/java/de/otto/synapse/messagestore/aws/S3SnapshotMessageStore.java:69-91 | once the file is known, the fields and notifications are those LoadFile describes |
| `SnapshotStore.S3SnapshotMessageStore.ReadArchive` | synapse-compaction-aws-s3/src/main/java/de/otto/synapse/messagestore/aws/S3SnapshotMessageStore.java:72-91 | parsing the opened entry sets position, iterator or failure as ScanHeader from token 0 says |
| `SnapshotStore.S3SnapshotMessageStore.ScanTokens` | synapse-compaction-aws-s3/src/main/java/de/otto/synapse/messagestore/aws/S3SnapshotMessageStore.java:76-91 | the token loop agrees with ScanHeader: the position read, the iterator created after "data", or the failure |
| `SnapshotStore.S3SnapshotMessageStore.ProcessSequenceNumbers` | synapse-compaction-aws-s3/src/main/java/de/otto/synapse/messagestore/aws/S3SnapshotMessageStore.java:155-192 | the loop agrees with ParseSequenceNumbers: the built position and the parser left after END_ARRAY, or the failure |
| `SnapshotStore.S3SnapshotMessageStore.PublishEvent` | synapse-compaction-aws-s3/src/main/java/de/otto/synapse/messagestore/aws/S3SnapshotMessageStore.java:194-210 | with a publisher the notification for this channel is sent and its exception swallowed; without one nothing happens |
| `SnapshotStore.S3SnapshotMessageStore.Fail` | synapse-compaction-aws-s3/src/main/java/de/otto/synapse/messagestore/aws/S3SnapshotMessageStore.java:95-103 | the handler closes an opened zip stream, publishes FAILED with the message and timestamp so far, and records the exception |
| `SnapshotStore.S3SnapshotMessageStore.Close` | synapse-compaction-aws-s3/src/main/java/de/otto/synapse/messagestore/aws/S3SnapshotMessageStore.java:107-117 | close always publishes FINISHED and closes the zip stream only when one was opened |
| `SnapshotStore.S3SnapshotMessageStore.GetLatestChannelPosition` | synapse-compaction-aws-s3/src/main/java/de/otto/synapse/messagestore/aws/S3SnapshotMessageStore.java:135-146 | horizon for another channel or when nothing was read, else the position read |
| `SnapshotStore.S3SnapshotMessageStore.StreamAll` | synapse-compaction-aws-s3/src/main/java/de/otto/synapse/messagestore/aws/S3SnapshotMessageStore.java:148-153 | without an iterator the stream is empty; otherwise it is Entries of what a full pass of the iterator (Drain) hands out, ending early with its exception |
| `SnapshotStore.LoadStartsWithStarting` | synapse-compaction-aws-s3/src/main/java/de/otto/synapse/messagestore/aws/S3SnapshotMessageStore.java:65 | the first notification is always STARTING without a timestamp |
| `SnapshotStore.LoadFailsIffFailedSent` | synapse-compaction-aws-s3/src/main/java/de/otto/synapse/messagestore/aws/S3SnapshotMessageStore.java:95-103 | the constructor throws if and only if FAILED is sent; FAILED is last and carries the exception's message and the timestamp so far |
| `SnapshotStore.LoadStartedIffTimestamp` | synapse-compaction-aws-s3/src/main/java/de/otto/synapse/messagestore/aws/S3SnapshotMessageStore.java:68-71 | STARTED is sent second exactly when a file was found and its timestamp read, and carries it |
| `SnapshotStore.NoSnapshotIsEmptyStore` | synapse-compaction-aws-s3/src/main/java/de/otto/synapse/messagestore/aws/S3SnapshotMessageStore.java:92-94 | with no snapshot file only STARTING is sent, nothing is read or opened, and every channel is at the horizon |
| `SnapshotStore.LoadWrittenSnapshot` | synapse-compaction-aws-s3/src/main/java/de/otto/synapse/messagestore/aws/S3SnapshotMessageStore.java:66-91 | loading a written snapshot yields its shard records' position and streams exactly its data records; a shard named twice throws instead |
| `SnapshotStore.DefaultPositionIsOwnPosition` | synapse-compaction-aws-s3/src/main/java/de/otto/synapse/messagestore/aws/S3SnapshotMessageStore.java:135-139 | the single-channel store's getLatestChannelPosition() equals its getLatestChannelPosition of its own channel |
| `MessageStore.DefaultLatestChannelPosition` | synapse-core/src/main/java/de/otto/synapse/messagestore/MessageStore.java:67-74 | fails, naming the channel set, if and only if there is more than one channel; otherwise asks for the single channel, or for "" when there is none |
| `MessageStore.Stream` | synapse-core/src/main/java/de/otto/synapse/messagestore/MessageStore.java:95-97 | every entry returned is on the channel, every entry on the channel is returned, and the result is a subsequence of streamAll |
| `MessageStore.StreamConcat` | synapse-core/src/main/java/de/otto/synapse/messagestore/MessageStore.java:95-97 | filtering distributes over concatenation, so relative insertion order is kept |
| `MessageStore.StreamOfOneChannel` | synapse-core/src/main/java/de/otto/synapse/messagestore/MessageStore.java:95-97 | a store holding only one channel streams all of itself for that channel |
| `MessageStore.StreamsPartition` | synapse-core/src/main/java/de/otto/synapse/messagestore/MessageStore.java:95-97 | entries on the channel plus entries on other channels make up the whole store |
| `MessageStore.DefaultSize` | synapse-core/src/main/java/de/otto/synapse/messagestore/MessageStore.java:109-111 | the default size is negative, meaning that the store does not count its messages |
| `MessageStore.PositionlessEntriesIgnored` | synapse-core/src/main/java/de/otto/synapse/messagestore/MessageStore.java:56-60 | an entry without a shard position does not change the latest channel position |
| `MessageStore.NoPositionsMeansHorizon` | synapse-core/src/main/java/de/otto/synapse/messagestore/MessageStore.java:59-60 | if no entry carries a position the latest channel position is the horizon |
| `MessageStore.LastPositionWins` | synapse-core/src/main/java/de/otto/synapse/messagestore/MessageStore.java:56-57 | a shard's start in the merged position is the one of the last entry naming that shard |
| `KinesisSender.CreateEntries` | synapse-aws-kinesis/src/main/java/de/otto/synapse/endpoint/sender/kinesis/KinesisMessageSender.java:113-117 | one entry per message, the encoding of the message at the same index |
| `KinesisSender.Partition` | synapse-aws-kinesis/src/main/java/de/otto/synapse/endpoint/sender/kinesis/KinesisMessageSender.java:69 | the batches concatenate back to the entries; every batch but the last is full, none is larger than 500 or empty; no batches if and only if no entries |
| `KinesisSender.RetryRunAttemptsBounded` | synapse-aws-kinesis/src/main/java/de/otto/synapse/endpoint/sender/kinesis/KinesisMessageSender.java:80-94 | a batch is sent at least once and at most 15 times |
| `KinesisSender.RetryRunIffSettled` | synapse-aws-kinesis/src/main/java/de/otto/synapse/endpoint/sender/kinesis/KinesisMessageSender.java:80-94 | the retry loop makes n calls with a given outcome if and only if the first n-1 calls had failed records and the n-th either had none, threw, or was the 15th |
| `KinesisSender.RetryLimitIffAllAttemptsFail` | synapse-aws-kinesis/src/main/java/de/otto/synapse/endpoint/sender/kinesis/KinesisMessageSender.java:84-88 | RetryLimitExceeded is raised if and only if all 15 calls are answered with failed records |
| `KinesisSender.RetryRunCompletes` | synapse-aws-kinesis/src/main/java/de/otto/synapse/endpoint/sender/kinesis/KinesisMessageSender.java:83 | a batch completes if and only if some call within the first 15 has no failed record and every call before it had some |
| `KinesisSender.SendBatchesIffSettled` | synapse-aws-kinesis/src/main/java/de/otto/synapse/endpoint/sender/kinesis/KinesisMessageSender.java:67-73 | sending batches in order completes exactly when every batch completes; otherwise it ends with the first batch that does not, and no later batch is sent |
| `KinesisSender.EmptyInputSendsNothing` | synapse-aws-kinesis/src/main/java/de/otto/synapse/endpoint/sender/kinesis/KinesisMessageSender.java:68-72 | an empty message stream makes no putRecords call and completes |
| `KinesisSender.SingleMessageIsOneBatch` | synapse-aws-kinesis/src/main/java/de/otto/synapse/endpoint/sender/kinesis/KinesisMessageSender.java:57-61 | doSend of one message sends one batch holding its one entry |
| `KinesisSender.KinesisMessageSender.DoSend` | synapse-aws-kinesis/src/main/java/de/otto/synapse/endpoint/sender/kinesis/KinesisMessageSender.java:57-61 | doSend has the outcome and the requests of doSendBatch on the one-message stream |
| `KinesisSender.KinesisMessageSender.DoSendBatch` | synapse-aws-kinesis/src/main/java/de/otto/synapse/endpoint/sender/kinesis/KinesisMessageSender.java:64-73 | the outcome is SendBatches over the client's answers, and the client receives each tried batch as often as it was attempted, in order |
| `KinesisSender.KinesisMessageSender.ForEachBatch` | synapse-aws-kinesis/src/main/java/de/otto/synapse/endpoint/sender/kinesis/KinesisMessageSender.java:69-70 | the forEach over the batches agrees with SendBatches and sends exactly Requests of its attempts |
| `KinesisSender.KinesisMessageSender.BlockingSendBatchWithRetries` | synapse-aws-kinesis/src/main/java/de/otto/synapse/endpoint/sender/kinesis/KinesisMessageSender.java:80-94 | makes at least one call, sends the same unchanged batch n times, and the n calls settle the retry loop with the outcome returned |
| `KinesisSender.KinesisMessageSender.BlockingSendBatch` | synapse-aws-kinesis/src/main/java/de/otto/synapse/endpoint/sender/kinesis/KinesisMessageSender.java:96-104 | one putRecords call of the batch to this stream; successful if and only if no record failed; the exception of the call is passed on |
| `StateRepository.Lookup` | synapse-core/src/main/java/de/otto/synapse/state/ConcurrentMapStateRepository.java:87 | ofNullable(map.get(key)) is present exactly when the key is, and holds its value |
| `StateRepository.ConcurrentMapStateRepository.constructor` | synapse-core/src/main/java/de/otto/synapse/state/ConcurrentMapStateRepository.java:49-53 | the repository holds the given name and map and has not closed it |
| `StateRepository.ConcurrentMapStateRepository.WithConcurrentHashMap` | synapse-core/src/main/java/de/otto/synapse/state/ConcurrentMapStateRepository.java:35-37 | the one-argument constructor starts with an empty map that is not AutoCloseable |
| `StateRepository.ConcurrentMapStateRepository.Create` | synapse-core/src/main/java/de/otto/synapse/state/ConcurrentMapStateRepository.java:51-52 | fails if and only if the name or the map is null, naming the name first; otherwise a fresh repository over the given map |
| `StateRepository.ConcurrentMapStateRepository.Get` | synapse-core/src/main/java/de/otto/synapse/state/ConcurrentMapStateRepository.java:86-88 | present exactly when the key is stored, holding its value |
| `StateRepository.ConcurrentMapStateRepository.KeySet` | synapse-core/src/main/java/de/otto/synapse/state/ConcurrentMapStateRepository.java:91-93 | holds exactly the keys for which get returns a value |
| `StateRepository.ConcurrentMapStateRepository.Size` | synapse-core/src/main/java/de/otto/synapse/state/ConcurrentMapStateRepository.java:96-98 | equals the number of keys in keySet(); 0 exactly when it is empty |
| `StateRepository.ConcurrentMapStateRepository.Compute` | synapse-core/src/main/java/de/otto/synapse/state/ConcurrentMapStateRepository.java:61-63 | the function sees the key and its current value or empty; its result is returned and stored, an empty result removes the key; other keys keep their values |
| `StateRepository.ConcurrentMapStateRepository.Put` | synapse-core/src/main/java/de/otto/synapse/state/ConcurrentMapStateRepository.java:71-73 | returns the previous value or empty; afterwards get(key) is the new value; other keys keep their values |
| `StateRepository.ConcurrentMapStateRepository.Remove` | synapse-core/src/main/java/de/otto/synapse/state/ConcurrentMapStateRepository.java:76-78 | returns the previous value or empty; afterwards the key is absent; other keys keep their values |
| `StateRepository.ConcurrentMapStateRepository.Clear` | synapse-core/src/main/java/de/otto/synapse/state/ConcurrentMapStateRepository.java:81-83 | afterwards size() is 0 and keySet() is empty |
| `StateRepository.ConcurrentMapStateRepository.Close` | synapse-core/src/main/java/de/otto/synapse/state/ConcurrentMapStateRepository.java:101-106 | closes the map once if it is AutoCloseable, does nothing otherwise, and never changes the entries |
| `ConsumerProcess.FindAny` | eventsourcing-core/src/main/java/de/otto/edison/eventsourcing/consumer/EventSourceConsumerProcess.java:45-48 | nothing if and only if no source has the stream name; otherwise a source of that name with no earlier source of that name |
| `ConsumerProcess.Put` | eventsourcing-core/src/main/java/de/otto/edison/eventsourcing/consumer/EventSourceConsumerProcess.java:49 | the multimap afterwards holds exactly its old pairings and the new one, kept in insertion order, still without duplicates |
| `ConsumerProcess.MatchedIff` | eventsourcing-core/src/main/java/de/otto/edison/eventsourcing/consumer/EventSourceConsumerProcess.java:43-50 | a pairing is matched if and only if its consumer is given and its source is the first source of the consumer's stream name |
| `ConsumerProcess.MatchedExtends` | eventsourcing-core/src/main/java/de/otto/edison/eventsourcing/consumer/EventSourceConsumerProcess.java:43-50 | matching only appends, at most one pairing per consumer, and never duplicates a pairing |
| `ConsumerProcess.OneSourcePerConsumer` | eventsourcing-core/src/main/java/de/otto/edison/eventsourcing/consumer/EventSourceConsumerProcess.java:48-49 | a consumer is paired with at most one source, of its own stream name |
| `ConsumerProcess.NothingMatchedIff` | eventsourcing-core/src/main/java/de/otto/edison/eventsourcing/consumer/EventSourceConsumerProcess.java:35-40 | no pairing, and so no pool, if and only if no consumer has a source of its stream name |
| `ConsumerProcess.KeysIff` | eventsourcing-core/src/main/java/de/otto/edison/eventsourcing/consumer/EventSourceConsumerProcess.java:56 | keySet() holds each paired source exactly once, and nothing else |
| `ConsumerProcess.ConsumersOfIff` | eventsourcing-core/src/main/java/de/otto/edison/eventsourcing/consumer/EventSourceConsumerProcess.java:60 | get(source) holds exactly the consumers paired with the source |
| `ConsumerProcess.TasksPerSource` | eventsourcing-core/src/main/java/de/otto/edison/eventsourcing/consumer/EventSourceConsumerProcess.java:56-60 | one task per matched source, each over exactly that source's consumers, and no more tasks than pool threads |
| `ConsumerProcess.EventSourceConsumerProcess.constructor` | eventsourcing-core/src/main/java/de/otto/edison/eventsourcing/consumer/EventSourceConsumerProcess.java:32-41 | the multimap is the matching of the consumers; the pool is absent when it is empty, else sized by the number of pairings; the stop flag is down |
| `ConsumerProcess.EventSourceConsumerProcess.MatchEventConsumersWithEventSourcesByStreamName` | eventsourcing-core/src/main/java/de/otto/edison/eventsourcing/consumer/EventSourceConsumerProcess.java:43-50 | the loop over the consumers leaves the multimap as Matched says |
| `ConsumerProcess.EventSourceConsumerProcess.Init` | eventsourcing-core/src/main/java/de/otto/edison/eventsourcing/consumer/EventSourceConsumerProcess.java:54-67 | submits Tasks of the multimap, one per key in keySet order; nothing when there is no pool |
| `ConsumerProcess.EventSourceConsumerProcess.Shutdown` | eventsourcing-core/src/main/java/de/otto/edison/eventsourcing/consumer/EventSourceConsumerProcess.java:70-82 | raises the stop flag and shuts the pool down only if there is one |
| `EndpointInfo.Step` | synapse-core/src/main/java/de/otto/synapse/info/MessageReceiverEndpointInfoProvider.java:47-100 | fails if and only if FINISHED arrives for a channel without a startup time (checked first) or without an info; otherwise the channel gets an info with the notification's status, and every other channel keeps its info and startup time |
| `EndpointInfo.StepByStatus` | synapse-core/src/main/java/de/otto/synapse/info/MessageReceiverEndpointInfoProvider.java:50-96 | the info per status: STARTING records now as startup time; STARTED/FAILED carry no duration; RUNNING carries the duration or unknown; FINISHED keeps the previous duration and reports now minus startup |
| `EndpointInfo.StartupTimeKept` | synapse-core/src/main/java/de/otto/synapse/info/MessageReceiverEndpointInfoProvider.java:57 | notifications other than STARTING for a channel never change its startup time |
| `EndpointInfo.InfoKept` | synapse-core/src/main/java/de/otto/synapse/info/MessageReceiverEndpointInfoProvider.java:56-90 | a channel that has an info keeps one through any notifications |
| `EndpointInfo.RuntimeSinceStarting` | synapse-core/src/main/java/de/otto/synapse/info/MessageReceiverEndpointInfoProvider.java:78-87 | STARTING at t0, then any notifications without another STARTING for the channel, then FINISHED at t1: FINISHED succeeds and reports runtime t1 - t0 |
| `EndpointInfo.FinishedKeepsDurationBehind` | synapse-core/src/main/java/de/otto/synapse/info/MessageReceiverEndpointInfoProvider.java:67-87 | RUNNING then FINISHED: the finished info carries the duration the RUNNING notification reported, or unknown |
| `EndpointInfo.DeliverSnoc` | synapse-core/src/main/java/de/otto/synapse/info/MessageReceiverEndpointInfoProvider.java:46-47 | delivering one more notification applies its step to the state so far, or keeps it when the step throws |
| `EndpointInfo.MessageReceiverEndpointInfoProvider.constructor` | synapse-core/src/main/java/de/otto/synapse/info/MessageReceiverEndpointInfoProvider.java:37-44 | one registered info for each event source's channel name and no other; none without sources; no startup times |
| `EndpointInfo.MessageReceiverEndpointInfoProvider.On` | synapse-core/src/main/java/de/otto/synapse/info/MessageReceiverEndpointInfoProvider.java:47-100 | the new infos and startup times are those of Step; when Step fails the exception is reported and nothing changes |
| `RetryCondition.CauseChain` | synapse-aws-kinesis/src/main/java/de/otto/synapse/configuration/kinesis/KinesisAutoConfiguration.java:142-150 | the chain is empty exactly for null and starts with the throwable itself |
| `RetryCondition.FindExceptionMessage` | synapse-aws-kinesis/src/main/java/de/otto/synapse/configuration/kinesis/KinesisAutoConfiguration.java:142-150 | null for null; the throwable's own message when it has one |
| `RetryCondition.FindExceptionMessageIsFirstInChain` | synapse-aws-kinesis/src/main/java/de/otto/synapse/configuration/kinesis/KinesisAutoConfiguration.java:142-150 | the result is the message of the first throwable in the cause chain that has one, and null if and only if none has |
| `RetryCondition.DefaultLoggingRetryCondition.Level` | synapse-aws-kinesis/src/main/java/de/otto/synapse/configuration/kinesis/KinesisAutoConfiguration.java:133-139 | error if and only if retries >= errorCount; warn if and only if warnCount <= retries < errorCount; info if and only if below both |
| `RetryCondition.DefaultLoggingRetryCondition.LogRetryAttempt` | synapse-aws-kinesis/src/main/java/de/otto/synapse/configuration/kinesis/KinesisAutoConfiguration.java:122-140 | the "with exception" text if and only if the context has an exception, carrying findExceptionMessage of it, the operation, service and try number; logged at Level |
| `RetryCondition.DefaultLoggingRetryCondition.ShouldRetry` | synapse-aws-kinesis/src/main/java/de/otto/synapse/configuration/kinesis/KinesisAutoConfiguration.java:117-120 | the decision is exactly the default condition's; the attempt is logged as LogRetryAttempt says |
| `RetryCondition.ConfiguredLevels` | synapse-aws-kinesis/src/main/java/de/otto/synapse/configuration/kinesis/KinesisAutoConfiguration.java:66 | with thresholds 5 and 10: up to 4 retries log info, 5 to 9 warn, 10 or more error |
| `RetryCondition.LevelMonotone` | synapse-aws-kinesis/src/main/java/de/otto/synapse/configuration/kinesis/KinesisAutoConfiguration.java:133-139 | with warnCount <= errorCount more retries never log at a lower level |

## Left out

- Zip, file and S3 plumbing. `SnapshotReadService.retrieveLatestSnapshot`, `ZipInputStream` and `FileInputStream` become a retrieval outcome given to the constructor: a file or none, or the exception.
- JSON lexing. A document is the Jackson token sequence, plus how the input ends: cleanly, or with the lexer's exception.
- `SnapshotFileHelper.getSnapshotTimestamp` is not part of this model. Its result, a timestamp or the exception, is part of the retrieval outcome.
- `SnapshotMessageDecoder` is not part of this model. It is taken to keep key, header and payload as they are.
- The iterator is taken as a finished list: `Streams.stream` laziness is not modelled. `StreamAll` collects the messages of a full pass, with the exception that ends it early.
- `SnapshotStore.FailureMessage` takes a `NullPointerException` to have no message, so the FAILED text ends in "null". That holds on JDKs without helpful NullPointerException messages; the descriptive text later JDKs generate is not modelled.
- Guava's duplicate-key exception message is not modelled. It is modelled by the shard name it reports.
- The `IOException` of `zipInputStream.close()` in `close()` is not modelled, since it is rethrown unchanged. `UncheckedIOException` is not modelled either.
- Log output is not modelled. This covers every `LOG` call, the formatting of notification and log messages (kept as structured values), and `RETRY_DELAY_MS`, a `Thread.sleep` that only delays.
- `KinesisEncoder` is not part of this model. It is a function parameter from message to entry.
- The Kinesis client is an oracle: putRecords call number n is answered with a failed-record count or an exception.
- `CompletableFuture` is not modelled. `doSendBatch` returns its outcome directly: completed, `RetryLimitExceededException`, or the call's `ExecutionException` wrapped in `RuntimeException` (`SendFailed`). `InterruptedException` is not modelled.
- `MessageStore.close()` is a default method with no effect. There is no state for it to change, so it has no member.
- `ConcurrentMapStateRepository.consumeAll` is not modelled. It hands every entry to a caller-supplied callback, whose effects are outside the model.
- `getName()` of the repository and of the store is not modelled separately. The name is a field set by the constructor.
- `StateRepository.ConcurrentMapStateRepository.Size` does not model `ConcurrentHashMap.size()` saturating at `Integer.MAX_VALUE`. The size is an unbounded natural number.
- Null keys and null values of `put` are not modelled. `ConcurrentHashMap` rejects them with a `NullPointerException`, and the model's keys and values cannot be null.
- The atomicity of `compute` on a `ConcurrentMap` is not modelled. Calls are taken one at a time.
- Threads are not modelled: `newFixedThreadPool`, task execution, `shutdownNow`, the two-minute `awaitTermination`, interrupts and `AtomicBoolean` visibility.
  - The pool records its size, the tasks submitted and whether it was shut down.
  - Consequently, an exception inside a task, which is caught and logged, is not modelled.
  - The stop condition every task receives reads `stopThread`, which `Shutdown` raises.
- `findAny` on the sequential stream of event sources is modelled as the first match in list order.
- `MessageReceiverEndpointInfos` is not part of this model. It is taken to be a map from channel name to info. Under that assumption:
  - `add` registers the info the constructor's `registeredInfo` parameter gives;
  - `update` replaces the channel's entry;
  - `getChannelInfoFor` returns null for an unknown channel, so FINISHED then throws `NullPointerException`.
- `Clock` is an integer instant passed to each call of `On`. `Duration.between` is integer subtraction.
- The retry decision of the SDK's `RetryCondition.defaultRetryCondition()` is a function parameter. `RetryPolicy` wiring, the backoff strategy and the rest of `KinesisAutoConfiguration` are bean wiring, outside the core.
- `RetryCondition.FindExceptionMessage` is defined on finite cause chains only. A cyclic cause chain would make the Java method recurse until the stack overflows.

## Findings

| source | as written | input that shows it | evidently intended | confidence | as-written member | corrected member |
|---|---|---|---|---|---|---|
| synapse-compaction-aws-s3/src/main/java/de/otto/synapse/messagestore/aws/S3SnapshotMessageStore.java:225-237 | `hasNext()` reads on whenever no message is pending, even after it has reached the END_ARRAY of the data array; a second call therefore resumes reading after the array | the document `{"data": [], "extra": "v"}`: the first `hasNext()` answers false, the second answers true with a message keyed "extra" | `hasNext()` is stable: once it has answered false it keeps answering false without reading (the iterator contract) | not executed | `SnapshotFormat.HasNextAsWrittenResumesAfterDataArray` | `SnapshotFormat.HasNextIsStable` |
