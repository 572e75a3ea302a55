/**
 * The S3 snapshot message store: a read-only message store over the latest compacted
 * snapshot of one channel. The constructor retrieves the snapshot, reports its progress
 * as notifications, reads the start position from the document header and leaves a
 * message iterator positioned on the "data" array; streamAll() hands out the messages.
 */
module SnapshotStore {
  import opened Wrappers
  import opened Channel
  import opened Json
  import opened SnapshotFormat
  import MessageStore

  // ---------------------------------------------------------------------------
  // Notifications

  datatype SnapshotReaderStatus = Starting | Started | Failed | Finished

  /** A SnapshotReaderNotification; the timestamp is absent until the snapshot file is known. */
  datatype Notification = Notification(channelName: string, status: SnapshotReaderStatus,
                                       message: string, snapshotTimestamp: Option<int>)

  const RetrieveMessage := "Retrieve snapshot file from S3."
  const FailedPrefix := "Failed to load snapshot from S3: "
  const FinishedMessage := "Finished to load snapshot from S3."

  /** The notifications an event log keeps of `sent`: all of them, or none when its publisher throws. */
  function Delivered(accepting: bool, sent: seq<Notification>): seq<Notification> {
    if accepting then sent else []
  }

  /** An application event publisher: the notifications it has accepted, in order; one that is not accepting throws on every event. */
  class EventLog {
    const accepting: bool
    var events: seq<Notification>

    constructor (accepting: bool)
      ensures this.accepting == accepting && events == []
    {
      this.accepting := accepting;
      events := [];
    }

    method PublishEvent(n: Notification) returns (thrown: bool)
      modifies this
      ensures thrown == !accepting
      ensures events == old(events) + Delivered(accepting, [n])
    {
      thrown := !accepting;
      if accepting {
        events := events + [n];
      }
    }
  }

  // ---------------------------------------------------------------------------
  // What the snapshot read service and the file system hand to the constructor

  /** What opening the snapshot file gives: the exception of the file stream, or the zip archive with its first entry (or the exception reading it). */
  datatype Content = CannotOpen(message: string) | Archive(entry: Result<TokenStream, string>)

  /** The latest snapshot file: the timestamp its name encodes (or the exception parsing it) and its content. */
  datatype SnapshotFile = SnapshotFile(timestamp: Result<int, string>, content: Content)

  /** retrieveLatestSnapshot(channelName): the file if there is one, or the exception it throws. */
  type Retrieval = Result<Option<SnapshotFile>, string>

  /** The store's zip input stream: never opened (null), open, or closed. */
  datatype ZipStream = NoStream | Open | Closed

  /** e.getMessage() of each way reading can fail; a NullPointerException is taken to carry no message, which the concatenation shows as "null". */
  function FailureMessage(f: ReadFailure): string {
    match f
    case IoFailure(m) => m
    case NullToken => "null"
    case DuplicateShard(s) => "Multiple entries with same key: " + s
  }

  /** The FAILED notification of the constructor's exception handler. */
  function FailedNotification(channelName: string, f: ReadFailure, timestamp: Option<int>): Notification {
    Notification(channelName, Failed, FailedPrefix + FailureMessage(f), timestamp)
  }

  /**
   * What constructing a store does: the notifications it sends, the exception it throws
   * (if any), the snapshot timestamp, the state of the zip stream, the position read and
   * where the message iterator starts (the document and the token index after "data").
   */
  datatype Loaded = Loaded(events: seq<Notification>, failure: Option<ReadFailure>,
                           snapshotTimestamp: Option<int>, zip: ZipStream,
                           position: Option<ChannelPosition>, data: Option<(TokenStream, nat)>)

  function Load(channelName: string, retrieval: Retrieval): (l: Loaded) {
    var starting := Notification(channelName, Starting, RetrieveMessage, None);
    match retrieval
    case Failure(m) =>
      Loaded([starting, FailedNotification(channelName, IoFailure(m), None)], Some(IoFailure(m)), None, NoStream, None, None)
    case Success(None) =>
      Loaded([starting], None, None, NoStream, None, None)
    case Success(Some(file)) =>
      var l := LoadFile(channelName, file);
      l.(events := [starting] + l.events)
  }

  /** Loading once the snapshot file is known: the notifications after STARTING and the resulting state. */
  function LoadFile(channelName: string, file: SnapshotFile): (l: Loaded) {
    match file.timestamp
    case Failure(m) =>
      Loaded([FailedNotification(channelName, IoFailure(m), None)], Some(IoFailure(m)), None, NoStream, None, None)
    case Success(ts) =>
      var started := Notification(channelName, Started, RetrieveMessage, Some(ts));
      match file.content
      case CannotOpen(m) =>
        Loaded([started, FailedNotification(channelName, IoFailure(m), Some(ts))], Some(IoFailure(m)), Some(ts), NoStream, None, None)
      case Archive(Failure(m)) =>
        Loaded([started, FailedNotification(channelName, IoFailure(m), Some(ts))], Some(IoFailure(m)), Some(ts), Closed, None, None)
      case Archive(Success(input)) =>
        match ScanHeader(input, 0, None)
        case HeaderFailed(f) =>
          Loaded([started, FailedNotification(channelName, f, Some(ts))], Some(f), Some(ts), Closed, None, None)
        case HeaderRead(position, dataAt) =>
          Loaded([started], None, Some(ts), Open, position,
                 if dataAt.Some? then Some((input, dataAt.value)) else None)
  }

  /** getLatestChannelPosition(c) of a store over `own` that read `position`: the horizon for any other channel or when nothing was read. */
  function PositionOfChannel(own: string, position: Option<ChannelPosition>, c: string): (r: ChannelPosition)
    ensures r != FromHorizon() ==> c == own && position == Some(r)
  {
    if c == own && position.Some? then position.value else FromHorizon()
  }

  /** The entries streamAll() makes of the iterator's messages: each tagged with the store's channel. */
  function Entries(channelName: string, messages: seq<TextMessage>): (r: seq<MessageStoreEntry>)
    ensures |r| == |messages|
    ensures forall i :: 0 <= i < |r| ==> r[i] == MessageStoreEntry(channelName, messages[i])
  {
    if messages == [] then [] else [MessageStoreEntry(channelName, messages[0])] + Entries(channelName, messages[1..])
  }

  // ---------------------------------------------------------------------------
  // The message iterator

  /** Why next() gives no message: there is none left, or reading the next one threw. */
  datatype IteratorError = NoSuchElement | ReadFailed(message: string)

  /** The iterator over the "data" object, sharing the constructor's parser. */
  class MessageIterator {
    const parser: JsonParser
    var nextMessage: Option<TextMessage>

    ghost predicate Valid()
      reads this, parser
    {
      parser.Valid()
    }

    ghost function State(): IterState
      reads this, parser
    {
      IterState(parser.pos, parser.closed, nextMessage)
    }

    constructor (parser: JsonParser)
      ensures this.parser == parser && nextMessage.None?
    {
      this.parser := parser;
      nextMessage := None;
    }

    /** hasNext(): whether a message is available, reading up to the next field name when none is pending; `failure` is the exception it throws. */
    method HasNext() returns (answer: bool, failure: Option<string>)
      requires Valid()
      modifies this, parser
      ensures Valid()
      ensures var h := HasNextStep(parser.input, old(State()));
              answer == h.answer && failure == h.failure && State() == h.state
    {
      if nextMessage.None? {
        ghost var expected := ScanNext(parser.input, parser.pos, parser.closed);
        while !parser.closed
          invariant parser.Valid() && nextMessage.None?
          invariant ScanNext(parser.input, parser.pos, parser.closed) == expected
          decreases |parser.input.tokens| - parser.pos, if parser.closed then 0 else 1
        {
          var t, f := parser.NextToken();
          if f.Some? {
            return false, f;
          }
          if t == Some(EndArray) {
            return false, None;
          }
          if t.Some? && t.value.FieldName? {
            var key := t.value.name;
            var _, valueFailure := parser.NextToken();
            if valueFailure.Some? {
              return false, valueFailure;
            }
            nextMessage := Some(SnapshotMessage(key, TextValue(parser.current)));
            return true, None;
          }
        }
      }
      answer, failure := nextMessage.Some?, None;
    }

    /** next(): the message hasNext() finds, which is then no longer pending. */
    method Next() returns (r: Result<TextMessage, IteratorError>)
      requires Valid()
      modifies this, parser
      ensures Valid()
      ensures var h := HasNextStep(parser.input, old(State()));
              && (h.failure.Some? ==> r == Failure(ReadFailed(h.failure.value)) && State() == h.state)
              && (h.failure.None? && h.answer ==> r == Success(h.state.pending.value) && State() == h.state.(pending := None))
              && (h.failure.None? && !h.answer ==> r == Failure(NoSuchElement) && State() == h.state)
    {
      var more, failure := HasNext();
      if failure.Some? {
        return Failure(ReadFailed(failure.value));
      }
      if more {
        r := Success(nextMessage.value);
        nextMessage := None;
      } else {
        r := Failure(NoSuchElement);
      }
    }
  }

  // ---------------------------------------------------------------------------
  // The store

  class S3SnapshotMessageStore {
    const name: string
    const channelName: string
    const eventPublisher: EventLog?
    var messageIterator: MessageIterator?
    var channelPosition: Option<ChannelPosition>
    var zipInputStream: ZipStream
    var snapshotTimestamp: Option<int>
    /** The exception the constructor throws, if it does; the other members are used only on a store without one. */
    var failure: Option<ReadFailure>

    ghost predicate Valid()
      reads this, messageIterator, if messageIterator != null then {messageIterator.parser} else {}
    {
      messageIterator != null ==> messageIterator.Valid()
    }

    /** The fields hold what loading `l` describes (position and iterator only when nothing was thrown). */
    ghost predicate Reflects(l: Loaded)
      reads this, messageIterator, if messageIterator != null then {messageIterator.parser} else {}
    {
      && failure == l.failure && snapshotTimestamp == l.snapshotTimestamp && zipInputStream == l.zip
      && (failure.None? ==> channelPosition == l.position && (messageIterator == null <==> l.data.None?))
      && (failure.None? && messageIterator != null ==>
            && messageIterator.parser.input == l.data.value.0
            && messageIterator.State() == IterState(l.data.value.1, false, None))
    }

    constructor (name: string, channelName: string, retrieval: Retrieval, eventPublisher: EventLog?)
      modifies eventPublisher
      ensures this.name == name && this.channelName == channelName && this.eventPublisher == eventPublisher
      ensures Valid() && Reflects(Load(channelName, retrieval))
      ensures messageIterator != null ==> fresh(messageIterator) && fresh(messageIterator.parser)
      ensures eventPublisher != null ==>
                eventPublisher.events == old(eventPublisher.events) + Delivered(eventPublisher.accepting, Load(channelName, retrieval).events)
    {
      this.name := name;
      this.channelName := channelName;
      this.eventPublisher := eventPublisher;
      messageIterator := null;
      channelPosition := None;
      zipInputStream := NoStream;
      snapshotTimestamp := None;
      failure := None;
      new;
      PublishEvent(Starting, RetrieveMessage, None);
      if retrieval.Failure? {
        Fail(IoFailure(retrieval.error));
      } else if retrieval.value.Some? {
        OpenFile(retrieval.value.value);
        assert Delivered(true, Load(channelName, retrieval).events)
               == [Notification(channelName, Starting, RetrieveMessage, None)] + LoadFile(channelName, retrieval.value.value).events;
      }
      // else no snapshot: an empty store at the horizon
    }

    /** The constructor once the snapshot file is known: reads its timestamp, opens it and parses its entry. */
    method OpenFile(file: SnapshotFile)
      requires messageIterator == null && failure.None? && zipInputStream == NoStream && snapshotTimestamp.None?
      modifies this, eventPublisher
      ensures Valid() && Reflects(LoadFile(channelName, file))
      ensures messageIterator != null ==> fresh(messageIterator) && fresh(messageIterator.parser)
      ensures eventPublisher != null ==>
                eventPublisher.events == old(eventPublisher.events) + Delivered(eventPublisher.accepting, LoadFile(channelName, file).events)
    {
      if file.timestamp.Failure? {
        Fail(IoFailure(file.timestamp.error));
        return;
      }
      snapshotTimestamp := Some(file.timestamp.value);
      PublishEvent(Started, RetrieveMessage, snapshotTimestamp);
      if file.content.CannotOpen? {
        Fail(IoFailure(file.content.message));
        return;
      }
      zipInputStream := Open;
      if file.content.entry.Failure? {
        Fail(IoFailure(file.content.entry.error));
        return;
      }
      ReadArchive(file.content.entry.value);
    }

    /** The part of the constructor that parses the opened archive entry. */
    method ReadArchive(input: TokenStream)
      requires messageIterator == null && failure.None? && zipInputStream == Open
      modifies this, eventPublisher
      ensures Valid()
      ensures snapshotTimestamp == old(snapshotTimestamp)
      ensures messageIterator != null ==> fresh(messageIterator) && fresh(messageIterator.parser)
      ensures match ScanHeader(input, 0, None)
              case HeaderFailed(f) =>
                && failure == Some(f) && zipInputStream == Closed
                && (eventPublisher != null ==>
                      eventPublisher.events == old(eventPublisher.events)
                                               + Delivered(eventPublisher.accepting, [FailedNotification(channelName, f, snapshotTimestamp)]))
              case HeaderRead(position, dataAt) =>
                && failure.None? && zipInputStream == Open && channelPosition == position
                && (messageIterator == null <==> dataAt.None?)
                && (messageIterator != null ==>
                      && messageIterator.parser.input == input
                      && messageIterator.State() == IterState(dataAt.value, false, None))
                && (eventPublisher != null ==> eventPublisher.events == old(eventPublisher.events))
    {
      var parser := new JsonParser(input);
      channelPosition := None;
      var error := ScanTokens(parser);
      if error.Some? {
        Fail(error.value);
      }
    }

    /** The constructor's token loop: reads the position at "startSequenceNumbers" and creates the iterator at "data". */
    method ScanTokens(parser: JsonParser) returns (error: Option<ReadFailure>)
      requires parser.Valid() && messageIterator == null
      modifies this, parser
      ensures parser.Valid()
      ensures snapshotTimestamp == old(snapshotTimestamp) && zipInputStream == old(zipInputStream) && failure == old(failure)
      ensures messageIterator != null ==> fresh(messageIterator) && messageIterator.parser == parser
      ensures match ScanHeader(parser.input, old(parser.pos), old(channelPosition))
              case HeaderFailed(f) => error == Some(f)
              case HeaderRead(position, dataAt) =>
                && error.None? && channelPosition == position
                && (messageIterator == null <==> dataAt.None?)
                && (messageIterator != null ==> messageIterator.State() == IterState(dataAt.value, false, None))
    {
      ghost var expected := ScanHeader(parser.input, parser.pos, channelPosition);
      while !parser.closed && messageIterator == null
        invariant parser.Valid()
        invariant snapshotTimestamp == old(snapshotTimestamp) && zipInputStream == old(zipInputStream) && failure == old(failure)
        invariant messageIterator == null ==> ScanHeader(parser.input, parser.pos, channelPosition) == expected
        invariant messageIterator != null ==>
                    && fresh(messageIterator) && messageIterator.parser == parser && !parser.closed
                    && messageIterator.nextMessage.None?
                    && expected == HeaderRead(channelPosition, Some(parser.pos))
        decreases |parser.input.tokens| - parser.pos, if parser.closed then 0 else 1
      {
        var t, f := parser.NextToken();
        if f.Some? {
          return Some(IoFailure(f.value));
        }
        if t.Some? && t.value.FieldName? {
          var fieldName := ValueAsString(parser.current);
          if fieldName == Some("startSequenceNumbers") {
            var r := ProcessSequenceNumbers(parser);
            if r.Failure? {
              return Some(r.error);
            }
            channelPosition := Some(r.value);
          } else if fieldName == Some("data") {
            messageIterator := new MessageIterator(parser);
          }
        }
      }
      error := None;
    }

    /** processSequenceNumbers: reads shard records up to END_ARRAY and builds the position, refusing a shard named twice. */
    static method ProcessSequenceNumbers(parser: JsonParser) returns (r: Result<ChannelPosition, ReadFailure>)
      requires parser.Valid()
      modifies parser
      ensures parser.Valid()
      ensures match ParseSequenceNumbers(parser.input, old(parser.pos), None, None, [])
              case Parsed(p, next) => r == Success(p) && parser.pos == next && !parser.closed
              case ParseFailed(f) => r == Failure(f)
    {
      var shardName: Option<string> := None;
      var sequenceNumber: Option<string> := None;
      // the entries put into the ImmutableMap.Builder, in order
      var shardPositions: seq<(string, StartFrom)> := [];
      ghost var expected := ParseSequenceNumbers(parser.input, parser.pos, None, None, []);
      while true
        invariant parser.Valid()
        invariant ParseSequenceNumbers(parser.input, parser.pos, shardName, sequenceNumber, shardPositions) == expected
        decreases |parser.input.tokens| - parser.pos, if parser.closed then 0 else 1
      {
        var t, f := parser.NextToken();
        if f.Some? {
          return Failure(IoFailure(f.value));
        }
        if t == Some(EndArray) {
          break;
        }
        match t
        case None =>
          // switch over the null token of an ended input
          return Failure(NullToken);
        case Some(FieldName(n)) =>
          if n == "shard" {
            var _, valueFailure := parser.NextToken();
            if valueFailure.Some? {
              return Failure(IoFailure(valueFailure.value));
            }
            shardName := ValueAsString(parser.current);
          } else if n == "sequenceNumber" {
            var _, valueFailure := parser.NextToken();
            if valueFailure.Some? {
              return Failure(IoFailure(valueFailure.value));
            }
            sequenceNumber := ValueAsString(parser.current);
          }
        case Some(EndObject) =>
          if shardName.Some? {
            shardPositions := shardPositions + [(shardName.value, StartOf(sequenceNumber))];
          }
          shardName := None;
          sequenceNumber := None;
        case Some(_) =>
      }
      r := Build(shardPositions);
    }

    /** publishEvent: sends a notification when there is a publisher; an exception of the publisher is logged and swallowed. */
    method PublishEvent(status: SnapshotReaderStatus, message: string, timestamp: Option<int>)
      modifies eventPublisher
      ensures eventPublisher != null ==>
                eventPublisher.events == old(eventPublisher.events)
                                         + Delivered(eventPublisher.accepting, [Notification(channelName, status, message, timestamp)])
    {
      if eventPublisher != null {
        var _ := eventPublisher.PublishEvent(Notification(channelName, status, message, timestamp));
      }
    }

    /** The constructor's exception handler: closes the zip stream if it was opened and sends FAILED. */
    method Fail(f: ReadFailure)
      modifies this, eventPublisher
      ensures failure == Some(f)
      ensures zipInputStream == if old(zipInputStream) == NoStream then NoStream else Closed
      ensures snapshotTimestamp == old(snapshotTimestamp) && channelPosition == old(channelPosition)
      ensures messageIterator == old(messageIterator)
      ensures eventPublisher != null ==>
                eventPublisher.events == old(eventPublisher.events)
                                         + Delivered(eventPublisher.accepting, [FailedNotification(channelName, f, snapshotTimestamp)])
    {
      if zipInputStream != NoStream {
        zipInputStream := Closed;
      }
      PublishEvent(Failed, FailedPrefix + FailureMessage(f), snapshotTimestamp);
      failure := Some(f);
    }

    /** close(): sends FINISHED and closes the zip stream when there is one. */
    method Close()
      modifies this, eventPublisher
      ensures zipInputStream == if old(zipInputStream) == NoStream then NoStream else Closed
      ensures snapshotTimestamp == old(snapshotTimestamp) && channelPosition == old(channelPosition)
      ensures messageIterator == old(messageIterator) && failure == old(failure)
      ensures eventPublisher != null ==>
                eventPublisher.events == old(eventPublisher.events)
                                         + Delivered(eventPublisher.accepting, [Notification(channelName, Finished, FinishedMessage, snapshotTimestamp)])
    {
      PublishEvent(Finished, FinishedMessage, snapshotTimestamp);
      if zipInputStream != NoStream {
        zipInputStream := Closed;
      }
    }

    function ChannelNames(): set<string>
      reads this
    {
      {channelName}
    }

    /** getLatestChannelPosition(c): the position read for the store's own channel, the horizon otherwise. */
    function GetLatestChannelPosition(c: string): (r: ChannelPosition)
      reads this
      ensures c != channelName ==> r == FromHorizon()
      ensures c == channelName && channelPosition.Some? ==> r == channelPosition.value
      ensures channelPosition.None? ==> r == FromHorizon()
    {
      PositionOfChannel(channelName, channelPosition, c)
    }

    /** streamAll(): every message the iterator hands out, tagged with the channel; `error` is the exception that ends the stream early. */
    method StreamAll() returns (entries: seq<MessageStoreEntry>, error: Option<string>)
      requires Valid()
      modifies if messageIterator != null then {messageIterator, messageIterator.parser} else {}
      ensures Valid()
      ensures messageIterator == null ==> entries == [] && error.None?
      ensures messageIterator != null ==>
                var d := Drain(messageIterator.parser.input, old(messageIterator.State()));
                entries == Entries(channelName, d.0) && error == d.1
    {
      entries, error := [], None;
      if messageIterator == null {
        return;
      }
      var it := messageIterator;
      ghost var input := it.parser.input;
      ghost var all := Drain(input, it.State());
      var messages: seq<TextMessage> := [];
      assert all.0 == messages + all.0;
      while true
        invariant it.Valid()
        invariant all.0 == messages + Drain(input, it.State()).0 && all.1 == Drain(input, it.State()).1
        decreases Remaining(input, it.State())
      {
        ghost var before := it.State();
        var more, f := it.HasNext();
        if f.Some? {
          error := f;
          break;
        }
        if !more {
          break;
        }
        var r := it.Next();
        DrainStep(input, before);
        assert all.0 == (messages + [r.value]) + Drain(input, it.State()).0;
        messages := messages + [r.value];
      }
      entries := Entries(channelName, messages);
    }
  }

  /** One message of a full pass: the message found, then the pass from the state after it. */
  lemma DrainStep(input: TokenStream, st: IterState)
    requires ValidState(input, st) && HasNextStep(input, st).answer
    ensures var s := HasNextStep(input, st).state;
            Drain(input, st) == ([s.pending.value] + Drain(input, s.(pending := None)).0, Drain(input, s.(pending := None)).1)
  {
  }

  // ---------------------------------------------------------------------------
  // Properties of loading

  /** Every load starts with STARTING, without a timestamp. */
  lemma LoadStartsWithStarting(channelName: string, retrieval: Retrieval)
    ensures var l := Load(channelName, retrieval);
            |l.events| >= 1 && l.events[0] == Notification(channelName, Starting, RetrieveMessage, None)
  {
  }

  /**
   * The constructor throws exactly when it sends FAILED; FAILED is then the last
   * notification and carries the exception's message and the timestamp known so far.
   */
  lemma LoadFailsIffFailedSent(channelName: string, retrieval: Retrieval)
    ensures var l := Load(channelName, retrieval);
            && (l.failure.Some? <==> exists i :: 0 <= i < |l.events| && l.events[i].status == Failed)
            && (l.failure.Some? ==> l.events[|l.events| - 1] == FailedNotification(channelName, l.failure.value, l.snapshotTimestamp))
            && (l.failure.Some? ==> l.position.None? && l.data.None? && l.zip != Open)
  {
    var l := Load(channelName, retrieval);
    if l.failure.None? {
      assert forall i :: 0 <= i < |l.events| ==> l.events[i].status != Failed;
    } else {
      assert l.events[|l.events| - 1].status == Failed;
    }
  }

  /** STARTED is sent exactly when a snapshot file was found and its timestamp read, and it carries that timestamp. */
  lemma LoadStartedIffTimestamp(channelName: string, retrieval: Retrieval)
    ensures var l := Load(channelName, retrieval);
            && (l.snapshotTimestamp.Some? <==> |l.events| >= 2 && l.events[1].status == Started)
            && (l.snapshotTimestamp.Some? ==> l.events[1] == Notification(channelName, Started, RetrieveMessage, l.snapshotTimestamp))
            && (l.snapshotTimestamp.Some? <==>
                  retrieval.Success? && retrieval.value.Some? && retrieval.value.value.timestamp.Success?)
  {
  }

  /** Without a snapshot file the store is empty: only STARTING is sent, nothing is read, and every channel is at the horizon. */
  lemma NoSnapshotIsEmptyStore(channelName: string, c: string)
    ensures var l := Load(channelName, Success(None));
            && l.events == [Notification(channelName, Starting, RetrieveMessage, None)]
            && l.failure.None? && l.snapshotTimestamp.None? && l.zip == NoStream && l.data.None?
            && PositionOfChannel(channelName, l.position, c) == FromHorizon()
  {
  }

  /**
   * Loading a written snapshot: the store reads the position built from the shard
   * records and streams exactly the data records, in order; a shard named twice makes
   * the constructor throw Guava's duplicate-key exception instead.
   */
  lemma LoadWrittenSnapshot(channelName: string, ts: int, rs: seq<ShardRecord>, ds: seq<DataRecord>, lexEnd: Option<string>)
    ensures var input := TokenStream(SnapshotDocument(rs, ds), lexEnd);
            var l := Load(channelName, Success(Some(SnapshotFile(Success(ts), Archive(Success(input))))));
            var started := [Notification(channelName, Starting, RetrieveMessage, None),
                            Notification(channelName, Started, RetrieveMessage, Some(ts))];
            match Build(Collected(rs))
            case Success(p) =>
              && l.failure.None? && l.events == started && l.position == Some(p)
              && l.data == Some((input, DataStart(rs)))
              && Drain(input, IterState(DataStart(rs), false, None)) == (DataMessages(ds), None)
            case Failure(f) =>
              && l.failure == Some(f) && f.DuplicateShard?
              && l.events == started + [FailedNotification(channelName, f, Some(ts))]
  {
    SnapshotRoundTrip(rs, ds, lexEnd);
    if Build(Collected(rs)).Failure? {
      BuildFailureNamesRepeatedShard(Collected(rs));
    }
  }

  /** A single-channel store agrees with the MessageStore default: getLatestChannelPosition() asks it for its own channel. */
  lemma DefaultPositionIsOwnPosition(own: string, position: Option<ChannelPosition>)
    ensures MessageStore.DefaultLatestChannelPosition({own}, c => PositionOfChannel(own, position, c))
            == Success(if position.Some? then position.value else FromHorizon())
  {
  }
}
