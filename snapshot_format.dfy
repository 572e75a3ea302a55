/**
 * What the S3 snapshot reader computes from a snapshot document, stated as functions
 * over the document's JSON tokens: the header scan of the constructor, the
 * processSequenceNumbers loop, and the message iterator. The classes in module
 * SnapshotStore run the same loops on a JsonParser and are proved to agree with these.
 *
 * A snapshot document looks like
 *   { "startSequenceNumbers": [ {"shard": s, "sequenceNumber": n}, ... ],
 *     "data": [ {key: payload}, ... ] }
 */
module SnapshotFormat {
  import opened Wrappers
  import opened Channel
  import opened Json

  /** Why reading a snapshot fails. */
  datatype ReadFailure =
    | IoFailure(message: string)        // an exception from retrieval, opening or lexing, with its message
    | NullToken                         // processSequenceNumbers switching over the null token at the end of input
    | DuplicateShard(shardName: string) // ImmutableMap.Builder.build() given two records of one shard

  /** The start of a shard named in a record: the horizon unless the sequence number is present, non-empty and not "0". */
  function StartOf(sequenceNumber: Option<string>): (s: StartFrom)
    ensures s == Horizon <==> sequenceNumber == None || sequenceNumber == Some("") || sequenceNumber == Some("0")
    ensures s.At? ==> sequenceNumber == Some(s.sequenceNumber)
  {
    if sequenceNumber.Some? && sequenceNumber.value != "" && sequenceNumber.value != "0" then At(sequenceNumber.value)
    else Horizon
  }

  predicate DistinctShards(entries: seq<(string, StartFrom)>) {
    forall i, j :: 0 <= i < j < |entries| ==> entries[i].0 != entries[j].0
  }

  function ShardsOf(entries: seq<(string, StartFrom)>): set<string> {
    set i | 0 <= i < |entries| :: entries[i].0
  }

  /**
   * ImmutableMap.Builder.build() followed by channelPosition(values): the collected
   * (shard, start) pairs as a channel position; a repeated shard name makes build() throw.
   */
  function Build(entries: seq<(string, StartFrom)>): (r: Result<ChannelPosition, ReadFailure>)
    ensures r.Success? ==> r.value.Keys == ShardsOf(entries)
    decreases |entries|
  {
    if entries == [] then Success(map[])
    else
      var prefix, last := entries[..|entries| - 1], entries[|entries| - 1];
      assert ShardsOf(entries) == ShardsOf(prefix) + {last.0};
      match Build(prefix)
      case Failure(f) => Failure(f)
      case Success(m) => if last.0 in m then Failure(DuplicateShard(last.0)) else Success(m[last.0 := last.1])
  }

  /** build() fails only on a shard name that repeats, and names that shard. */
  lemma {:induction false} BuildFailureNamesRepeatedShard(entries: seq<(string, StartFrom)>)
    requires Build(entries).Failure?
    ensures Build(entries).error.DuplicateShard?
    ensures exists i, j :: 0 <= i < j < |entries| && entries[i].0 == Build(entries).error.shardName
                                                  && entries[j].0 == Build(entries).error.shardName
    decreases |entries|
  {
    var prefix, last := entries[..|entries| - 1], entries[|entries| - 1];
    if Build(prefix).Failure? {
      BuildFailureNamesRepeatedShard(prefix);
      var i, j :| 0 <= i < j < |prefix| && prefix[i].0 == Build(prefix).error.shardName
                                       && prefix[j].0 == Build(prefix).error.shardName;
      assert entries[i] == prefix[i] && entries[j] == prefix[j];
    } else {
      assert last.0 in ShardsOf(prefix);
      var i :| 0 <= i < |prefix| && prefix[i].0 == last.0;
      assert entries[i] == prefix[i];
    }
  }

  /** build() succeeds exactly when no shard name repeats. */
  lemma {:induction false} BuildSucceedsIffDistinct(entries: seq<(string, StartFrom)>)
    ensures Build(entries).Success? <==> DistinctShards(entries)
    decreases |entries|
  {
    if entries != [] {
      var prefix, last := entries[..|entries| - 1], entries[|entries| - 1];
      BuildSucceedsIffDistinct(prefix);
      assert entries == prefix + [last];
      DistinctShardsSnoc(prefix, last);
    }
  }

  lemma DistinctShardsSnoc(prefix: seq<(string, StartFrom)>, last: (string, StartFrom))
    ensures DistinctShards(prefix + [last]) <==> DistinctShards(prefix) && last.0 !in ShardsOf(prefix)
  {
    var entries := prefix + [last];
    if DistinctShards(entries) {
      forall i, j | 0 <= i < j < |prefix| ensures prefix[i].0 != prefix[j].0 {
        assert prefix[i] == entries[i] && prefix[j] == entries[j];
      }
      forall i | 0 <= i < |prefix| ensures prefix[i].0 != last.0 {
        assert entries[i] == prefix[i] && entries[|prefix|] == last;
      }
    }
    if DistinctShards(prefix) && last.0 !in ShardsOf(prefix) {
      forall i, j | 0 <= i < j < |entries| ensures entries[i].0 != entries[j].0 {
        assert entries[i] == prefix[i];
        if j < |prefix| {
          assert entries[j] == prefix[j];
        } else {
          assert prefix[i].0 in ShardsOf(prefix);
        }
      }
    }
  }

  /** On success every collected shard maps to the start collected for it. */
  lemma {:induction false} BuildMapsEachShard(entries: seq<(string, StartFrom)>)
    requires Build(entries).Success?
    ensures forall i :: 0 <= i < |entries| ==> Build(entries).value[entries[i].0] == entries[i].1
    decreases |entries|
  {
    if entries != [] {
      var prefix, last := entries[..|entries| - 1], entries[|entries| - 1];
      BuildMapsEachShard(prefix);
      var m := Build(prefix).value;
      forall i | 0 <= i < |entries| ensures Build(entries).value[entries[i].0] == entries[i].1 {
        if i < |entries| - 1 {
          assert entries[i] == prefix[i];
          assert prefix[i].0 in ShardsOf(prefix);
        }
      }
    }
  }

  /** The outcome of processSequenceNumbers: the position and the index just after the closing token, or the failure. */
  datatype ParsedPosition = Parsed(position: ChannelPosition, pos: nat) | ParseFailed(failure: ReadFailure)

  /**
   * processSequenceNumbers, continued from token index `pos` with the current shard name,
   * sequence number and collected pairs. It reads up to the next END_ARRAY; at each
   * END_OBJECT the record read so far is collected (when it named a shard) and both
   * accumulators are reset.
   */
  function ParseSequenceNumbers(input: TokenStream, pos: nat, shardName: Option<string>,
                                sequenceNumber: Option<string>, collected: seq<(string, StartFrom)>): (r: ParsedPosition)
    requires pos <= |input.tokens|
    ensures r.Parsed? ==> pos < r.pos <= |input.tokens|
    decreases |input.tokens| - pos
  {
    match Next(input, pos)
    case LexFailure(m) => ParseFailed(IoFailure(m))
    case EndOfInput => ParseFailed(NullToken)
    case Token(EndArray) => Finish(collected, pos + 1)
    case Token(FieldName(name)) =>
      if name == "shard" || name == "sequenceNumber" then
        match Next(input, pos + 1)
        case LexFailure(m) => ParseFailed(IoFailure(m))
        case EndOfInput => ParseFailed(NullToken)
        case Token(v) =>
          if name == "shard" then ParseSequenceNumbers(input, pos + 2, ValueAsString(Some(v)), sequenceNumber, collected)
          else ParseSequenceNumbers(input, pos + 2, shardName, ValueAsString(Some(v)), collected)
      else ParseSequenceNumbers(input, pos + 1, shardName, sequenceNumber, collected)
    case Token(EndObject) =>
      ParseSequenceNumbers(input, pos + 1, None, None, Collect(collected, shardName, sequenceNumber))
    case Token(_) => ParseSequenceNumbers(input, pos + 1, shardName, sequenceNumber, collected)
  }

  /** The END_ARRAY step: build the position, continuing at `next`. */
  function Finish(collected: seq<(string, StartFrom)>, next: nat): (r: ParsedPosition)
    ensures r.Parsed? ==> r.pos == next
  {
    match Build(collected)
    case Success(p) => Parsed(p, next)
    case Failure(f) => ParseFailed(f)
  }

  /** The END_OBJECT step: a record that named a shard adds that shard's start. */
  function Collect(collected: seq<(string, StartFrom)>, shardName: Option<string>, sequenceNumber: Option<string>): seq<(string, StartFrom)> {
    if shardName.Some? then collected + [(shardName.value, StartOf(sequenceNumber))] else collected
  }

  /** The outcome of the constructor's header loop: the position read (if any) and where the data array begins (if found). */
  datatype HeaderScan = HeaderRead(position: Option<ChannelPosition>, dataAt: Option<nat>) | HeaderFailed(failure: ReadFailure)

  /**
   * The constructor's token loop from index `pos`: every "startSequenceNumbers" field
   * name (re)reads the position; the first "data" field name stops the scan and the
   * message iterator takes over right after it; the end of input stops it too.
   */
  function ScanHeader(input: TokenStream, pos: nat, position: Option<ChannelPosition>): (r: HeaderScan)
    requires pos <= |input.tokens|
    ensures r.HeaderRead? && r.dataAt.Some? ==>
              pos < r.dataAt.value <= |input.tokens| && input.tokens[r.dataAt.value - 1] == FieldName("data")
    decreases |input.tokens| - pos
  {
    match Next(input, pos)
    case LexFailure(m) => HeaderFailed(IoFailure(m))
    case EndOfInput => HeaderRead(position, None)
    case Token(FieldName("startSequenceNumbers")) =>
      (match ParseSequenceNumbers(input, pos + 1, None, None, [])
       case ParseFailed(f) => HeaderFailed(f)
       case Parsed(p, next) => ScanHeader(input, next, Some(p)))
    case Token(FieldName("data")) => HeaderRead(position, Some(pos + 1))
    case Token(_) => ScanHeader(input, pos + 1, position)
  }

  /** The message the iterator builds for a field name and the value after it: empty header, and the decoder keeps key and payload. */
  function SnapshotMessage(key: string, payload: Option<string>): TextMessage {
    TextMessage(key, EmptyHeader(), payload)
  }

  /** One search of MessageIterator.hasNext() for the next message. */
  datatype Scan =
    | Found(message: TextMessage, pos: nat, closed: bool)
    | Exhausted(pos: nat, closed: bool)
    | ScanFailed(error: string)

  /**
   * The search loop of hasNext(), from token index `pos`: skips tokens up to the next
   * field name, which becomes a message with the following value as payload (null
   * unless it is a string); stops without a message at END_ARRAY or the end of input.
   */
  function ScanNext(input: TokenStream, pos: nat, closed: bool): (r: Scan)
    requires pos <= |input.tokens| && (closed ==> pos == |input.tokens|)
    ensures r.Found? ==> pos < r.pos <= |input.tokens| && (r.closed ==> r.pos == |input.tokens|)
    ensures r.Exhausted? ==> pos <= r.pos <= |input.tokens| && (r.closed ==> r.pos == |input.tokens|)
    ensures r.ScanFailed? ==> input.failure == Some(r.error)
    decreases |input.tokens| - pos
  {
    if closed then Exhausted(pos, true)
    else match Next(input, pos)
      case LexFailure(m) => ScanFailed(m)
      case EndOfInput => Exhausted(pos, true)
      case Token(EndArray) => Exhausted(pos + 1, false)
      case Token(FieldName(key)) =>
        (match Next(input, pos + 1)
         case LexFailure(m) => ScanFailed(m)
         case EndOfInput => Found(SnapshotMessage(key, None), pos + 1, true)
         case Token(v) => Found(SnapshotMessage(key, TextValue(Some(v))), pos + 2, false))
      case Token(_) => ScanNext(input, pos + 1, false)
  }

  /** The iterator's state: its parser's index and closed flag, and the message hasNext() found. */
  datatype IterState = IterState(pos: nat, closed: bool, pending: Option<TextMessage>)

  ghost predicate ValidState(input: TokenStream, st: IterState) {
    st.pos <= |input.tokens| && (st.closed ==> st.pos == |input.tokens|)
  }

  datatype HasNextResult = HasNextResult(answer: bool, state: IterState, failure: Option<string>)

  /**
   * hasNext() as written: a pending message answers true without reading; otherwise it
   * searches with ScanNext. Nothing records that the data array has ended, so a later
   * call searches again from wherever the parser stopped.
   */
  function HasNextStep(input: TokenStream, st: IterState): (r: HasNextResult)
    requires ValidState(input, st)
    ensures ValidState(input, r.state)
    ensures r.answer <==> r.state.pending.Some?
    ensures r.failure.Some? ==> !r.answer && input.failure == r.failure
    ensures st.pending.Some? ==> r == HasNextResult(true, st, None)
    ensures st.pending.None? && r.answer ==> st.pos < r.state.pos
  {
    if st.pending.Some? then HasNextResult(true, st, None)
    else match ScanNext(input, st.pos, st.closed)
      case Found(m, p, c) => HasNextResult(true, IterState(p, c, Some(m)), None)
      case Exhausted(p, c) => HasNextResult(false, IterState(p, c, None), None)
      case ScanFailed(m) => HasNextResult(false, IterState(|input.tokens|, false, None), Some(m))
  }

  /** An iterator that also remembers that it has run out (see the findings in README.md). */
  datatype GuardedState = GuardedState(iter: IterState, exhausted: bool)

  datatype GuardedResult = GuardedResult(answer: bool, state: GuardedState, failure: Option<string>)

  /**
   * hasNext() with an exhaustion flag: once a search has ended without a message and
   * without an exception, later calls answer false without reading.
   */
  function GuardedHasNext(input: TokenStream, g: GuardedState): (r: GuardedResult)
    requires ValidState(input, g.iter)
    ensures ValidState(input, r.state.iter)
    ensures r.answer <==> r.state.iter.pending.Some?
    ensures g.iter.pending.None? && g.exhausted ==> r == GuardedResult(false, g, None)
  {
    if g.iter.pending.None? && g.exhausted then GuardedResult(false, g, None)
    else
      var h := HasNextStep(input, g.iter);
      GuardedResult(h.answer, GuardedState(h.state, !h.answer && h.failure.None?), h.failure)
  }

  /** With the flag, hasNext() does not consume: asking again after an answer gives the same answer and changes nothing. */
  lemma HasNextIsStable(input: TokenStream, g: GuardedState)
    requires ValidState(input, g.iter)
    requires GuardedHasNext(input, g).failure.None?
    ensures var r := GuardedHasNext(input, g);
            GuardedHasNext(input, r.state) == GuardedResult(r.answer, r.state, None)
  {
  }

  /** A measure that every message handed out lowers. */
  function Remaining(input: TokenStream, st: IterState): nat
    requires ValidState(input, st)
  {
    2 * (|input.tokens| - st.pos) + (if st.closed then 0 else 1) + (if st.pending.Some? then 1 else 0)
  }

  /** The messages a full pass of the iterator hands out, and the exception that ends the pass early, if any. */
  function Drain(input: TokenStream, st: IterState): (r: (seq<TextMessage>, Option<string>))
    requires ValidState(input, st)
    decreases Remaining(input, st)
  {
    var h := HasNextStep(input, st);
    if !h.answer then ([], h.failure)
    else
      var rest := Drain(input, h.state.(pending := None));
      ([h.state.pending.value] + rest.0, rest.1)
  }

  /** A full pass of the iterator with the exhaustion flag. */
  function GuardedDrain(input: TokenStream, g: GuardedState): (r: (seq<TextMessage>, Option<string>))
    requires ValidState(input, g.iter)
    decreases Remaining(input, g.iter)
  {
    var h := GuardedHasNext(input, g);
    if !h.answer then ([], h.failure)
    else
      var rest := GuardedDrain(input, h.state.(iter := h.state.iter.(pending := None)));
      ([h.state.iter.pending.value] + rest.0, rest.1)
  }

  /** One pass stops at the first false answer, so the flag changes nothing about what a single pass hands out. */
  lemma {:induction false} GuardedPassIsSamePass(input: TokenStream, st: IterState)
    requires ValidState(input, st)
    ensures GuardedDrain(input, GuardedState(st, false)) == Drain(input, st)
    decreases Remaining(input, st)
  {
    var h := HasNextStep(input, st);
    if h.answer {
      GuardedPassIsSamePass(input, h.state.(pending := None));
    }
  }

  // ---------------------------------------------------------------------------
  // Snapshot documents as a writer produces them, and what the reader makes of them.

  /** A record of the startSequenceNumbers array; either field may be missing. */
  datatype ShardRecord = ShardRecord(shard: Option<string>, sequenceNumber: Option<string>)

  /** A record of the data array: one key and its payload (null for a deletion). */
  datatype DataRecord = DataRecord(key: string, payload: Option<string>)

  function RecordTokens(r: ShardRecord): seq<JsonToken> {
    [StartObject] + (FieldTokens("shard", r.shard) + (FieldTokens("sequenceNumber", r.sequenceNumber) + [EndObject]))
  }

  /** A field with a string value, or nothing when the field is missing. */
  function FieldTokens(name: string, value: Option<string>): seq<JsonToken> {
    if value.Some? then [FieldName(name), ValueString(value.value)] else []
  }

  function RecordsTokens(rs: seq<ShardRecord>): seq<JsonToken> {
    if rs == [] then [] else RecordTokens(rs[0]) + RecordsTokens(rs[1..])
  }

  function DataTokens(ds: seq<DataRecord>): seq<JsonToken> {
    if ds == [] then []
    else [StartObject, FieldName(ds[0].key), PayloadToken(ds[0].payload), EndObject] + DataTokens(ds[1..])
  }

  function PayloadToken(payload: Option<string>): JsonToken {
    if payload.Some? then ValueString(payload.value) else ValueNull
  }

  /** The whole document: the shard records first, then the data records. */
  function SnapshotDocument(rs: seq<ShardRecord>, ds: seq<DataRecord>): seq<JsonToken> {
    [StartObject, FieldName("startSequenceNumbers"), StartArray]
    + (RecordsTokens(rs) + ([EndArray, FieldName("data"), StartArray] + (DataTokens(ds) + [EndArray, EndObject])))
  }

  /** The (shard, start) pair a record contributes: none when it names no shard. */
  function Contribution(r: ShardRecord): seq<(string, StartFrom)> {
    Collect([], r.shard, r.sequenceNumber)
  }

  function Collected(rs: seq<ShardRecord>): seq<(string, StartFrom)> {
    if rs == [] then [] else Contribution(rs[0]) + Collected(rs[1..])
  }

  /** The messages a data array stands for. */
  function DataMessages(ds: seq<DataRecord>): seq<TextMessage> {
    if ds == [] then [] else [SnapshotMessage(ds[0].key, ds[0].payload)] + DataMessages(ds[1..])
  }

  /** The index of the data array's START_ARRAY in SnapshotDocument(rs, ds). */
  function DataStart(rs: seq<ShardRecord>): nat {
    5 + |RecordsTokens(rs)|
  }

  /** `xs` occurs in `tokens` at index `pos`. */
  predicate Occurs(tokens: seq<JsonToken>, pos: nat, xs: seq<JsonToken>)
    decreases |xs|
  {
    pos + |xs| <= |tokens| && (xs == [] || (tokens[pos] == xs[0] && Occurs(tokens, pos + 1, xs[1..])))
  }

  lemma {:induction false} AtIndex(tokens: seq<JsonToken>, pos: nat, xs: seq<JsonToken>, i: nat)
    requires Occurs(tokens, pos, xs) && i < |xs|
    ensures tokens[pos + i] == xs[i]
    decreases i
  {
    if i > 0 {
      AtIndex(tokens, pos + 1, xs[1..], i - 1);
    }
  }

  lemma {:induction false} AtSplit(tokens: seq<JsonToken>, pos: nat, xs: seq<JsonToken>, ys: seq<JsonToken>)
    requires Occurs(tokens, pos, xs + ys)
    ensures Occurs(tokens, pos, xs) && Occurs(tokens, pos + |xs|, ys)
    decreases |xs|
  {
    if xs != [] {
      assert (xs + ys)[0] == xs[0] && (xs + ys)[1..] == xs[1..] + ys;
      AtSplit(tokens, pos + 1, xs[1..], ys);
    } else {
      assert xs + ys == ys;
    }
  }

  lemma {:induction false} OccursShift(a: seq<JsonToken>, b: seq<JsonToken>, pos: nat, xs: seq<JsonToken>)
    requires Occurs(b, pos, xs)
    ensures Occurs(a + b, |a| + pos, xs)
    decreases |xs|
  {
    if xs != [] {
      assert (a + b)[|a| + pos] == b[pos];
      OccursShift(a, b, pos + 1, xs[1..]);
    }
  }

  lemma {:induction false} OccursExtend(a: seq<JsonToken>, b: seq<JsonToken>, pos: nat, xs: seq<JsonToken>)
    requires Occurs(a, pos, xs)
    ensures Occurs(a + b, pos, xs)
    decreases |xs|
  {
    if xs != [] {
      assert (a + b)[pos] == a[pos];
      OccursExtend(a, b, pos + 1, xs[1..]);
    }
  }

  lemma {:induction false} OccursSelf(xs: seq<JsonToken>)
    ensures Occurs(xs, 0, xs)
    decreases |xs|
  {
    if xs != [] {
      OccursSelf(xs[1..]);
      OccursShift([xs[0]], xs[1..], 0, xs[1..]);
      assert [xs[0]] + xs[1..] == xs;
    }
  }

  /** `xs` occurs at the start of `xs + b`. */
  lemma OccursFirst(xs: seq<JsonToken>, b: seq<JsonToken>)
    ensures Occurs(xs + b, 0, xs)
  {
    OccursSelf(xs);
    OccursExtend(xs, b, 0, xs);
  }

  // One step of processSequenceNumbers each, so that the record lemmas below never unfold it.

  lemma ParseSkips(input: TokenStream, pos: nat, shardName: Option<string>, sequenceNumber: Option<string>,
                   collected: seq<(string, StartFrom)>)
    requires pos < |input.tokens|
    requires !input.tokens[pos].FieldName? && input.tokens[pos] != EndArray && input.tokens[pos] != EndObject
    ensures ParseSequenceNumbers(input, pos, shardName, sequenceNumber, collected)
         == ParseSequenceNumbers(input, pos + 1, shardName, sequenceNumber, collected)
  {
  }

  lemma ParseShardField(input: TokenStream, pos: nat, value: Option<string>, sequenceNumber: Option<string>,
                        collected: seq<(string, StartFrom)>, next: nat)
    requires Occurs(input.tokens, pos, FieldTokens("shard", value)) && next == pos + |FieldTokens("shard", value)|
    requires next <= |input.tokens|
    ensures ParseSequenceNumbers(input, pos, None, sequenceNumber, collected)
         == ParseSequenceNumbers(input, next, value, sequenceNumber, collected)
  {
    if value.Some? {
      AtIndex(input.tokens, pos, FieldTokens("shard", value), 0);
      AtIndex(input.tokens, pos, FieldTokens("shard", value), 1);
    }
  }

  lemma ParseNumberField(input: TokenStream, pos: nat, value: Option<string>, shardName: Option<string>,
                         collected: seq<(string, StartFrom)>, next: nat)
    requires Occurs(input.tokens, pos, FieldTokens("sequenceNumber", value))
    requires next == pos + |FieldTokens("sequenceNumber", value)| && next <= |input.tokens|
    ensures ParseSequenceNumbers(input, pos, shardName, None, collected)
         == ParseSequenceNumbers(input, next, shardName, value, collected)
  {
    if value.Some? {
      AtIndex(input.tokens, pos, FieldTokens("sequenceNumber", value), 0);
      AtIndex(input.tokens, pos, FieldTokens("sequenceNumber", value), 1);
    }
  }

  /** The accumulators are reset at every END_OBJECT: neither field of one record carries over into the next. */
  lemma ParseEndsRecord(input: TokenStream, pos: nat, shardName: Option<string>, sequenceNumber: Option<string>,
                        collected: seq<(string, StartFrom)>, next: nat, after: seq<(string, StartFrom)>)
    requires pos < |input.tokens| && input.tokens[pos] == EndObject
    requires next == pos + 1 && after == Collect(collected, shardName, sequenceNumber)
    ensures ParseSequenceNumbers(input, pos, shardName, sequenceNumber, collected)
         == ParseSequenceNumbers(input, next, None, None, after)
  {
  }

  lemma ParseEndsArray(input: TokenStream, pos: nat, collected: seq<(string, StartFrom)>)
    requires pos < |input.tokens| && input.tokens[pos] == EndArray
    ensures ParseSequenceNumbers(input, pos, None, None, collected) == Finish(collected, pos + 1)
  {
  }

  /**
   * Reading one shard record collects what the record contributes and resets both accumulators.
   * The position after the record and the collection after it are passed in as `next` and `after`.
   */
  lemma ParseRecord(input: TokenStream, pos: nat, r: ShardRecord, collected: seq<(string, StartFrom)>,
                    next: nat, after: seq<(string, StartFrom)>)
    requires Occurs(input.tokens, pos, RecordTokens(r))
    requires next == pos + |RecordTokens(r)| && after == collected + Contribution(r)
    ensures ParseSequenceNumbers(input, pos, None, None, collected) == ParseSequenceNumbers(input, next, None, None, after)
  {
    var t := input.tokens;
    var shardTokens, numberTokens := FieldTokens("shard", r.shard), FieldTokens("sequenceNumber", r.sequenceNumber);
    var q1 := pos + 1;
    var q2 := q1 + |shardTokens|;
    var q3 := q2 + |numberTokens|;
    assert Occurs(t, q1, shardTokens) && Occurs(t, q2, numberTokens) && q3 < |t| && t[pos] == StartObject
           && t[q3] == EndObject && next == q3 + 1 by {
      AtSplit(t, pos, [StartObject], shardTokens + (numberTokens + [EndObject]));
      AtIndex(t, pos, [StartObject], 0);
      AtSplit(t, q1, shardTokens, numberTokens + [EndObject]);
      AtSplit(t, q2, numberTokens, [EndObject]);
      AtIndex(t, q3, [EndObject], 0);
    }
    assert after == Collect(collected, r.shard, r.sequenceNumber);
    ParseSkips(input, pos, None, None, collected);
    ParseShardField(input, q1, r.shard, None, collected, q2);
    ParseNumberField(input, q2, r.sequenceNumber, r.shard, collected, q3);
    ParseEndsRecord(input, q3, r.shard, r.sequenceNumber, collected, next, after);
  }

  /** The records `rs` are written one after the other from index `pos` of `tokens`. */
  predicate RecordsAt(tokens: seq<JsonToken>, pos: nat, rs: seq<ShardRecord>)
    decreases |rs|
  {
    rs == [] || (Occurs(tokens, pos, RecordTokens(rs[0])) && RecordsAt(tokens, pos + |RecordTokens(rs[0])|, rs[1..]))
  }

  lemma {:induction false} OccursRecordsAt(tokens: seq<JsonToken>, pos: nat, rs: seq<ShardRecord>)
    requires Occurs(tokens, pos, RecordsTokens(rs))
    ensures RecordsAt(tokens, pos, rs)
    decreases |rs|
  {
    if rs != [] {
      AtSplit(tokens, pos, RecordTokens(rs[0]), RecordsTokens(rs[1..]));
      OccursRecordsAt(tokens, pos + |RecordTokens(rs[0])|, rs[1..]);
    }
  }

  /** The number of tokens of the records `rs`. */
  function RecordsLength(rs: seq<ShardRecord>): nat {
    if rs == [] then 0 else |RecordTokens(rs[0])| + RecordsLength(rs[1..])
  }

  lemma {:induction false} RecordsLengthIsLength(rs: seq<ShardRecord>)
    ensures RecordsLength(rs) == |RecordsTokens(rs)|
    decreases |rs|
  {
    if rs != [] {
      RecordsLengthIsLength(rs[1..]);
    }
  }

  /**
   * processSequenceNumbers over written shard records collects every record, in order.
   * The position after the records and the collection after them are passed in as `end` and `after`.
   */
  lemma {:induction false} ParseRecords(input: TokenStream, pos: nat, rs: seq<ShardRecord>, collected: seq<(string, StartFrom)>,
                                        end: nat, after: seq<(string, StartFrom)>)
    requires RecordsAt(input.tokens, pos, rs) && end == pos + RecordsLength(rs) && end <= |input.tokens|
    requires after == collected + Collected(rs)
    ensures ParseSequenceNumbers(input, pos, None, None, collected) == ParseSequenceNumbers(input, end, None, None, after)
    decreases |rs|
  {
    if rs == [] {
      assert after == collected;
    } else {
      var mid, c1 := pos + |RecordTokens(rs[0])|, collected + Contribution(rs[0]);
      ParseRecord(input, pos, rs[0], collected, mid, c1);
      CollectedCons(rs, collected);
      ParseRecords(input, mid, rs[1..], c1, end, after);
    }
  }

  lemma CollectedCons(rs: seq<ShardRecord>, collected: seq<(string, StartFrom)>)
    requires rs != []
    ensures collected + Contribution(rs[0]) + Collected(rs[1..]) == collected + Collected(rs)
  {
    var head, rest := Contribution(rs[0]), Collected(rs[1..]);
    assert Collected(rs) == head + rest;
    assert collected + head + rest == collected + (head + rest);
  }

  /** A token that is neither a field name nor END_ARRAY is passed over by the iterator. */
  lemma DrainSkip(input: TokenStream, pos: nat)
    requires pos < |input.tokens| && !input.tokens[pos].FieldName? && input.tokens[pos] != EndArray
    ensures Drain(input, IterState(pos, false, None)) == Drain(input, IterState(pos + 1, false, None))
  {
    assert ScanNext(input, pos, false) == ScanNext(input, pos + 1, false);
  }

  /** A field name and the token after it make one message. */
  lemma DrainMessage(input: TokenStream, pos: nat)
    requires pos + 1 < |input.tokens| && input.tokens[pos].FieldName?
    ensures var rest := Drain(input, IterState(pos + 2, false, None));
            Drain(input, IterState(pos, false, None))
            == ([SnapshotMessage(input.tokens[pos].name, TextValue(Some(input.tokens[pos + 1])))] + rest.0, rest.1)
  {
  }

  /** END_ARRAY ends the pass without a message. */
  lemma DrainEnd(input: TokenStream, pos: nat)
    requires pos < |input.tokens| && input.tokens[pos] == EndArray
    ensures Drain(input, IterState(pos, false, None)) == ([], None)
  {
    assert ScanNext(input, pos, false) == Exhausted(pos + 1, false);
  }

  /** One written data record: the iterator hands out its message and carries on after it. */
  lemma DrainRecord(input: TokenStream, pos: nat, d: DataRecord)
    requires Occurs(input.tokens, pos, [StartObject, FieldName(d.key), PayloadToken(d.payload), EndObject])
    ensures pos + 4 <= |input.tokens|
    ensures var rest := Drain(input, IterState(pos + 4, false, None));
            Drain(input, IterState(pos, false, None)) == ([SnapshotMessage(d.key, d.payload)] + rest.0, rest.1)
  {
    var t := input.tokens;
    var head := [StartObject, FieldName(d.key), PayloadToken(d.payload), EndObject];
    AtIndex(t, pos, head, 0);
    AtIndex(t, pos, head, 1);
    AtIndex(t, pos, head, 2);
    AtIndex(t, pos, head, 3);
    assert TextValue(Some(PayloadToken(d.payload))) == d.payload;
    DrainSkip(input, pos);
    DrainMessage(input, pos + 1);
    DrainSkip(input, pos + 3);
  }

  /** Iterating over a written data array hands out one message per record, in order, and then stops. */
  lemma {:induction false} DrainData(input: TokenStream, pos: nat, ds: seq<DataRecord>)
    requires Occurs(input.tokens, pos, DataTokens(ds) + [EndArray])
    ensures Drain(input, IterState(pos, false, None)) == (DataMessages(ds), None)
    decreases |ds|
  {
    var t := input.tokens;
    if ds == [] {
      AtIndex(t, pos, DataTokens(ds) + [EndArray], 0);
      DrainEnd(input, pos);
    } else {
      var d := ds[0];
      var head := [StartObject, FieldName(d.key), PayloadToken(d.payload), EndObject];
      assert DataTokens(ds) + [EndArray] == head + (DataTokens(ds[1..]) + [EndArray]);
      AtSplit(t, pos, head, DataTokens(ds[1..]) + [EndArray]);
      DrainRecord(input, pos, d);
      DrainData(input, pos + 4, ds[1..]);
      assert DataMessages(ds) == [SnapshotMessage(d.key, d.payload)] + DataMessages(ds[1..]);
    }
  }

  /** `xs` occurs in `a + xs + b` right after `a`. */
  lemma OccursInside(a: seq<JsonToken>, xs: seq<JsonToken>, b: seq<JsonToken>)
    ensures Occurs(a + xs + b, |a|, xs)
  {
    OccursFirst(xs, b);
    OccursShift(a, xs + b, 0, xs);
    assert a + (xs + b) == a + xs + b;
  }

  lemma DocumentFront(rs: seq<ShardRecord>, ds: seq<DataRecord>)
    ensures Occurs(SnapshotDocument(rs, ds), 0, [StartObject, FieldName("startSequenceNumbers"), StartArray])
  {
    var front := [StartObject, FieldName("startSequenceNumbers"), StartArray];
    var rest := RecordsTokens(rs) + ([EndArray, FieldName("data"), StartArray] + (DataTokens(ds) + [EndArray, EndObject]));
    assert SnapshotDocument(rs, ds) == [] + front + rest;
    OccursInside([], front, rest);
  }

  lemma DocumentRecords(rs: seq<ShardRecord>, ds: seq<DataRecord>)
    ensures Occurs(SnapshotDocument(rs, ds), 3, RecordsTokens(rs))
  {
    var front := [StartObject, FieldName("startSequenceNumbers"), StartArray];
    var rest := [EndArray, FieldName("data"), StartArray] + (DataTokens(ds) + [EndArray, EndObject]);
    assert SnapshotDocument(rs, ds) == front + RecordsTokens(rs) + rest;
    OccursInside(front, RecordsTokens(rs), rest);
  }

  lemma DocumentMiddle(rs: seq<ShardRecord>, ds: seq<DataRecord>)
    ensures Occurs(SnapshotDocument(rs, ds), 3 + |RecordsTokens(rs)|, [EndArray, FieldName("data"), StartArray])
  {
    var front := [StartObject, FieldName("startSequenceNumbers"), StartArray] + RecordsTokens(rs);
    var middle := [EndArray, FieldName("data"), StartArray];
    var rest := DataTokens(ds) + [EndArray, EndObject];
    assert SnapshotDocument(rs, ds) == front + middle + rest;
    OccursInside(front, middle, rest);
  }

  lemma DocumentData(rs: seq<ShardRecord>, ds: seq<DataRecord>)
    ensures Occurs(SnapshotDocument(rs, ds), 6 + |RecordsTokens(rs)|, DataTokens(ds) + [EndArray])
  {
    var front := [StartObject, FieldName("startSequenceNumbers"), StartArray] + RecordsTokens(rs)
                 + [EndArray, FieldName("data"), StartArray];
    var data := DataTokens(ds) + [EndArray];
    assert SnapshotDocument(rs, ds) == front + data + [EndObject];
    OccursInside(front, data, [EndObject]);
  }

  /** Where the parts of a written snapshot document lie. */
  lemma DocumentLayout(rs: seq<ShardRecord>, ds: seq<DataRecord>)
    ensures var t := SnapshotDocument(rs, ds);
            && Occurs(t, 0, [StartObject, FieldName("startSequenceNumbers"), StartArray])
            && RecordsAt(t, 3, rs)
            && Occurs(t, 3 + RecordsLength(rs), [EndArray, FieldName("data"), StartArray])
            && Occurs(t, 6 + RecordsLength(rs), DataTokens(ds) + [EndArray])
            && DataStart(rs) == 5 + RecordsLength(rs)
  {
    RecordsLengthIsLength(rs);
    DocumentFront(rs, ds);
    DocumentRecords(rs, ds);
    OccursRecordsAt(SnapshotDocument(rs, ds), 3, rs);
    DocumentMiddle(rs, ds);
    DocumentData(rs, ds);
  }

  /** The tokens the header scan meets in a written snapshot document, besides the records. */
  lemma HeaderTokens(rs: seq<ShardRecord>, ds: seq<DataRecord>)
    ensures var t, n := SnapshotDocument(rs, ds), RecordsLength(rs);
            && 4 + n < |t| && t[0] == StartObject && t[1] == FieldName("startSequenceNumbers") && t[2] == StartArray
            && t[3 + n] == EndArray && t[4 + n] == FieldName("data") && RecordsAt(t, 3, rs) && DataStart(rs) == 5 + n
  {
    var t, n := SnapshotDocument(rs, ds), RecordsLength(rs);
    var front, middle := [StartObject, FieldName("startSequenceNumbers"), StartArray], [EndArray, FieldName("data"), StartArray];
    DocumentLayout(rs, ds);
    AtIndex(t, 0, front, 0);
    AtIndex(t, 0, front, 1);
    AtIndex(t, 0, front, 2);
    AtIndex(t, 3 + n, middle, 0);
    AtIndex(t, 3 + n, middle, 1);
  }

  /** processSequenceNumbers, started after the "startSequenceNumbers" field name of a written document, builds the records' position. */
  lemma ParseOfDocument(rs: seq<ShardRecord>, ds: seq<DataRecord>, failure: Option<string>)
    ensures var input, n := TokenStream(SnapshotDocument(rs, ds), failure), RecordsLength(rs);
            4 + n <= |input.tokens| && ParseSequenceNumbers(input, 2, None, None, []) == Finish(Collected(rs), 4 + n)
  {
    var input := TokenStream(SnapshotDocument(rs, ds), failure);
    HeaderTokens(rs, ds);
    ParseRecordsArray(input, rs, RecordsLength(rs), Collected(rs));
  }

  /** processSequenceNumbers from a START_ARRAY at index 2 followed by the records `rs` and END_ARRAY. */
  lemma ParseRecordsArray(input: TokenStream, rs: seq<ShardRecord>, n: nat, all: seq<(string, StartFrom)>)
    requires 3 + n < |input.tokens| && input.tokens[2] == StartArray && input.tokens[3 + n] == EndArray
    requires RecordsAt(input.tokens, 3, rs) && n == RecordsLength(rs) && all == Collected(rs)
    ensures ParseSequenceNumbers(input, 2, None, None, []) == Finish(all, 4 + n)
  {
    assert [] + Collected(rs) == all;
    ParseSkips(input, 2, None, None, []);
    ParseRecords(input, 3, rs, [], 3 + n, all);
    ParseEndsArray(input, 3 + n, all);
  }

  lemma ScanHeaderSkips(input: TokenStream, pos: nat, position: Option<ChannelPosition>)
    requires pos < |input.tokens| && !input.tokens[pos].FieldName?
    ensures ScanHeader(input, pos, position) == ScanHeader(input, pos + 1, position)
  {
  }

  lemma ScanHeaderReadsPosition(input: TokenStream, pos: nat, position: Option<ChannelPosition>)
    requires pos < |input.tokens| && input.tokens[pos] == FieldName("startSequenceNumbers")
    ensures ScanHeader(input, pos, position)
         == match ParseSequenceNumbers(input, pos + 1, None, None, [])
            case ParseFailed(f) => HeaderFailed(f)
            case Parsed(p, next) => ScanHeader(input, next, Some(p))
  {
  }

  lemma ScanHeaderStopsAtData(input: TokenStream, pos: nat, position: Option<ChannelPosition>)
    requires pos < |input.tokens| && input.tokens[pos] == FieldName("data")
    ensures ScanHeader(input, pos, position) == HeaderRead(position, Some(pos + 1))
  {
  }

  /** The header scan of a written snapshot document reads the shard records and stops at the data array. */
  lemma HeaderOfDocument(rs: seq<ShardRecord>, ds: seq<DataRecord>, failure: Option<string>)
    ensures var input := TokenStream(SnapshotDocument(rs, ds), failure);
            ScanHeader(input, 0, None)
            == match Build(Collected(rs))
               case Success(p) => HeaderRead(Some(p), Some(DataStart(rs)))
               case Failure(f) => HeaderFailed(f)
  {
    var input := TokenStream(SnapshotDocument(rs, ds), failure);
    HeaderTokens(rs, ds);
    ParseOfDocument(rs, ds, failure);
    HeaderOverRecords(input, RecordsLength(rs), Collected(rs));
  }

  /** The header scan over `{"startSequenceNumbers": [...], "data"` once the records' parse is known. */
  lemma HeaderOverRecords(input: TokenStream, n: nat, collected: seq<(string, StartFrom)>)
    requires 4 + n < |input.tokens|
    requires input.tokens[0] == StartObject && input.tokens[1] == FieldName("startSequenceNumbers")
    requires input.tokens[4 + n] == FieldName("data")
    requires ParseSequenceNumbers(input, 2, None, None, []) == Finish(collected, 4 + n)
    ensures ScanHeader(input, 0, None)
            == match Build(collected)
               case Success(p) => HeaderRead(Some(p), Some(5 + n))
               case Failure(f) => HeaderFailed(f)
  {
    ScanHeaderSkips(input, 0, None);
    ScanHeaderReadsPosition(input, 1, None);
    match Build(collected) {
      case Success(p) =>
        ScanHeaderStopsAtData(input, 4 + n, Some(p));
      case Failure(f) =>
    }
  }

  /** A full pass of the iterator created at the data array of a written document hands out its data records. */
  lemma DataOfDocument(rs: seq<ShardRecord>, ds: seq<DataRecord>, failure: Option<string>)
    ensures DataStart(rs) < |SnapshotDocument(rs, ds)|
    ensures Drain(TokenStream(SnapshotDocument(rs, ds), failure), IterState(DataStart(rs), false, None))
            == (DataMessages(ds), None)
  {
    var input := TokenStream(SnapshotDocument(rs, ds), failure);
    var n := RecordsLength(rs);
    DocumentLayout(rs, ds);
    AtIndex(input.tokens, 3 + n, [EndArray, FieldName("data"), StartArray], 2);
    DrainSkip(input, 5 + n);
    DrainData(input, 6 + n, ds);
  }

  /**
   * Reading a whole written snapshot: the header scan yields the position built from the
   * shard records (or the duplicate-shard failure) and finds the data array, and a full
   * pass of the iterator hands out exactly the data records, in document order.
   */
  lemma SnapshotRoundTrip(rs: seq<ShardRecord>, ds: seq<DataRecord>, failure: Option<string>)
    ensures var input := TokenStream(SnapshotDocument(rs, ds), failure);
            match Build(Collected(rs))
            case Success(p) =>
              && ScanHeader(input, 0, None) == HeaderRead(Some(p), Some(DataStart(rs)))
              && Drain(input, IterState(DataStart(rs), false, None)) == (DataMessages(ds), None)
            case Failure(f) => ScanHeader(input, 0, None) == HeaderFailed(f)
  {
    HeaderOfDocument(rs, ds, failure);
    DataOfDocument(rs, ds, failure);
  }


  /** A record naming a shard puts that shard's start into the position read. */
  lemma {:induction false} RecordsDeterminePosition(rs: seq<ShardRecord>, i: nat)
    requires i < |rs| && rs[i].shard.Some? && Build(Collected(rs)).Success?
    ensures rs[i].shard.value in Build(Collected(rs)).value
    ensures Build(Collected(rs)).value[rs[i].shard.value] == StartOf(rs[i].sequenceNumber)
  {
    CollectedHoldsRecord(rs, i);
    var j :| 0 <= j < |Collected(rs)| && Collected(rs)[j] == (rs[i].shard.value, StartOf(rs[i].sequenceNumber));
    BuildMapsEachShard(Collected(rs));
  }

  lemma {:induction false} CollectedHoldsRecord(rs: seq<ShardRecord>, i: nat)
    requires i < |rs| && rs[i].shard.Some?
    ensures (rs[i].shard.value, StartOf(rs[i].sequenceNumber)) in Collected(rs)
    decreases |rs|
  {
    if i > 0 {
      CollectedHoldsRecord(rs[1..], i - 1);
    }
  }

  /** The shard names the records name, in a set. */
  function NamedShards(rs: seq<ShardRecord>): set<string> {
    if rs == [] then {}
    else (if rs[0].shard.Some? then {rs[0].shard.value} else {}) + NamedShards(rs[1..])
  }

  lemma ShardsOfConcat(a: seq<(string, StartFrom)>, b: seq<(string, StartFrom)>)
    ensures ShardsOf(a + b) == ShardsOf(a) + ShardsOf(b)
  {
    forall s | s in ShardsOf(a + b) ensures s in ShardsOf(a) + ShardsOf(b) {
      var k :| 0 <= k < |a + b| && (a + b)[k].0 == s;
      if k >= |a| {
        assert (a + b)[k] == b[k - |a|];
      }
    }
    forall s | s in ShardsOf(a) ensures s in ShardsOf(a + b) {
      var k :| 0 <= k < |a| && a[k].0 == s;
      assert (a + b)[k] == a[k];
    }
    forall s | s in ShardsOf(b) ensures s in ShardsOf(a + b) {
      var k :| 0 <= k < |b| && b[k].0 == s;
      assert (a + b)[k + |a|] == b[k];
    }
  }

  /** Only records that name a shard contribute: the shards of the position are exactly the named ones. */
  lemma {:induction false} PositionShardsAreNamedShards(rs: seq<ShardRecord>)
    ensures ShardsOf(Collected(rs)) == NamedShards(rs)
    decreases |rs|
  {
    if rs != [] {
      PositionShardsAreNamedShards(rs[1..]);
      ShardsOfConcat(Contribution(rs[0]), Collected(rs[1..]));
      if rs[0].shard.Some? {
        assert ShardsOf(Contribution(rs[0])) == {rs[0].shard.value} by {
          assert Contribution(rs[0])[0].0 == rs[0].shard.value;
        }
      }
    }
  }

  /**
   * The header scan stops right after the first "data" field name when no
   * "startSequenceNumbers" field name comes before it, leaving the position as it was:
   * a "data" field before "startSequenceNumbers" leaves the store at the horizon.
   */
  lemma {:induction false} ScanHeaderStopsAtFirstData(input: TokenStream, pos: nat, k: nat, position: Option<ChannelPosition>)
    requires pos <= k < |input.tokens| && input.tokens[k] == FieldName("data")
    requires forall j :: pos <= j < k ==> input.tokens[j] != FieldName("data") && input.tokens[j] != FieldName("startSequenceNumbers")
    ensures ScanHeader(input, pos, position) == HeaderRead(position, Some(k + 1))
    decreases k - pos
  {
    if pos < k {
      assert ScanHeader(input, pos, position) == ScanHeader(input, pos + 1, position);
      ScanHeaderStopsAtFirstData(input, pos + 1, k, position);
    }
  }

  /**
   * As written, MessageIterator.hasNext() is not stable: after answering false at the end
   * of the data array it resumes reading on the next call. In the document
   * {"data": [], "extra": "v"} the first call answers false and the second finds "extra";
   * with the exhaustion flag both calls answer false.
   */
  lemma HasNextAsWrittenResumesAfterDataArray()
    ensures var input := TokenStream([StartObject, FieldName("data"), StartArray, EndArray,
                                      FieldName("extra"), ValueString("v"), EndObject], None);
            var first := HasNextStep(input, IterState(2, false, None));
            var guarded := GuardedHasNext(input, GuardedState(IterState(2, false, None), false));
            && ScanHeader(input, 0, None) == HeaderRead(None, Some(2))
            && first == HasNextResult(false, IterState(4, false, None), None)
            && HasNextStep(input, first.state) == HasNextResult(true, IterState(6, false, Some(SnapshotMessage("extra", Some("v")))), None)
            && !guarded.answer && GuardedHasNext(input, guarded.state) == guarded
  {
    var input := TokenStream([StartObject, FieldName("data"), StartArray, EndArray,
                              FieldName("extra"), ValueString("v"), EndObject], None);
    assert ScanHeader(input, 0, None) == ScanHeader(input, 1, None);
    assert ScanNext(input, 2, false) == ScanNext(input, 3, false);
    assert ScanNext(input, 4, false) == Found(SnapshotMessage("extra", Some("v")), 6, false);
  }
}
