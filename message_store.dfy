/**
 * The default methods of the MessageStore interface, as functions over what a store
 * exposes: its channel names, its entries in insertion order, and its own
 * getLatestChannelPosition(channelName).
 */
module MessageStore {
  import opened Wrappers
  import opened Channel

  /** The IllegalStateException raised by getLatestChannelPosition() on a multi-channel store. */
  datatype StoreError = SeveralChannels(channelNames: set<string>)

  /**
   * The default getLatestChannelPosition(): refuses a store with more than one channel,
   * otherwise asks the store for its single channel, or for "" when it has none.
   */
  ghost function DefaultLatestChannelPosition(channelNames: set<string>,
                                              latestOf: string -> ChannelPosition): (r: Result<ChannelPosition, StoreError>)
    ensures r.Failure? <==> |channelNames| > 1
    ensures r.Failure? ==> r.error == SeveralChannels(channelNames)
    ensures channelNames == {} ==> r == Success(latestOf(""))
    ensures forall c :: c in channelNames && |channelNames| == 1 ==> r == Success(latestOf(c))
  {
    if |channelNames| > 1 then
      Failure(SeveralChannels(channelNames))
    else if channelNames == {} then
      Success(latestOf(""))
    else
      var c :| c in channelNames;
      SingletonMember(channelNames, c);
      Success(latestOf(c))
  }

  /** A set of size one holds nothing but its one known member. */
  lemma SingletonMember<T>(s: set<T>, x: T)
    requires x in s && |s| == 1
    ensures s == {x}
  {
    var rest := s - {x};
    assert s == rest + {x};
    assert |rest| == 0;
  }

  /** The default stream(channelName): the entries of `all` sent over `channelName`, in their order. */
  function Stream(all: seq<MessageStoreEntry>, channelName: string): (r: seq<MessageStoreEntry>)
    ensures forall e :: e in r ==> e.channelName == channelName
    ensures forall i :: 0 <= i < |all| && all[i].channelName == channelName ==> all[i] in r
    ensures IsSubsequence(r, all)
  {
    if all == [] then []
    else if all[0].channelName == channelName then [all[0]] + Stream(all[1..], channelName)
    else Stream(all[1..], channelName)
  }

  /** `a` is `b` with some elements left out and the rest in the same order. */
  predicate IsSubsequence<T(==)>(a: seq<T>, b: seq<T>)
    decreases |b|
  {
    if a == [] then true
    else if b == [] then false
    else (a[0] == b[0] && IsSubsequence(a[1..], b[1..])) || IsSubsequence(a, b[1..])
  }

  /** Streaming the concatenation of two entry lists streams each part in turn: relative order is kept. */
  lemma {:induction false} StreamConcat(a: seq<MessageStoreEntry>, b: seq<MessageStoreEntry>, channelName: string)
    ensures Stream(a + b, channelName) == Stream(a, channelName) + Stream(b, channelName)
  {
    if a != [] {
      assert (a + b)[0] == a[0];
      assert (a + b)[1..] == a[1..] + b;
      StreamConcat(a[1..], b, channelName);
    } else {
      assert a + b == b;
    }
  }

  /** Streaming twice changes nothing; a store of one channel streams all of it for that channel. */
  lemma {:induction false} StreamOfOneChannel(all: seq<MessageStoreEntry>, channelName: string)
    requires forall e :: e in all ==> e.channelName == channelName
    ensures Stream(all, channelName) == all
  {
    if all != [] {
      assert all[0] in all;
      StreamOfOneChannel(all[1..], channelName);
    }
  }

  /** The number of entries on a channel plus those on other channels is the size of the store. */
  lemma {:induction false} StreamsPartition(all: seq<MessageStoreEntry>, channelName: string)
    ensures |Stream(all, channelName)| + |Others(all, channelName)| == |all|
  {
    if all != [] {
      StreamsPartition(all[1..], channelName);
    }
  }

  function Others(all: seq<MessageStoreEntry>, channelName: string): seq<MessageStoreEntry> {
    if all == [] then []
    else if all[0].channelName != channelName then [all[0]] + Others(all[1..], channelName)
    else Others(all[1..], channelName)
  }

  /** The default size(): -1, meaning the store does not count its messages. */
  function DefaultSize(): (n: int)
    ensures n < 0
  {
    -1
  }

  /**
   * The documented meaning of getLatestChannelPosition(channelName): the shard positions
   * carried by the headers of the channel's entries, merged in insertion order.
   */
  function LatestChannelPositionOf(all: seq<MessageStoreEntry>, channelName: string): ChannelPosition
    decreases |all|
  {
    if all == [] then FromHorizon()
    else Merge(LatestChannelPositionOf(all[..|all| - 1], channelName), PositionOf(all[|all| - 1], channelName))
  }

  /** The part of the channel position one entry contributes. */
  function PositionOf(e: MessageStoreEntry, channelName: string): ChannelPosition {
    match e.textMessage.header.shardPosition
    case Some(ShardPosition(shard, start)) => if e.channelName == channelName then map[shard := start] else map[]
    case None => map[]
  }

  predicate CarriesPosition(e: MessageStoreEntry, channelName: string) {
    e.channelName == channelName && e.textMessage.header.shardPosition.Some?
  }

  /** Entries without a position on the channel do not change the latest position. */
  lemma {:induction false} PositionlessEntriesIgnored(all: seq<MessageStoreEntry>, e: MessageStoreEntry, channelName: string)
    requires !CarriesPosition(e, channelName)
    ensures LatestChannelPositionOf(all + [e], channelName) == LatestChannelPositionOf(all, channelName)
  {
    assert (all + [e])[..|all + [e]| - 1] == all;
  }

  /** If no entry carries a position for the channel, the latest position is the horizon. */
  lemma {:induction false} NoPositionsMeansHorizon(all: seq<MessageStoreEntry>, channelName: string)
    requires forall i :: 0 <= i < |all| ==> !CarriesPosition(all[i], channelName)
    ensures LatestChannelPositionOf(all, channelName) == FromHorizon()
  {
    if all != [] {
      NoPositionsMeansHorizon(all[..|all| - 1], channelName);
    }
  }

  /** A shard's start in the latest position is the one carried by the last entry naming that shard. */
  lemma {:induction false} LastPositionWins(all: seq<MessageStoreEntry>, channelName: string, i: nat)
    requires i < |all| && CarriesPosition(all[i], channelName)
    requires forall j :: i < j < |all| && CarriesPosition(all[j], channelName) ==>
               all[j].textMessage.header.shardPosition.value.shardName != all[i].textMessage.header.shardPosition.value.shardName
    ensures var p := all[i].textMessage.header.shardPosition.value;
            p.shardName in LatestChannelPositionOf(all, channelName) &&
            LatestChannelPositionOf(all, channelName)[p.shardName] == p.startFrom
  {
    if i < |all| - 1 {
      LastPositionWins(all[..|all| - 1], channelName, i);
    }
  }
}
