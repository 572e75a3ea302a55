/**
 * Positions in a channel and the messages that travel over it.
 *
 * ChannelPosition and ShardPosition are not part of this model as classes; a channel
 * position is the map from shard name to where reading of that shard starts.
 */
module Channel {
  import opened Wrappers

  /** Where reading of one shard starts: at the horizon (oldest retained record) or after a sequence number. */
  datatype StartFrom = Horizon | At(sequenceNumber: string)

  /** A shard name together with its start; the optional position carried by a message header. */
  datatype ShardPosition = ShardPosition(shardName: string, startFrom: StartFrom)

  /** At most one start per shard name. */
  type ChannelPosition = map<string, StartFrom>

  /** ChannelPosition.fromHorizon(): no shard is tracked yet. */
  function FromHorizon(): ChannelPosition {
    map[]
  }

  /** Merging two positions: shards of `later` win over the same shards of `earlier`. */
  function Merge(earlier: ChannelPosition, later: ChannelPosition): ChannelPosition {
    earlier + later
  }

  /** A message header; Header.of() is the header without a shard position. */
  datatype Header = Header(shardPosition: Option<ShardPosition>)

  function EmptyHeader(): Header {
    Header(None)
  }

  /** A text message; a payload of `None` is a deletion (tombstone) of `key`. */
  datatype TextMessage = TextMessage(key: string, header: Header, payload: Option<string>)

  /** A message together with the channel it was received on. */
  datatype MessageStoreEntry = MessageStoreEntry(channelName: string, textMessage: TextMessage)
}
