/** Shared value types of the user canister: identifiers, timestamps,
    the `Timestamped` wrapper and the achievement kinds. */
module Types {

  /** Milliseconds since the Unix epoch (`TimestampMillis`, a `u64`). */
  type Timestamp = nat

  /** Principals and indexes are opaque identifiers here. */
  type UserId = nat
  type CanisterId = nat
  type ChatId = nat
  type CommunityId = nat
  type ChannelId = nat
  type MessageIndex = nat

  datatype Option<+T> = None | Some(value: T)

  /** A value together with the time it was last changed. */
  datatype Timestamped<T> = Timestamped(value: T, timestamp: Timestamp)

  /** The achievement kinds this engine can award. */
  datatype Achievement =
    | SetDisplayName
    | JoinedGroup
    | JoinedCommunity
    | UpgradedToDiamond
    | UpgradedToGoldDiamond
    | Streak3
    | Streak7
    | Streak14
    | Streak30

  /** The content of a message forwarded to the OpenChat bot; its
      structure belongs to the messaging collaborator. */
  datatype MessageContent = MessageContent(payload: string)
}
