/** The already-decoded events the user index sends to a user canister.
    Only the fields the event handlers read or forward are kept. */
module Events {
  import opened Types

  datatype DiamondMembershipPlanDuration = OneMonth | ThreeMonths | OneYear | Lifetime

  /** Why chit was earned; only `DailyClaim` is distinguished by the handler. */
  datatype ChitEarnedReason = DailyClaim | OtherReason(description: string)

  /** One earn record: it is also what the chit history stores. */
  datatype ChitEarned = ChitEarned(amount: int, timestamp: Timestamp, reason: ChitEarnedReason)

  datatype PhoneNumberConfirmed = PhoneNumberConfirmed(phoneNumber: string, newStorageLimit: nat)

  datatype StorageUpgraded = StorageUpgraded(storageAdded: nat, newStorageLimit: nat)

  datatype ReferredUserRegistered = ReferredUserRegistered(userId: UserId, username: string)

  datatype UserSuspended = UserSuspended(timestamp: Timestamp, reason: string, suspendedBy: UserId)

  datatype BotMessage = BotMessage(content: MessageContent, mentioned: seq<UserId>)

  datatype ChannelLatestMessageIndex =
    ChannelLatestMessageIndex(channelId: ChannelId, latestMessageIndex: Option<MessageIndex>)

  datatype UserJoinedGroup =
    UserJoinedGroup(chatId: ChatId, localUserIndex: CanisterId, latestMessageIndex: Option<MessageIndex>)

  datatype UserJoinedCommunityOrChannel =
    UserJoinedCommunityOrChannel(communityId: CommunityId, localUserIndex: CanisterId,
                                 channels: seq<ChannelLatestMessageIndex>)

  datatype DiamondMembershipPaymentReceived =
    DiamondMembershipPaymentReceived(expiresAt: Timestamp, duration: DiamondMembershipPlanDuration,
                                     sendBotMessage: bool)

  /** The closed event union; `process_event` handles every variant. */
  datatype Event =
    | UsernameChanged(username: string)
    | DisplayNameChanged(displayName: string)
    | PhoneNumberConfirmed(phone: PhoneNumberConfirmed)
    | StorageUpgraded(upgrade: StorageUpgraded)
    | ReferredUserRegistered(referral: ReferredUserRegistered)
    | UserSuspended(suspension: UserSuspended)
    | OpenChatBotMessage(content: MessageContent)
    | OpenChatBotMessageV2(message: BotMessage)
    | UserJoinedGroup(group: UserJoinedGroup)
    | UserJoinedCommunityOrChannel(community: UserJoinedCommunityOrChannel)
    | DiamondMembershipPaymentReceived(payment: DiamondMembershipPaymentReceived)
    | ChitEarned(chit: ChitEarned)
}
