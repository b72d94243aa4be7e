/** The account aggregate as a value, the outbound effects the engine
    requests, and the specification of `process_event` (Step) and of the
    batch loop of `c2c_notify_events_impl` (Run). */
module AccountSpec {
  import opened Types
  import opened Events
  import opened Achievements
  import opened Streaks
  import opened Memberships

  const DIAMOND_PAYMENT_TEXT: string := "Payment received for Diamond membership!"

  /** A request to an outside collaborator, recorded in order. */
  datatype Effect =
    | ChitNotification(at: Timestamp)   // notify_user_index_of_chit
    | PhoneNumberConfirmedMessage(phone: Events.PhoneNumberConfirmed)
    | StorageUpgradedMessage(upgrade: Events.StorageUpgraded)
    | ReferredUserJoinedMessage(referral: Events.ReferredUserRegistered)
    | UserSuspendedMessage(suspension: Events.UserSuspended)
    | SendMessage(content: MessageContent, mentioned: seq<UserId>)
    | SendTextMessage(text: string)

  /** The fields of the account this engine reads or writes. */
  datatype AccountState = AccountState(
    username: Timestamped<string>,
    displayName: Timestamped<string>,
    phoneIsVerified: bool,
    storageLimit: nat,
    diamondMembershipExpiresAt: Option<Timestamp>,
    chitBalance: Timestamped<int>,
    chitEvents: seq<Events.ChitEarned>,
    achievements: map<Achievement, Timestamp>,
    groupChats: map<ChatId, GroupChat>,
    hotGroupExclusions: set<ChatId>,
    communities: map<CommunityId, Community>,
    streak: Streak,
    outbox: seq<Effect>)

  /** `award_achievement_and_notify`: award, and request one chit
      notification only when the award was new. */
  function AwardAndNotify(s: AccountState, kind: Achievement, now: Timestamp): AccountState
  {
    s.(achievements := Award(s.achievements, kind, now),
       outbox := s.outbox + (if kind !in s.achievements then [ChitNotification(now)] else []))
  }

  /** The streak achievements tried after a new daily claim, one threshold
      after the other. */
  function StreakAwards(held: map<Achievement, Timestamp>, days: nat, now: Timestamp): map<Achievement, Timestamp>
  {
    var after3 := if days >= 3 then Award(held, Streak3, now) else held;
    var after7 := if days >= 7 then Award(after3, Streak7, now) else after3;
    var after14 := if days >= 14 then Award(after7, Streak14, now) else after7;
    if days >= 30 then Award(after14, Streak30, now) else after14
  }

  /** `communities.join` followed by `mark_read` on the joined community. */
  function JoinCommunityAndMarkRead(communities: map<CommunityId, Community>,
                                    ev: Events.UserJoinedCommunityOrChannel, now: Timestamp)
    : map<CommunityId, Community>
  {
    var joined := JoinCommunity(communities, ev.communityId, ev.localUserIndex, now);
    var community := joined[ev.communityId];
    joined[ev.communityId := community.(channelsReadUpTo := MarkRead(community.channelsReadUpTo, ev.channels))]
  }

  /** `process_event`: the transition one event makes. No event has an
      error path. Whatever the event, the history and the outbox only grow,
      by at most one earn record, and an achievement once held keeps the
      time it was first awarded. */
  function Step(s: AccountState, e: Event, now: Timestamp): (r: AccountState)
    ensures s.outbox <= r.outbox
    ensures s.chitEvents <= r.chitEvents && |r.chitEvents| <= |s.chitEvents| + 1
    ensures s.achievements.Keys <= r.achievements.Keys
    ensures forall k :: k in s.achievements ==> r.achievements[k] == s.achievements[k]
  {
    match e
    case UsernameChanged(name) =>
      s.(username := Timestamped(name, now))
    case DisplayNameChanged(name) =>
      AwardAndNotify(s.(displayName := Timestamped(name, now)), SetDisplayName, now)
    case PhoneNumberConfirmed(ev) =>
      s.(phoneIsVerified := true, storageLimit := ev.newStorageLimit,
         outbox := s.outbox + [PhoneNumberConfirmedMessage(ev)])
    case StorageUpgraded(ev) =>
      s.(storageLimit := ev.newStorageLimit, outbox := s.outbox + [StorageUpgradedMessage(ev)])
    case ReferredUserRegistered(ev) =>
      s.(outbox := s.outbox + [ReferredUserJoinedMessage(ev)])
    case UserSuspended(ev) =>
      s.(outbox := s.outbox + [UserSuspendedMessage(ev)])
    case OpenChatBotMessage(content) =>
      s.(outbox := s.outbox + [SendMessage(content, [])])
    case OpenChatBotMessageV2(message) =>
      s.(outbox := s.outbox + [SendMessage(message.content, message.mentioned)])
    case UserJoinedGroup(ev) =>
      var joined := s.(groupChats := JoinGroup(s.groupChats, ev.chatId, ev.localUserIndex, ev.latestMessageIndex, now),
                       hotGroupExclusions := s.hotGroupExclusions - {ev.chatId});
      AwardAndNotify(joined, JoinedGroup, now)
    case UserJoinedCommunityOrChannel(ev) =>
      AwardAndNotify(s.(communities := JoinCommunityAndMarkRead(s.communities, ev, now)), JoinedCommunity, now)
    case DiamondMembershipPaymentReceived(ev) =>
      var lifetime := ev.duration.Lifetime?;
      var afterDiamond := Award(s.achievements, UpgradedToDiamond, now);
      var afterGold := if lifetime then Award(afterDiamond, UpgradedToGoldDiamond, now) else afterDiamond;
      var awarded := UpgradedToDiamond !in s.achievements || (lifetime && UpgradedToGoldDiamond !in afterDiamond);
      s.(achievements := afterGold,
         diamondMembershipExpiresAt := Some(ev.expiresAt),
         outbox := s.outbox + (if awarded then [ChitNotification(now)] else [])
                            + (if ev.sendBotMessage then [SendTextMessage(DIAMOND_PAYMENT_TEXT)] else []))
    case ChitEarned(ev) =>
      var claim := if ev.reason.DailyClaim? then Claim(s.streak, ev.timestamp) else (false, s.streak);
      s.(chitBalance := Timestamped(s.chitBalance.value + ev.amount, now),
         chitEvents := s.chitEvents + [ev],
         streak := claim.1,
         achievements := if claim.0 then StreakAwards(s.achievements, Days(claim.1, ev.timestamp), now)
                         else s.achievements,
         outbox := s.outbox + [ChitNotification(now)])
  }

  /** `c2c_notify_events_impl`: every event of the batch, once each, in
      the order given. */
  function Run(s: AccountState, events: seq<Event>, now: Timestamp): (r: AccountState)
    ensures s.outbox <= r.outbox
    ensures s.chitEvents <= r.chitEvents && |r.chitEvents| <= |s.chitEvents| + |events|
    ensures s.achievements.Keys <= r.achievements.Keys
    ensures forall k :: k in s.achievements ==> r.achievements[k] == s.achievements[k]
    decreases |events|
  {
    if events == [] then s else Run(Step(s, events[0], now), events[1..], now)
  }
}
