/** The user canister's runtime data, updated in place by the events the
    user index sends (`c2c_notify_events`). Each method is proved against
    the value-level specification in AccountSpec. */
module NotifyEvents {
  import opened Types
  import opened Events
  import opened Achievements
  import opened Streaks
  import opened Memberships
  import opened AccountSpec

  datatype Response = Success

  class Account {
    var username: Timestamped<string>
    var displayName: Timestamped<string>
    var phoneIsVerified: bool
    var storageLimit: nat
    var diamondMembershipExpiresAt: Option<Timestamp>
    var chitBalance: Timestamped<int>
    var chitEvents: seq<Events.ChitEarned>
    var achievements: map<Achievement, Timestamp>
    var groupChats: map<ChatId, GroupChat>
    var hotGroupExclusions: set<ChatId>
    var communities: map<CommunityId, Community>
    var streak: Streak
    /** The calls made to outside collaborators, in order. */
    ghost var outbox: seq<Effect>

    ghost function State(): AccountState
      reads this
    {
      AccountState(username, displayName, phoneIsVerified, storageLimit, diamondMembershipExpiresAt,
                   chitBalance, chitEvents, achievements, groupChats, hotGroupExclusions, communities,
                   streak, outbox)
    }

    /** `award_achievement`: reports whether the kind was new. */
    method AwardAchievement(kind: Achievement, now: Timestamp) returns (awarded: bool)
      modifies this
      ensures awarded == (kind !in old(achievements))
      ensures State() == old(State()).(achievements := Award(old(achievements), kind, now))
    {
      awarded := kind !in achievements;
      if awarded {
        achievements := achievements[kind := now];
      }
    }

    /** `notify_user_index_of_chit`: fire and forget. */
    method NotifyUserIndexOfChit(now: Timestamp)
      modifies this
      ensures State() == old(State()).(outbox := old(outbox) + [ChitNotification(now)])
    {
      outbox := outbox + [ChitNotification(now)];
    }

    /** A bot message handed to the OpenChat bot collaborator. */
    method SendBotMessage(message: Effect)
      modifies this
      ensures State() == old(State()).(outbox := old(outbox) + [message])
    {
      outbox := outbox + [message];
    }

    method AwardAchievementAndNotify(kind: Achievement, now: Timestamp)
      modifies this
      ensures State() == AwardAndNotify(old(State()), kind, now)
    {
      var awarded := AwardAchievement(kind, now);
      if awarded {
        NotifyUserIndexOfChit(now);
      }
    }

    /** `process_event`. */
    method ProcessEvent(event: Event, now: Timestamp)
      modifies this
      ensures State() == Step(old(State()), event, now)
    {
      match event
      case UsernameChanged(name) =>
        username := Timestamped(name, now);
      case DisplayNameChanged(name) =>
        displayName := Timestamped(name, now);
        AwardAchievementAndNotify(SetDisplayName, now);
      case PhoneNumberConfirmed(ev) =>
        phoneIsVerified := true;
        storageLimit := ev.newStorageLimit;
        SendBotMessage(PhoneNumberConfirmedMessage(ev));
      case StorageUpgraded(ev) =>
        storageLimit := ev.newStorageLimit;
        SendBotMessage(StorageUpgradedMessage(ev));
      case ReferredUserRegistered(ev) =>
        SendBotMessage(ReferredUserJoinedMessage(ev));
      case UserSuspended(ev) =>
        SendBotMessage(UserSuspendedMessage(ev));
      case OpenChatBotMessage(content) =>
        SendBotMessage(SendMessage(content, []));
      case OpenChatBotMessageV2(message) =>
        SendBotMessage(SendMessage(message.content, message.mentioned));
      case UserJoinedGroup(ev) =>
        ProcessUserJoinedGroup(ev, now);
      case UserJoinedCommunityOrChannel(ev) =>
        ProcessUserJoinedCommunityOrChannel(ev, now);
      case DiamondMembershipPaymentReceived(ev) =>
        ProcessDiamondMembershipPayment(ev, now);
      case ChitEarned(ev) =>
        ProcessChitEarned(ev, now);
    }

    /** The `UserJoinedGroup` arm of `process_event`. */
    method ProcessUserJoinedGroup(ev: Events.UserJoinedGroup, now: Timestamp)
      modifies this
      ensures State() == Step(old(State()), Event.UserJoinedGroup(ev), now)
    {
      groupChats := JoinGroup(groupChats, ev.chatId, ev.localUserIndex, ev.latestMessageIndex, now);
      hotGroupExclusions := hotGroupExclusions - {ev.chatId};
      AwardAchievementAndNotify(JoinedGroup, now);
    }

    /** The `UserJoinedCommunityOrChannel` arm of `process_event`. */
    method ProcessUserJoinedCommunityOrChannel(ev: Events.UserJoinedCommunityOrChannel, now: Timestamp)
      modifies this
      ensures State() == Step(old(State()), Event.UserJoinedCommunityOrChannel(ev), now)
    {
      communities := JoinCommunity(communities, ev.communityId, ev.localUserIndex, now);
      var community := communities[ev.communityId];
      communities := communities[ev.communityId :=
                                 community.(channelsReadUpTo := MarkRead(community.channelsReadUpTo, ev.channels))];
      AwardAchievementAndNotify(JoinedCommunity, now);
    }

    /** The `DiamondMembershipPaymentReceived` arm of `process_event`. */
    method ProcessDiamondMembershipPayment(ev: Events.DiamondMembershipPaymentReceived, now: Timestamp)
      modifies this
      ensures State() == Step(old(State()), Event.DiamondMembershipPaymentReceived(ev), now)
    {
      var awarded := AwardAchievement(UpgradedToDiamond, now);
      if ev.duration.Lifetime? {
        var gold := AwardAchievement(UpgradedToGoldDiamond, now);
        awarded := awarded || gold;
      }
      if awarded {
        NotifyUserIndexOfChit(now);
      }
      diamondMembershipExpiresAt := Some(ev.expiresAt);
      if ev.sendBotMessage {
        SendBotMessage(SendTextMessage(DIAMOND_PAYMENT_TEXT));
      }
    }

    /** The legacy `ChitEarned` arm of `process_event`. */
    method ProcessChitEarned(ev: Events.ChitEarned, now: Timestamp)
      modifies this
      ensures State() == Step(old(State()), Event.ChitEarned(ev), now)
    {
      var timestamp := ev.timestamp;
      var isDailyClaim := ev.reason.DailyClaim?;
      chitBalance := Timestamped(chitBalance.value + ev.amount, now);
      chitEvents := chitEvents + [ev];
      var claimed := false;
      if isDailyClaim {
        var claim := Claim(streak, timestamp);
        claimed, streak := claim.0, claim.1;
      }
      if claimed {
        AwardStreakAchievements(Days(streak, timestamp), now);
      }
      NotifyUserIndexOfChit(now);
    }

    /** The threshold checks after a new daily claim; the results of the
        awards are ignored. */
    method AwardStreakAchievements(days: nat, now: Timestamp)
      modifies this
      ensures State() == old(State()).(achievements := StreakAwards(old(achievements), days, now))
    {
      var ignored: bool;
      if days >= 3 {
        ignored := AwardAchievement(Streak3, now);
      }
      if days >= 7 {
        ignored := AwardAchievement(Streak7, now);
      }
      if days >= 14 {
        ignored := AwardAchievement(Streak14, now);
      }
      if days >= 30 {
        ignored := AwardAchievement(Streak30, now);
      }
    }

    /** `c2c_notify_events_impl`: applies the batch in order and always
        answers Success. */
    method NotifyEventsImpl(events: seq<Event>, now: Timestamp) returns (response: Response)
      modifies this
      ensures State() == Run(old(State()), events, now)
      ensures response == Success
    {
      for i := 0 to |events|
        invariant State() == Run(old(State()), events[..i], now)
      {
        RunSnoc(old(State()), events[..i], events[i], now);
        assert events[..i + 1] == events[..i] + [events[i]];
        ProcessEvent(events[i], now);
      }
      assert events[..|events|] == events;
      response := Success;
    }
  }

  /** Running one more event after a prefix is one more Step. */
  lemma {:induction false} RunSnoc(s: AccountState, events: seq<Event>, e: Event, now: Timestamp)
    ensures Run(s, events + [e], now) == Step(Run(s, events, now), e, now)
    decreases |events|
  {
    if events == [] {
      assert [e][1..] == [];
    } else {
      assert (events + [e])[1..] == events[1..] + [e];
      RunSnoc(Step(s, events[0], now), events[1..], e, now);
    }
  }
}
