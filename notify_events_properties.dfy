/** What the event engine promises: batch order, the chit ledger, when the
    user index is notified, and the effect of each kind of event. */
module NotifyEventsProperties {
  import opened Types
  import opened Events
  import opened Achievements
  import opened Streaks
  import opened Memberships
  import opened AccountSpec

  // ---------------------------------------------------------------------
  // Batch order

  /** A batch split in two is the first part followed by the second. */
  lemma {:induction false} RunAppend(s: AccountState, first: seq<Event>, second: seq<Event>, now: Timestamp)
    ensures Run(s, first + second, now) == Run(Run(s, first, now), second, now)
    decreases |first|
  {
    if first == [] {
      assert first + second == second;
    } else {
      assert (first + second)[0] == first[0];
      assert (first + second)[1..] == first[1..] + second;
      RunAppend(Step(s, first[0], now), first[1..], second, now);
    }
  }

  // ---------------------------------------------------------------------
  // Chit ledger

  /** The earn record one event carries, if any. */
  function EarnedBy(e: Event): seq<Events.ChitEarned>
  {
    if e.ChitEarned? then [e.chit] else []
  }

  /** The earn records carried by a batch, in batch order. */
  function ChitRecords(events: seq<Event>): seq<Events.ChitEarned>
    decreases |events|
  {
    if events == [] then [] else EarnedBy(events[0]) + ChitRecords(events[1..])
  }

  function SumAmounts(records: seq<Events.ChitEarned>): int
    decreases |records|
  {
    if records == [] then 0 else records[0].amount + SumAmounts(records[1..])
  }

  lemma {:induction false} SumAmountsAppend(a: seq<Events.ChitEarned>, b: seq<Events.ChitEarned>)
    ensures SumAmounts(a + b) == SumAmounts(a) + SumAmounts(b)
    decreases |a|
  {
    if a == [] {
      assert a + b == b;
    } else {
      assert (a + b)[1..] == a[1..] + b;
      SumAmountsAppend(a[1..], b);
    }
  }

  /** The balance is the sum of the recorded earn amounts. */
  ghost predicate BalanceMatchesHistory(s: AccountState)
  {
    s.chitBalance.value == SumAmounts(s.chitEvents)
  }

  /** One event appends its earn record, if any, and raises the balance by
      its amount. */
  lemma StepChitLedger(s: AccountState, e: Event, now: Timestamp)
    ensures Step(s, e, now).chitEvents == s.chitEvents + EarnedBy(e)
    ensures Step(s, e, now).chitBalance.value == s.chitBalance.value + SumAmounts(EarnedBy(e))
  {
  }

  /** A batch appends exactly its earn records to the history, in batch
      order, and raises the balance by exactly their amounts. */
  lemma {:induction false} RunChitLedger(s: AccountState, events: seq<Event>, now: Timestamp)
    ensures Run(s, events, now).chitEvents == s.chitEvents + ChitRecords(events)
    ensures Run(s, events, now).chitBalance.value == s.chitBalance.value + SumAmounts(ChitRecords(events))
    decreases |events|
  {
    if events != [] {
      var head := EarnedBy(events[0]);
      var next := Step(s, events[0], now);
      StepChitLedger(s, events[0], now);
      RunChitLedger(next, events[1..], now);
      assert Run(s, events, now) == Run(next, events[1..], now);
      assert s.chitEvents + head + ChitRecords(events[1..]) == s.chitEvents + ChitRecords(events);
      SumAmountsAppend(head, ChitRecords(events[1..]));
    }
  }

  /** No batch breaks the agreement between balance and history. */
  lemma RunKeepsBalanceMatchingHistory(s: AccountState, events: seq<Event>, now: Timestamp)
    requires BalanceMatchesHistory(s)
    ensures BalanceMatchesHistory(Run(s, events, now))
  {
    RunChitLedger(s, events, now);
    SumAmountsAppend(s.chitEvents, ChitRecords(events));
  }

  // ---------------------------------------------------------------------
  // Notifications to the user index

  function CountNotifications(outbox: seq<Effect>): nat
    decreases |outbox|
  {
    if outbox == [] then 0
    else (if outbox[0].ChitNotification? then 1 else 0) + CountNotifications(outbox[1..])
  }

  lemma {:induction false} CountNotificationsAppend(a: seq<Effect>, b: seq<Effect>)
    ensures CountNotifications(a + b) == CountNotifications(a) + CountNotifications(b)
    decreases |a|
  {
    if a == [] {
      assert a + b == b;
    } else {
      assert (a + b)[1..] == a[1..] + b;
      CountNotificationsAppend(a[1..], b);
    }
  }

  /** The events after which the user index must be told: a chit earn
      always, an achievement-bearing event only when it brings a kind the
      account does not hold yet. */
  predicate NotifiesOn(s: AccountState, e: Event)
  {
    match e
    case DisplayNameChanged(_) => SetDisplayName !in s.achievements
    case UserJoinedGroup(_) => JoinedGroup !in s.achievements
    case UserJoinedCommunityOrChannel(_) => JoinedCommunity !in s.achievements
    case DiamondMembershipPaymentReceived(ev) =>
      UpgradedToDiamond !in s.achievements || (ev.duration.Lifetime? && UpgradedToGoldDiamond !in s.achievements)
    case ChitEarned(_) => true
    case _ => false
  }

  /** One event notifies exactly once when it qualifies and never
      otherwise; every notification it sends carries `now`. */
  lemma StepNotifiesOnceIfQualifying(s: AccountState, e: Event, now: Timestamp)
    ensures CountNotifications(Step(s, e, now).outbox)
            == CountNotifications(s.outbox) + (if NotifiesOn(s, e) then 1 else 0)
    ensures forall i :: |s.outbox| <= i < |Step(s, e, now).outbox| && Step(s, e, now).outbox[i].ChitNotification?
                        ==> Step(s, e, now).outbox[i].at == now
  {
    var r := Step(s, e, now);
    var added := r.outbox[|s.outbox|..];
    assert r.outbox == s.outbox + added;
    CountNotificationsAppend(s.outbox, added);
    match e
    case DiamondMembershipPaymentReceived(ev) =>
      var awarded := if NotifiesOn(s, e) then [ChitNotification(now)] else [];
      var text := if ev.sendBotMessage then [SendTextMessage(DIAMOND_PAYMENT_TEXT)] else [];
      assert added == awarded + text;
      CountNotificationsAppend(awarded, text);
    case _ =>
  }

  /** Over a batch, every earn event notifies and no event notifies twice. */
  lemma {:induction false} RunNotificationBounds(s: AccountState, events: seq<Event>, now: Timestamp)
    ensures CountNotifications(s.outbox) + |ChitRecords(events)|
            <= CountNotifications(Run(s, events, now).outbox)
            <= CountNotifications(s.outbox) + |events|
    decreases |events|
  {
    if events != [] {
      StepNotifiesOnceIfQualifying(s, events[0], now);
      RunNotificationBounds(Step(s, events[0], now), events[1..], now);
    }
  }

  // ---------------------------------------------------------------------
  // Profile and bot-message events

  /** The profile events touch only their own fields; of them only the
      display name change requests an achievement. The bot-message events
      change nothing but the outbox, to which they add one message. */
  lemma ProfileAndMessageEvents(s: AccountState, e: Event, now: Timestamp)
    ensures e.UsernameChanged? ==> Step(s, e, now) == s.(username := Timestamped(e.username, now))
    ensures e.DisplayNameChanged? ==>
              && Step(s, e, now).displayName == Timestamped(e.displayName, now)
              && Step(s, e, now).achievements.Keys == s.achievements.Keys + {SetDisplayName}
              && Step(s, e, now).(displayName := s.displayName, achievements := s.achievements, outbox := s.outbox) == s
    ensures e.PhoneNumberConfirmed? ==>
              Step(s, e, now) == s.(phoneIsVerified := true, storageLimit := e.phone.newStorageLimit,
                                    outbox := s.outbox + [PhoneNumberConfirmedMessage(e.phone)])
    ensures e.StorageUpgraded? ==>
              Step(s, e, now) == s.(storageLimit := e.upgrade.newStorageLimit,
                                    outbox := s.outbox + [StorageUpgradedMessage(e.upgrade)])
    ensures e.ReferredUserRegistered? || e.UserSuspended? || e.OpenChatBotMessage? || e.OpenChatBotMessageV2? ==>
              && Step(s, e, now).(outbox := s.outbox) == s
              && |Step(s, e, now).outbox| == |s.outbox| + 1
  {
  }

  // ---------------------------------------------------------------------
  // Group and community joins

  /** Joining a group upserts its membership, lifts its exclusion and
      holds the JoinedGroup achievement afterwards. */
  lemma UserJoinedGroupEffects(s: AccountState, ev: Events.UserJoinedGroup, now: Timestamp)
    ensures var r := Step(s, Event.UserJoinedGroup(ev), now);
            && r.groupChats.Keys == s.groupChats.Keys + {ev.chatId}
            && r.groupChats[ev.chatId].readUpTo == ev.latestMessageIndex
            && r.groupChats[ev.chatId].localUserIndex == ev.localUserIndex
            && (forall c :: c in s.groupChats && c != ev.chatId ==> r.groupChats[c] == s.groupChats[c])
            && ev.chatId !in r.hotGroupExclusions
            && (forall c :: c in s.hotGroupExclusions && c != ev.chatId ==> c in r.hotGroupExclusions)
            && r.hotGroupExclusions <= s.hotGroupExclusions
            && r.achievements.Keys == s.achievements.Keys + {JoinedGroup}
            && r.(groupChats := s.groupChats, hotGroupExclusions := s.hotGroupExclusions,
                  achievements := s.achievements, outbox := s.outbox) == s
  {
  }

  /** Rejoining a group keeps one entry, takes the newer read position and
      does not notify again. */
  lemma RejoinGroup(s: AccountState, first: Events.UserJoinedGroup, second: Events.UserJoinedGroup,
                    now: Timestamp, later: Timestamp)
    requires first.chatId == second.chatId
    ensures var once := Step(s, Event.UserJoinedGroup(first), now);
            var twice := Step(once, Event.UserJoinedGroup(second), later);
            && twice.groupChats.Keys == s.groupChats.Keys + {first.chatId}
            && twice.groupChats[first.chatId].readUpTo == second.latestMessageIndex
            && CountNotifications(twice.outbox) == CountNotifications(once.outbox)
            && twice.achievements == once.achievements
  {
    var once := Step(s, Event.UserJoinedGroup(first), now);
    StepNotifiesOnceIfQualifying(once, Event.UserJoinedGroup(second), later);
  }

  /** Joining a community leaves it present with the named channels marked
      read up to their last given position and its other channels as they
      were, keeps every other community and holds JoinedCommunity
      afterwards. */
  lemma UserJoinedCommunityEffects(s: AccountState, ev: Events.UserJoinedCommunityOrChannel, now: Timestamp)
    ensures var r := Step(s, Event.UserJoinedCommunityOrChannel(ev), now);
            && r.communities.Keys == s.communities.Keys + {ev.communityId}
            && (forall c :: c in s.communities && c != ev.communityId ==> r.communities[c] == s.communities[c])
            && ChannelIds(ev.channels) <= r.communities[ev.communityId].channelsReadUpTo.Keys
            && (forall i :: 0 <= i < |ev.channels| && IsLastMention(ev.channels, i) ==>
                  r.communities[ev.communityId].channelsReadUpTo[ev.channels[i].channelId]
                  == ev.channels[i].latestMessageIndex)
            && (ev.communityId in s.communities ==>
                  forall ch :: ch in s.communities[ev.communityId].channelsReadUpTo && ch !in ChannelIds(ev.channels) ==>
                    r.communities[ev.communityId].channelsReadUpTo[ch] == s.communities[ev.communityId].channelsReadUpTo[ch])
            && r.achievements.Keys == s.achievements.Keys + {JoinedCommunity}
            && r.(communities := s.communities, achievements := s.achievements, outbox := s.outbox) == s
  {
  }

  // ---------------------------------------------------------------------
  // Diamond membership payments

  /** A payment always holds UpgradedToDiamond afterwards, and
      UpgradedToGoldDiamond is added only for a lifetime plan. The expiry
      is overwritten even with an earlier time, and the bot message is sent
      exactly when asked for. */
  lemma DiamondPaymentEffects(s: AccountState, ev: Events.DiamondMembershipPaymentReceived, now: Timestamp)
    ensures var r := Step(s, Event.DiamondMembershipPaymentReceived(ev), now);
            && r.achievements.Keys == s.achievements.Keys + {UpgradedToDiamond}
                                      + (if ev.duration.Lifetime? then {UpgradedToGoldDiamond} else {})
            && r.diamondMembershipExpiresAt == Some(ev.expiresAt)
            && (SendTextMessage(DIAMOND_PAYMENT_TEXT) in r.outbox[|s.outbox|..] <==> ev.sendBotMessage)
            && r.(achievements := s.achievements, diamondMembershipExpiresAt := s.diamondMembershipExpiresAt,
                  outbox := s.outbox) == s
  {
    var r := Step(s, Event.DiamondMembershipPaymentReceived(ev), now);
    var awarded := if NotifiesOn(s, Event.DiamondMembershipPaymentReceived(ev)) then [ChitNotification(now)] else [];
    var text := if ev.sendBotMessage then [SendTextMessage(DIAMOND_PAYMENT_TEXT)] else [];
    assert r.outbox[|s.outbox|..] == awarded + text;
  }

  /** The same payment delivered again awards nothing and does not notify. */
  lemma DiamondPaymentRepeated(s: AccountState, ev: Events.DiamondMembershipPaymentReceived,
                               now: Timestamp, later: Timestamp)
    ensures var once := Step(s, Event.DiamondMembershipPaymentReceived(ev), now);
            var twice := Step(once, Event.DiamondMembershipPaymentReceived(ev), later);
            && twice.achievements == once.achievements
            && CountNotifications(twice.outbox) == CountNotifications(once.outbox)
  {
    var once := Step(s, Event.DiamondMembershipPaymentReceived(ev), now);
    StepNotifiesOnceIfQualifying(once, Event.DiamondMembershipPaymentReceived(ev), later);
  }

  // ---------------------------------------------------------------------
  // Chit earned and streak achievements

  /** The streak achievements whose threshold a streak of `days` reaches. */
  function StreakKinds(days: nat): set<Achievement>
  {
    (if days >= 3 then {Streak3} else {}) + (if days >= 7 then {Streak7} else {})
    + (if days >= 14 then {Streak14} else {}) + (if days >= 30 then {Streak30} else {})
  }

  /** Reaching a threshold means reaching every lower one. */
  lemma StreakKindsAreNested(days: nat)
    ensures Streak30 in StreakKinds(days) ==> Streak14 in StreakKinds(days)
    ensures Streak14 in StreakKinds(days) ==> Streak7 in StreakKinds(days)
    ensures Streak7 in StreakKinds(days) ==> Streak3 in StreakKinds(days)
  {
  }

  /** The threshold checks add exactly the reached kinds that are missing,
      and leave the times of held kinds alone. */
  lemma StreakAwardsAreThresholds(held: map<Achievement, Timestamp>, days: nat, now: Timestamp)
    ensures StreakAwards(held, days, now).Keys == held.Keys + StreakKinds(days)
    ensures forall k :: k in held ==> StreakAwards(held, days, now)[k] == held[k]
    ensures forall k :: k in StreakKinds(days) && k !in held ==> StreakAwards(held, days, now)[k] == now
  {
  }

  /** A chit earn credits exactly its amount stamped with the processing
      time, appends the earn record, notifies once, and tries the streak
      achievements only on a new daily claim. */
  lemma ChitEarnedEffects(s: AccountState, ev: Events.ChitEarned, now: Timestamp)
    ensures var r := Step(s, Event.ChitEarned(ev), now);
            var claim := Claim(s.streak, ev.timestamp);
            var newClaim := ev.reason.DailyClaim? && claim.0;
            && r.chitBalance == Timestamped(s.chitBalance.value + ev.amount, now)
            && r.chitEvents == s.chitEvents + [ev]
            && r.outbox == s.outbox + [ChitNotification(now)]
            && r.streak == (if ev.reason.DailyClaim? then claim.1 else s.streak)
            && r.achievements.Keys == s.achievements.Keys + (if newClaim then StreakKinds(claim.1.days) else {})
            && (!newClaim ==> r.achievements == s.achievements && r.streak == s.streak)
            && r.(chitBalance := s.chitBalance, chitEvents := s.chitEvents, streak := s.streak,
                  achievements := s.achievements, outbox := s.outbox) == s
  {
  }

  // ---------------------------------------------------------------------
  // A whole batch

  /** Display name "Alice", a join of group 1 read up to 5, then a daily
      claim of 7 chit on day 0, applied to an account holding nothing. The
      user index is notified three times: for SetDisplayName, for
      JoinedGroup and for the earn. */
  lemma NewAccountScenario(s: AccountState, now: Timestamp)
    requires s.achievements == map[] && s.groupChats == map[] && s.hotGroupExclusions == {1}
    requires s.chitBalance.value == 0 && s.chitEvents == [] && s.streak == NO_STREAK
    ensures var events := [Event.DisplayNameChanged("Alice"),
                           Event.UserJoinedGroup(Events.UserJoinedGroup.UserJoinedGroup(1, 9, Some(5))),
                           Event.ChitEarned(Events.ChitEarned.ChitEarned(7, 0, DailyClaim))];
            var r := Run(s, events, now);
            && r.displayName.value == "Alice"
            && r.achievements.Keys == {SetDisplayName, JoinedGroup}
            && r.groupChats.Keys == {1} && r.groupChats[1].readUpTo == Some(5)
            && r.hotGroupExclusions == {}
            && r.chitBalance.value == 7
            && r.streak.days == 1
            && CountNotifications(r.outbox) == CountNotifications(s.outbox) + 3
  {
    var e1 := Event.DisplayNameChanged("Alice");
    var e2 := Event.UserJoinedGroup(Events.UserJoinedGroup.UserJoinedGroup(1, 9, Some(5)));
    var e3 := Event.ChitEarned(Events.ChitEarned.ChitEarned(7, 0, DailyClaim));
    var events := [e1, e2, e3];
    var s1 := Step(s, e1, now);
    var s2 := Step(s1, e2, now);
    var s3 := Step(s2, e3, now);
    assert events[1..] == [e2, e3] && [e2, e3][1..] == [e3] && [e3][1..] == [];
    assert Run(s3, [], now) == s3;
    assert Run(s2, [e3], now) == s3;
    assert Run(s1, [e2, e3], now) == s3;
    assert Run(s, events, now) == s3;
    StepNotifiesOnceIfQualifying(s, e1, now);
    StepNotifiesOnceIfQualifying(s1, e2, now);
    StepNotifiesOnceIfQualifying(s2, e3, now);
  }
}
