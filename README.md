# OpenChat user canister: applying user-index events

This project models how a user canister applies the events that the user
index sends it (`c2c_notify_events`). The events are profile edits, phone
verification, storage upgrades, group and community joins, Diamond
membership payments and legacy chit earnings. Each one changes the
account's data in place, in batch order. It also models the small pure part
of the frontend's `access.ts`: the access-gate type guards and the default
chat rules.

Files and modules:

- `types.dfy` (`Types`): identifiers, `Timestamp` (milliseconds), `Timestamped`, `Achievement`.
- `events.dfy` (`Events`): the closed `Event` union and its payloads.
- `achievements.dfy` (`Achievements`): `award_achievement`, which awards each kind at most once.
- `streak.dfy` (`Streaks`): `streak.claim` and `streak.days`.
- `memberships.dfy` (`Memberships`): `group_chats.join`, `communities.join` and `mark_read`.
- `account_state.dfy` (`AccountSpec`): the account as a value (`AccountState`), the outbound `Effect`s, and `Step` / `Run`. These specify `process_event` and the batch loop.
- `notify_events.dfy` (`NotifyEvents`): the class `Account`, whose fields the handlers update in place. Every method is proved to leave `State()` equal to the specification applied to the old state.
- `notify_events_properties.dfy` (`NotifyEventsProperties`): the promised properties, proved about `Step` and `Run`.
- `access.dfy` (`Access`): gate guards and `defaultChatRules`.

The clock is a parameter. `now` is passed once per batch, because the
canister's clock gives one value during a single call. Notifications to the
user index and bot messages are not performed. The `Account` class records
them in order, in the ghost field `outbox`.

The helpers that `process_event` calls are defined elsewhere in the user canister:
`award_achievement`, `award_achievement_and_notify`, `group_chats.join`,
`hot_group_exclusions.remove`, `communities.join`, `mark_read`,
`streak.claim`, `streak.days` and `notify_user_index_of_chit`. Each has a
small body that meets the contract it is ASSUMED to have:

- an award inserts only an absent kind and reports whether it did;
- a repeat claim on the same day returns false and changes nothing;
- a group join replaces the record for its chat id; a community join inserts a record only when none exists;
- `mark_read` overwrites each channel position in request order.

The streak body assumes a UTC day of 86 400 000 ms. A claim on the day
after the last claimed day adds one. Any other new day restarts the count
at 1, and that includes a day before the last claimed one: such a claim is
accepted, moves the recorded day back and restarts the count
(`ClaimOnEarlierDay`).

A first group join also notifies, because the `UserJoinedGroup` arm calls
`award_achievement_and_notify` (c2c_notify_events.rs:62). So
`NewAccountScenario` counts three notifications for a display name change,
a group join and a daily chit claim on a fresh account.

## Model

| member | source | states |
|---|---|---|
| `NotifyEvents.Account.NotifyEventsImpl` | backend/canisters/user/impl/src/updates/c2c_notify_events.rs:16-21 | the new account state is `Run` of the old state over the batch (each event once, in order) and the answer is always `Success` |
| `NotifyEvents.Account.ProcessEvent` | backend/canisters/user/impl/src/updates/c2c_notify_events.rs:23-137 | the exhaustive per-event match leaves exactly the state `Step` prescribes, with no error path |
| `NotifyEvents.Account.ProcessUserJoinedGroup` | backend/canisters/user/impl/src/updates/c2c_notify_events.rs:56-63 | the group arm, done in place, matches `Step` |
| `NotifyEvents.Account.ProcessUserJoinedCommunityOrChannel` | backend/canisters/user/impl/src/updates/c2c_notify_events.rs:64-82 | the community arm (join, mark read, award) matches `Step` |
| `NotifyEvents.Account.ProcessDiamondMembershipPayment` | backend/canisters/user/impl/src/updates/c2c_notify_events.rs:83-104 | the payment arm with its non-short-circuit `awarded \|=` matches `Step` |
| `NotifyEvents.Account.ProcessChitEarned` | backend/canisters/user/impl/src/updates/c2c_notify_events.rs:106-135 | the legacy chit arm (balance, history, claim, thresholds, notify) matches `Step` |
| `NotifyEvents.Account.AwardStreakAchievements` | backend/canisters/user/impl/src/updates/c2c_notify_events.rs:117-131 | the four threshold checks, in order, change only the achievements, as `StreakAwards` says |
| `NotifyEvents.Account.AwardAchievement` | backend/canisters/user/impl/src/updates/c2c_notify_events.rs:84-87 | (assumed helper) returns true exactly when the kind was absent and changes only the achievements |
| `NotifyEvents.Account.AwardAchievementAndNotify` | backend/canisters/user/impl/src/updates/c2c_notify_events.rs:32 | (assumed helper) awards, and appends one notification exactly when the award was new |
| `NotifyEvents.Account.NotifyUserIndexOfChit` | backend/canisters/user/impl/src/updates/c2c_notify_events.rs:134 | appends one notification stamped `now` and changes nothing else |
| `NotifyEvents.Account.SendBotMessage` | backend/canisters/user/impl/src/updates/c2c_notify_events.rs:37-54 | a bot message only appends to the outbox |
| `NotifyEvents.RunSnoc` | backend/canisters/user/impl/src/updates/c2c_notify_events.rs:17-19 | processing one more event after a prefix is one more `Step` (the loop invariant's step) |
| `AccountSpec.Step` | backend/canisters/user/impl/src/updates/c2c_notify_events.rs:23-137 | for every event, the outbox and the chit history only grow (the history by at most one record), and held achievements keep their first-award time |
| `AccountSpec.Run` | backend/canisters/user/impl/src/updates/c2c_notify_events.rs:16-21 | over a batch, the outbox and history only grow (by at most one record per event) and no achievement is lost or re-stamped |
| `Achievements.Award` | backend/canisters/user/impl/src/updates/c2c_notify_events.rs:84-87 | (assumed) the kind is held afterwards; held kinds keep their time; a new kind gets `now` |
| `Achievements.AwardIsIdempotent` | backend/canisters/user/impl/src/updates/c2c_notify_events.rs:118-130 | awarding a held kind again changes nothing; the first time is kept |
| `Streaks.Claim` | backend/canisters/user/impl/src/updates/c2c_notify_events.rs:114 | (assumed) false exactly on a repeat claim for the same day, with no state change; otherwise the day is recorded and the count is +1 after the previous day, else 1 |
| `Streaks.DayIndex` | backend/canisters/user/impl/src/updates/c2c_notify_events.rs:114 | (assumed) the UTC day a timestamp falls on: the day's start is at or before it and the next day's start after it |
| `Streaks.DaysAfterClaim` | backend/canisters/user/impl/src/updates/c2c_notify_events.rs:114-115 | (assumed) `streak.days` read right after a successful claim is the previous count + 1 on the next day, else 1; it is at least 1 |
| `Streaks.ClaimOnEarlierDay` | backend/canisters/user/impl/src/updates/c2c_notify_events.rs:114 | (assumed) a claim dated before the last claimed day is accepted, records that earlier day and restarts the count at 1 |
| `Streaks.ClaimTwiceSameDay` | backend/canisters/user/impl/src/updates/c2c_notify_events.rs:114 | a second claim on the same day is refused and leaves the streak unchanged |
| `Streaks.ClaimScenarios` | backend/canisters/user/impl/src/updates/c2c_notify_events.rs:114-115 | days 0,1,2 give 1,2,3; a repeat on day 2 is refused; days 0,1,12 give 1 at the end |
| `Memberships.JoinGroup` | backend/canisters/user/impl/src/updates/c2c_notify_events.rs:57-60 | (assumed) upsert keyed by chat id, with the given read position; other groups unchanged |
| `Memberships.JoinCommunity` | backend/canisters/user/impl/src/updates/c2c_notify_events.rs:65-68 | (assumed) the community is present afterwards; existing records are kept; a new one has no read positions |
| `Memberships.MarkRead` | backend/canisters/user/impl/src/updates/c2c_notify_events.rs:69-80 | (assumed) every named channel gets the position of its last mention; unnamed channels are untouched |
| `NotifyEventsProperties.RunAppend` | backend/canisters/user/impl/src/updates/c2c_notify_events.rs:17-19 | a batch is its first part followed by its second: events apply in batch order |
| `NotifyEventsProperties.StepChitLedger` | backend/canisters/user/impl/src/updates/c2c_notify_events.rs:110-112 | one event appends its earn record, if any, and raises the balance by exactly its amount |
| `NotifyEventsProperties.RunChitLedger` | backend/canisters/user/impl/src/updates/c2c_notify_events.rs:110-112 | a batch appends exactly its earn records in batch order and raises the balance by their total |
| `NotifyEventsProperties.RunKeepsBalanceMatchingHistory` | backend/canisters/user/impl/src/updates/c2c_notify_events.rs:110-112 | if the balance equals the sum of the history before a batch, it does after |
| `NotifyEventsProperties.StepNotifiesOnceIfQualifying` | backend/canisters/user/impl/src/updates/c2c_notify_events.rs:23-135 | an event notifies exactly once if it qualifies (every chit earn; an award-bearing event only when it brings a new kind, Diamond once for both kinds) and never otherwise |
| `NotifyEventsProperties.RunNotificationBounds` | backend/canisters/user/impl/src/updates/c2c_notify_events.rs:16-21 | a batch notifies at least once per chit earn and at most once per event |
| `NotifyEventsProperties.ProfileAndMessageEvents` | backend/canisters/user/impl/src/updates/c2c_notify_events.rs:27-55 | username and display name become `(value, now)`; only the display name requests an award; phone confirmation sets verified and the storage limit; a storage upgrade changes only the limit; referral, suspension and bot messages change only the outbox |
| `NotifyEventsProperties.UserJoinedGroupEffects` | backend/canisters/user/impl/src/updates/c2c_notify_events.rs:56-63 | the membership is upserted, the id leaves the exclusions (a no-op if absent), JoinedGroup is held, nothing else changes |
| `NotifyEventsProperties.RejoinGroup` | backend/canisters/user/impl/src/updates/c2c_notify_events.rs:56-63 | a second join keeps one entry with the second event's read position (even when it is lower) and does not notify |
| `NotifyEventsProperties.UserJoinedCommunityEffects` | backend/canisters/user/impl/src/updates/c2c_notify_events.rs:64-82 | the community is present, its named channels are read up to their last given position, its other channels keep theirs, JoinedCommunity is held, other communities are unchanged |
| `NotifyEventsProperties.DiamondPaymentEffects` | backend/canisters/user/impl/src/updates/c2c_notify_events.rs:83-104 | UpgradedToDiamond is held; Gold is added only for Lifetime; the expiry is overwritten even with an earlier time; the bot text is sent iff asked |
| `NotifyEventsProperties.DiamondPaymentRepeated` | backend/canisters/user/impl/src/updates/c2c_notify_events.rs:84-92 | the same payment again awards nothing and sends no notification |
| `NotifyEventsProperties.StreakKindsAreNested` | backend/canisters/user/impl/src/updates/c2c_notify_events.rs:117-131 | reaching a streak threshold means reaching every lower one |
| `NotifyEventsProperties.StreakAwardsAreThresholds` | backend/canisters/user/impl/src/updates/c2c_notify_events.rs:114-132 | the threshold checks add exactly the kinds for 3, 7, 14, 30 at or below the streak; held kinds keep their time |
| `NotifyEventsProperties.ChitEarnedEffects` | backend/canisters/user/impl/src/updates/c2c_notify_events.rs:106-135 | balance + amount stamped `now` (not the event time); the record is appended; one notification; streak kinds only on a new daily claim; nothing else changes |
| `NotifyEventsProperties.NewAccountScenario` | backend/canisters/user/impl/src/updates/c2c_notify_events.rs:16-21 | display name, group join and a daily claim on a fresh account give both awards, the membership, balance 7, streak 1 and three notifications |
| `Access.IsNeuronGate` | frontend/openchat-shared/src/domain/access.ts:57-59 | true exactly for the NeuronGate variant |
| `Access.IsPaymentGate` | frontend/openchat-shared/src/domain/access.ts:61-63 | true exactly for the PaymentGate variant |
| `Access.IsBalanceGate` | frontend/openchat-shared/src/domain/access.ts:65-67 | true exactly for the TokenBalanceGate variant |
| `Access.IsCredentialGate` | frontend/openchat-shared/src/domain/access.ts:69-71 | true exactly for the CredentialGate variant |
| `Access.AtMostOneGuardHolds` | frontend/openchat-shared/src/domain/access.ts:57-71 | no gate passes two of the four guards |
| `Access.RulesTextShape` | frontend/openchat-shared/src/domain/access.ts:103-107 | the rules text names its noun after "relevant to the " and ends with the blocking/deletion warning |
| `Access.DefaultChatRules` | frontend/openchat-shared/src/domain/access.ts:99-115 | disabled, version 0; empty text iff the level is channel; otherwise it ends with the warning and says "channel" for a community and "group" for a group |

## Left out

- The `c2c_notify_events` entry point: its `update_msgpack` decoding, its `caller_is_local_user_index` guard and `mutate_state` are the transport and authentication layers.
- Bot message formatting and sending (`openchat_bot::*`): each call is one `Effect` in the outbox, carrying the event payload or the content.
- The conversion from `MessageContent` to `MessageContentInitial`: content is forwarded unchanged.
- Event payloads keep only the fields the handlers read or forward. `MessageContent` is an opaque payload.
- The network effect of `notify_user_index_of_chit`: it is a `ChitNotification(now)` entry in the outbox.
- The internals of `streak.claim`, `streak.days`, `award_achievement`, `group_chats.join`, `communities.join` and `mark_read` are not part of this model. Their bodies meet only the assumed contracts listed above. Any chit reward that `award_achievement` may grant, the `now` argument of `hot_group_exclusions.remove`, and the thread and pinned-message fields of a mark-read request are not modelled.
- `AccountSpec.Step`: integers are unbounded. The width of `chit_balance`, `amount`, storage limits and timestamps is not modelled, so the chit balance cannot overflow here.
- The clock: `now` is one value per batch.
- `Streaks.Days`: the timestamp argument is unused; the count is the one left by the latest claim, which is what `streak.days(timestamp)` gives when read right after a successful claim at that timestamp, as at c2c_notify_events.rs:114-115.
- `Streaks.Claim`: how the real `streak.claim` treats a claim dated before the last claimed day is not visible; the model accepts it as a new claim that restarts the count.
- `Level` comes from `structure.ts`, which is not part of this model. It is taken as the three levels group, channel and community.
- `Access`: TypeScript `number` and `bigint` fields are modelled as `int`. Gate fields that are not tags do not affect the guards.
