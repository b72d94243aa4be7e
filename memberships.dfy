/** Group and community memberships of the account, keyed by id. */
module Memberships {
  import opened Types
  import opened Events

  datatype GroupChat = GroupChat(localUserIndex: CanisterId, readUpTo: Option<MessageIndex>, lastUpdated: Timestamp)

  datatype Community = Community(localUserIndex: CanisterId,
                                 channelsReadUpTo: map<ChannelId, Option<MessageIndex>>,
                                 joined: Timestamp)

  /** `group_chats.join`: upsert keyed by `chatId`; a rejoin replaces the
      read position and never creates a second entry. */
  function JoinGroup(groups: map<ChatId, GroupChat>, chatId: ChatId, localUserIndex: CanisterId,
                     latest: Option<MessageIndex>, now: Timestamp): (r: map<ChatId, GroupChat>)
    ensures r.Keys == groups.Keys + {chatId}
    ensures r[chatId].localUserIndex == localUserIndex && r[chatId].readUpTo == latest
    ensures forall c :: c in groups && c != chatId ==> r[c] == groups[c]
  {
    groups[chatId := GroupChat(localUserIndex, latest, now)]
  }

  /** `communities.join`: the community is present afterwards; an existing
      membership record, with its read positions, is kept as it was. */
  function JoinCommunity(communities: map<CommunityId, Community>, communityId: CommunityId,
                         localUserIndex: CanisterId, now: Timestamp): (r: map<CommunityId, Community>)
    ensures r.Keys == communities.Keys + {communityId}
    ensures forall c :: c in communities ==> r[c] == communities[c]
    ensures communityId !in communities ==> r[communityId].channelsReadUpTo == map[]
  {
    if communityId in communities then communities
    else communities[communityId := Community(localUserIndex, map[], now)]
  }

  /** The ids of the channels named in a mark-read request. */
  function ChannelIds(channels: seq<ChannelLatestMessageIndex>): set<ChannelId>
  {
    set i | 0 <= i < |channels| :: channels[i].channelId
  }

  /** Position `i` is the last mention of its channel in the request. */
  predicate IsLastMention(channels: seq<ChannelLatestMessageIndex>, i: int)
    requires 0 <= i < |channels|
  {
    forall j :: i < j < |channels| ==> channels[j].channelId != channels[i].channelId
  }

  /** `mark_read` on a community: each channel's read position is
      overwritten in request order, so the last mention of a channel wins;
      channels not named keep their positions. */
  function MarkRead(positions: map<ChannelId, Option<MessageIndex>>, channels: seq<ChannelLatestMessageIndex>)
    : (r: map<ChannelId, Option<MessageIndex>>)
    ensures r.Keys == positions.Keys + ChannelIds(channels)
    ensures forall c :: c in positions && c !in ChannelIds(channels) ==> r[c] == positions[c]
    ensures forall i :: 0 <= i < |channels| && IsLastMention(channels, i) ==>
              r[channels[i].channelId] == channels[i].latestMessageIndex
    decreases |channels|
  {
    if channels == [] then positions
    else
      var rest := channels[1..];
      var r := MarkRead(positions[channels[0].channelId := channels[0].latestMessageIndex], rest);
      assert ChannelIds(channels) == {channels[0].channelId} + ChannelIds(rest) by {
        forall c | c in ChannelIds(channels) ensures c in {channels[0].channelId} + ChannelIds(rest) {
          var i :| 0 <= i < |channels| && channels[i].channelId == c;
          if i > 0 { assert rest[i - 1].channelId == c; }
        }
        forall c | c in ChannelIds(rest) ensures c in ChannelIds(channels) {
          var i :| 0 <= i < |rest| && rest[i].channelId == c;
          assert channels[i + 1].channelId == c;
        }
      }
      assert forall i :: 1 <= i < |channels| && IsLastMention(channels, i) ==> IsLastMention(rest, i - 1) by {
        forall i | 1 <= i < |channels| && IsLastMention(channels, i) ensures IsLastMention(rest, i - 1) {
          forall j | i - 1 < j < |rest| ensures rest[j].channelId != rest[i - 1].channelId {
            assert rest[j] == channels[j + 1];
          }
        }
      }
      assert IsLastMention(channels, 0) ==> channels[0].channelId !in ChannelIds(rest) by {
        forall j | 0 <= j < |rest| ensures rest[j] == channels[j + 1] { }
      }
      r
  }
}
