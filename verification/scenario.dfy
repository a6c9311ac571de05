/**
  How the commands and the message hook work together over one directory:
  a user links, follows a channel, has a posted link forwarded, and purges
  or unlinks, after which the channel is quiet.
 */
module Scenario {
  import opened Wrappers
  import opened Strings
  import opened Util
  import opened Data
  import opened Tracks
  import opened MessageHook
  import opened FollowCommand
  import opened LinkCommand
  import opened UnlinkCommand
  import opened PurgeCommand

  /**
    Starting with no cache, a completed link followed by a follow of one's
    own playlist with a fresh token subscribes the channel.
   */
  lemma LinkThenFollow(x: UserId, c: ChannelId, payload: string, draw: nat -> char, cred: Credential,
                       profile: Profile, arg: string, now: nat, spotifyId: string, playlistId: string)
    requires payload != []
    requires IsValidToken(now, cred)
    requires StartsWith(arg, PlaylistUriPrefix) && EndsWith(arg, playlistId)
    ensures var l := Link(Empty, x, payload, draw, Some(cred), Some(profile));
            var f := Follow(l.dir, c, x, arg, now, None, Some(spotifyId), Some(playlistId));
            && l.dir.spotifyMap == map[x := cred]
            && f.outcome == FollowReport(false, Some(cred), Followed(SubscribeData(x, spotifyId, playlistId)))
            && f.dir == Directory(map[c := SubscribeData(x, spotifyId, playlistId)], map[x := cred])
  {
  }

  /**
    After a successful follow, a track link the follower posts in the
    channel gives exactly one add request, of that track's URI at position
    0, into the followed playlist; after a purge the channel ignores every
    message.
   */
  lemma FollowForwardPurge(d: Directory, x: UserId, c: ChannelId, arg: string, now: nat,
                           spotifyId: string, playlistId: string, content: string, later: string,
                           anyone: UserId, check: TokenCheck, trackFound: bool, dmSent: bool)
    requires x in d.spotifyMap && IsValidToken(now, d.spotifyMap[x])
    requires StartsWith(arg, PlaylistUriPrefix) && EndsWith(arg, playlistId)
    requires SearchSpotifyLink(content).Some?
    ensures var f := Follow(d, c, x, arg, now, None, Some(spotifyId), Some(playlistId));
            var m := NormalMessage(f.dir, c, x, content, Unchanged, true);
            && f.outcome.result.Followed?
            && m.outcome.AddRequested?
            && m.outcome.request.trackUris == [TrackUri(SearchSpotifyLink(content).value)]
            && m.outcome.request.position == 0
            && m.outcome.request.user == spotifyId
            && m.outcome.request.playlist == playlistId
            && !m.cacheWritten
            && NormalMessage(Purge(m.dir, x, dmSent).dir, c, anyone, later, check, trackFound).outcome == NoSubscription
  {
  }

  /**
    After an unlink none of the user's channels forwards anything, and the
    user's own posts elsewhere find no credential.
   */
  lemma UnlinkSilencesUser(d: Directory, x: UserId, c: ChannelId, content: string,
                           check: TokenCheck, trackFound: bool)
    requires c in d.subdata
    ensures var u := Unlink(d, x).dir;
            var r := NormalMessage(u, c, x, content, check, trackFound);
            && (d.subdata[c].discordUser == x ==> r.outcome == NoSubscription)
            && (r.outcome.NoSubscription? || r.outcome.NoLink? || r.outcome.AuthorNotLinked?)
            && r.dir == u && !r.cacheWritten
  {
  }

  /**
    The key-by-key removal loop leaves exactly the subscriptions that
    `unlink` keeps, and, when there is anything to purge, those `purge`
    keeps.
   */
  method RemovalLoopMatchesCommands(d: Directory, u: UserId, dmSent: bool)
    returns (subdata: map<ChannelId, SubscribeData>)
    ensures subdata == Unlink(d, u).dir.subdata
    ensures subdata == Purge(d, u, dmSent).dir.subdata
  {
    subdata := RemoveSubsOf(d, u);
  }
}
