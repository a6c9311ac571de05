/**
  The `follow` command (src/commands/follow.rs): a linked user subscribes
  the current channel to one of their own playlists.
 */
module FollowCommand {
  import opened Wrappers
  import opened Strings
  import opened Util
  import opened Data

  const PlaylistUriPrefix: string := "spotify:playlist:"

  datatype FollowResult =
    | NotLinked                 // the author has no credential
    | RefreshPanicked           // `get_refresh_credentials` hit one of its unwraps
    | BadFormat                 // the argument is not a `spotify:playlist:` URI
    | ProfileFailed             // `me()` returned an error
    | PlaylistLookupPanicked    // `user_playlist(..).unwrap()` on a failed lookup
    | NotOwner                  // the argument does not end with the resolved playlist id
    | Followed(sub: SubscribeData)

  /**
    What the command did besides its result: whether it refreshed the
    token, and the credential it called Spotify with (None when it made no
    profile or playlist call).
   */
  datatype FollowReport = FollowReport(refreshAttempted: bool, usedCredential: Option<Credential>,
                                       result: FollowResult)

  /**
    `follow` as one step. The upstream answers are parameters: `now` is the
    clock, `refreshAnswer` the token endpoint's reply, `me` the account id
    `me()` returned, and `resolved` the id of the playlist `user_playlist`
    found. A stale token is refreshed before anything else, and the
    refreshed credential is used for the calls but never stored.
   */
  function Follow(d: Directory, channel: ChannelId, author: UserId, arg: string, now: nat,
                  refreshAnswer: Option<Credential>, me: Option<string>, resolved: Option<string>)
    : (r: Transition<FollowReport>)
    ensures r.dir.spotifyMap == d.spotifyMap
    ensures !r.outcome.result.Followed? ==> r.dir == d && !r.cacheWritten
    ensures author !in d.spotifyMap ==> r.outcome == FollowReport(false, None, NotLinked)
    ensures r.outcome.result.NotLinked? <==> author !in d.spotifyMap
    ensures r.outcome.refreshAttempted <==> author in d.spotifyMap && !IsValidToken(now, d.spotifyMap[author])
    ensures r.outcome.result.RefreshPanicked? <==>
              r.outcome.refreshAttempted && GetRefreshCredentials(d.spotifyMap[author], refreshAnswer).None?
    ensures r.outcome.result.BadFormat? <==>
              && author in d.spotifyMap && !r.outcome.result.RefreshPanicked?
              && !StartsWith(arg, PlaylistUriPrefix)
    ensures r.outcome.result.ProfileFailed? <==>
              && author in d.spotifyMap && !r.outcome.result.RefreshPanicked?
              && StartsWith(arg, PlaylistUriPrefix) && me.None?
    ensures r.outcome.result.PlaylistLookupPanicked? <==>
              && author in d.spotifyMap && !r.outcome.result.RefreshPanicked?
              && StartsWith(arg, PlaylistUriPrefix) && me.Some? && resolved.None?
    ensures r.outcome.result.NotOwner? <==>
              && author in d.spotifyMap && !r.outcome.result.RefreshPanicked?
              && StartsWith(arg, PlaylistUriPrefix) && me.Some? && resolved.Some?
              && !EndsWith(arg, resolved.value)
    ensures r.outcome.result.Followed? <==>
              && author in d.spotifyMap && !r.outcome.result.RefreshPanicked?
              && StartsWith(arg, PlaylistUriPrefix) && me.Some? && resolved.Some?
              && EndsWith(arg, resolved.value)
    ensures r.outcome.result.Followed? ==>
              && r.outcome.result.sub == SubscribeData(author, me.value, resolved.value)
              && r.dir.subdata == d.subdata[channel := r.outcome.result.sub]
              && r.cacheWritten
    ensures r.outcome.usedCredential.Some? <==>
              author in d.spotifyMap && !r.outcome.result.RefreshPanicked? && StartsWith(arg, PlaylistUriPrefix)
    ensures r.outcome.usedCredential.Some? ==>
              if r.outcome.refreshAttempted then r.outcome.usedCredential == refreshAnswer
              else r.outcome.usedCredential.value == d.spotifyMap[author]
  {
    if author !in d.spotifyMap then Transition(d, FollowReport(false, None, NotLinked), false)
    else
      var stored := d.spotifyMap[author];
      var stale := !IsValidToken(now, stored);
      var current := if stale then GetRefreshCredentials(stored, refreshAnswer) else Some(stored);
      if current.None? then Transition(d, FollowReport(stale, None, RefreshPanicked), false)
      else if !StartsWith(arg, PlaylistUriPrefix) then Transition(d, FollowReport(stale, None, BadFormat), false)
      else
        match me
        case None => Transition(d, FollowReport(stale, current, ProfileFailed), false)
        case Some(spotifyId) =>
          match resolved
          case None => Transition(d, FollowReport(stale, current, PlaylistLookupPanicked), false)
          case Some(playlistId) =>
            if !EndsWith(arg, playlistId) then Transition(d, FollowReport(stale, current, NotOwner), false)
            else
              var sub := SubscribeData(author, spotifyId, playlistId);
              Transition(Directory(d.subdata[channel := sub], d.spotifyMap),
                         FollowReport(stale, current, Followed(sub)), true)
  }

  /**
    Whether the token is refreshed does not depend on the argument: the
    validity check comes before the format check, so even a malformed
    argument costs a refresh, and a panicking refresh hides the format error.
   */
  lemma RefreshPrecedesFormatCheck(d: Directory, channel: ChannelId, author: UserId, arg: string, arg': string,
                                   now: nat, refreshAnswer: Option<Credential>, me: Option<string>,
                                   resolved: Option<string>)
    requires author in d.spotifyMap
    ensures Follow(d, channel, author, arg, now, refreshAnswer, me, resolved).outcome.refreshAttempted
            == Follow(d, channel, author, arg', now, refreshAnswer, me, resolved).outcome.refreshAttempted
    ensures !IsValidToken(now, d.spotifyMap[author]) && refreshAnswer.None? ==>
              Follow(d, channel, author, arg, now, refreshAnswer, me, resolved).outcome.result == RefreshPanicked
  {
  }
}
