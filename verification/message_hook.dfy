/**
  `normal_message` in src/main.rs: every chat message that is not a command
  passes through here, and a track link posted in a subscribed channel is
  added to that channel's playlist.
 */
module MessageHook {
  import opened Wrappers
  import opened Util
  import opened Data
  import opened Tracks

  /**
    What `check_update_token` (not part of this model) did to the stored
    credential. It is given the `&mut` entry of the credential map, so the
    assumption here is that when it refreshes it overwrites that entry, and
    that its `bool` answer is whether it did.
   */
  datatype TokenCheck = Unchanged | Refreshed(cred: Credential)

  datatype HookOutcome =
    | NoSubscription            // the channel has no subscription
    | NoLink                    // the message holds no track link
    | AuthorNotLinked           // the message's author has no credential
    | TrackLookupPanicked       // `add_track` panicked on the track lookup
    | AddRequested(request: AddRequest)

  /**
    The hook as one step. `check` is what the token check did and
    `trackFound` whether the track lookup inside `add_track` succeeded.
    The credential consulted is the message author's, whoever made the
    subscription. The prefix test inside `add_track` never fails for a
    link the scan found, so a linked author in a subscribed channel always
    gets one add request, or the lookup panic.
   */
  function NormalMessage(d: Directory, channel: ChannelId, author: UserId, content: string,
                         check: TokenCheck, trackFound: bool): (r: Transition<HookOutcome>)
    ensures r.dir.subdata == d.subdata
    ensures channel !in d.subdata ==> r == Transition(d, NoSubscription, false)
    ensures channel in d.subdata && SearchSpotifyLink(content).None? ==> r == Transition(d, NoLink, false)
    ensures channel in d.subdata && SearchSpotifyLink(content).Some? && author !in d.spotifyMap
            ==> r == Transition(d, AuthorNotLinked, false)
    ensures channel in d.subdata && SearchSpotifyLink(content).Some? && author in d.spotifyMap ==>
              if trackFound then r.outcome.AddRequested? else r.outcome.TrackLookupPanicked?
    ensures r.cacheWritten <==> r.outcome.AddRequested? && check.Refreshed?
    ensures r.dir.spotifyMap == d.spotifyMap || (check.Refreshed? && r.dir.spotifyMap == d.spotifyMap[author := check.cred])
    ensures r.outcome.AddRequested? || r.outcome.TrackLookupPanicked? ==>
              && channel in d.subdata && author in d.spotifyMap && SearchSpotifyLink(content).Some?
              && r.dir.spotifyMap == (if check.Refreshed? then d.spotifyMap[author := check.cred] else d.spotifyMap)
    ensures r.outcome.AddRequested? ==>
              && r.outcome.request.credential == r.dir.spotifyMap[author]
              && r.outcome.request.user == d.subdata[channel].spotifyUser
              && r.outcome.request.playlist == d.subdata[channel].spotifyPlaylist
              && r.outcome.request.trackUris == [TrackUri(SearchSpotifyLink(content).value)]
              && r.outcome.request.position == 0
  {
    if channel !in d.subdata then Transition(d, NoSubscription, false)
    else
      var sub := d.subdata[channel];
      match SearchSpotifyLink(content)
      case None => Transition(d, NoLink, false)
      case Some(link) =>
        if author !in d.spotifyMap then Transition(d, AuthorNotLinked, false)
        else
          var creds := match check
                       case Unchanged => d.spotifyMap
                       case Refreshed(c) => d.spotifyMap[author := c];
          var d' := Directory(d.subdata, creds);
          match AddTrack(creds[author], sub.spotifyUser, sub.spotifyPlaylist, link, trackFound)
          case NotATrack => assert false; Transition(d', NoLink, false)
          case LookupPanicked => Transition(d', TrackLookupPanicked, false)
          case Requested(req) => Transition(d', AddRequested(req), check.Refreshed?)
  }

  /**
    A subscription whose maker has since lost their credential still
    forwards the links another, linked, author posts, using that author's
    credential.
   */
  lemma OrphanedSubscriptionUsesAuthor(d: Directory, channel: ChannelId, author: UserId, content: string)
    requires channel in d.subdata && d.subdata[channel].discordUser !in d.spotifyMap
    requires author in d.spotifyMap && SearchSpotifyLink(content).Some?
    ensures var r := NormalMessage(d, channel, author, content, Unchanged, true);
            r.outcome.AddRequested? && r.outcome.request.credential == d.spotifyMap[author]
            && author != d.subdata[channel].discordUser
  {
  }
}
