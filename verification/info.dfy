/**
  The `info` command (src/commands/info.rs): tells which playlist the
  current channel feeds.
 */
module InfoCommand {
  import opened Util
  import opened Data

  datatype InfoOutcome =
    | Connected(link: string)   // the playlist's web link
    | NoPlaylistConnected

  function Info(d: Directory, channel: ChannelId): (r: Transition<InfoOutcome>)
    ensures r.dir == d && !r.cacheWritten
    ensures channel in d.subdata ==> r.outcome == Connected(CreateSpotifyPlaylistLink(d.subdata[channel].spotifyPlaylist))
    ensures channel !in d.subdata ==> r.outcome == NoPlaylistConnected
  {
    if channel in d.subdata then Transition(d, Connected(CreateSpotifyPlaylistLink(d.subdata[channel].spotifyPlaylist)), false)
    else Transition(d, NoPlaylistConnected, false)
  }

  /**
    The reply depends on this channel's entry alone, and it names the
    playlist: two directories give the same reply exactly when they agree
    on whether the channel has a subscription and, if so, on its playlist.
   */
  lemma InfoDependsOnlyOnChannel(d: Directory, e: Directory, channel: ChannelId)
    ensures Info(d, channel).outcome == Info(e, channel).outcome <==>
              && (channel in d.subdata <==> channel in e.subdata)
              && (channel in d.subdata ==> d.subdata[channel].spotifyPlaylist == e.subdata[channel].spotifyPlaylist)
  {
  }
}
