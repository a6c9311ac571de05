/**
  The `purge` command (src/commands/purge.rs): drops every subscription the
  author made and reports how many there were.
 */
module PurgeCommand {
  import opened Data

  datatype PurgeOutcome =
    | NoPlaylists               // the author had no subscriptions
    | Purged(count: nat)

  /**
    `purge` as one step. `dmSent` is whether the direct message reporting
    the count was delivered: its `?` returns before the cache is written,
    so a failed message leaves the removal unsaved.
   */
  function Purge(d: Directory, author: UserId, dmSent: bool): (r: Transition<PurgeOutcome>)
    ensures SubsByDiscordUser(r.dir, author) == {}
    ensures forall k :: k in r.dir.subdata <==> k in d.subdata && d.subdata[k].discordUser != author
    ensures forall k :: k in r.dir.subdata ==> r.dir.subdata[k] == d.subdata[k]
    ensures r.dir.spotifyMap == d.spotifyMap
    ensures r.outcome.NoPlaylists? <==> forall k :: k in d.subdata ==> d.subdata[k].discordUser != author
    ensures r.outcome.NoPlaylists? ==> r.dir == d && !r.cacheWritten
    ensures r.outcome.Purged? ==> r.outcome.count == |SubsByDiscordUser(d, author)| > 0 && r.cacheWritten == dmSent
  {
    var subs := SubsByDiscordUser(d, author);
    if subs == {} then Transition(d, NoPlaylists, false)
    else Transition(Directory(d.subdata - subs, d.spotifyMap), Purged(|subs|), dmSent)
  }

  /** The count is the number of subscriptions that went away. */
  lemma PurgeCountsRemoved(d: Directory, author: UserId, dmSent: bool)
    requires Purge(d, author, dmSent).outcome.Purged?
    ensures Purge(d, author, dmSent).outcome.count == |d.subdata| - |Purge(d, author, dmSent).dir.subdata|
  {
  }

  /** A second purge right after the first finds nothing. */
  lemma PurgeIsIdempotent(d: Directory, author: UserId, dmSent: bool, dmSent': bool)
    ensures var once := Purge(d, author, dmSent);
            Purge(once.dir, author, dmSent') == Transition(once.dir, NoPlaylists, false)
  {
  }
}
