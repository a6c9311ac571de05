/**
  The `unlink` command (src/commands/unlink.rs): drops the author's
  subscriptions and then their credential.
 */
module UnlinkCommand {
  import opened Data

  datatype UnlinkOutcome =
    | Unlinked                  // the credential was removed
    | NotLinked                 // there was no credential to remove

  /**
    `unlink` as one step. The subscriptions go in every case, but only the
    removal of a credential writes the cache.
   */
  function Unlink(d: Directory, author: UserId): (r: Transition<UnlinkOutcome>)
    ensures SubsByDiscordUser(r.dir, author) == {}
    ensures forall k :: k in r.dir.subdata <==> k in d.subdata && d.subdata[k].discordUser != author
    ensures forall k :: k in r.dir.subdata ==> r.dir.subdata[k] == d.subdata[k]
    ensures author !in r.dir.spotifyMap
    ensures forall u :: u != author ==> (u in r.dir.spotifyMap <==> u in d.spotifyMap)
    ensures forall u :: u in r.dir.spotifyMap ==> r.dir.spotifyMap[u] == d.spotifyMap[u]
    ensures r.outcome.Unlinked? <==> author in d.spotifyMap
    ensures r.cacheWritten <==> author in d.spotifyMap
  {
    var subdata := d.subdata - SubsByDiscordUser(d, author);
    if author in d.spotifyMap then
      Transition(Directory(subdata, d.spotifyMap - {author}), Unlinked, true)
    else
      Transition(Directory(subdata, d.spotifyMap), NotLinked, false)
  }
}
