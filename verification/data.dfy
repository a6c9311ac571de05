/**
  The bot's shared state (`ThissyData` in src/main.rs): per-channel
  subscriptions and per-user credentials, together with the shape every
  command and the message hook return.
 */
module Data {
  import opened Util

  /** A Discord user id (a `u64` in the source; no arithmetic is done on it). */
  type UserId = nat
  /** A Discord channel id (a `u64` in the source). */
  type ChannelId = nat

  /** `SubscribeData`: who set up the channel, and which Spotify user's playlist it feeds. */
  datatype SubscribeData = SubscribeData(discordUser: UserId, spotifyUser: string, spotifyPlaylist: string)

  /** `ThissyData`: channel subscriptions and the credentials of linked users. */
  datatype Directory = Directory(subdata: map<ChannelId, SubscribeData>, spotifyMap: map<UserId, Credential>)

  /** The directory the bot starts from when there is no cache file. */
  const Empty: Directory := Directory(map[], map[])

  /**
    One handler run as one atomic step: the directory afterwards, what the
    handler reports, and whether it wrote the cache file (`update_cache`).
   */
  datatype Transition<+O> = Transition(dir: Directory, outcome: O, cacheWritten: bool)

  /**
    `get_subs_by_discord_user`, which is not part of this model: taken to be
    the channels whose subscription was made by `u`.
   */
  function SubsByDiscordUser(d: Directory, u: UserId): (keys: set<ChannelId>)
    ensures forall k :: k in keys <==> k in d.subdata && d.subdata[k].discordUser == u
  {
    set k | k in d.subdata && d.subdata[k].discordUser == u
  }

  /**
    The `for key in subs { subdata.remove(&key) }` loop of the unlink and
    purge commands, run over the keys in the order they are listed.
   */
  method RemoveKeys(subdata: map<ChannelId, SubscribeData>, keys: seq<ChannelId>)
    returns (m: map<ChannelId, SubscribeData>)
    ensures forall k :: k in m <==> k in subdata && k !in keys
    ensures forall k :: k in m ==> m[k] == subdata[k]
    ensures m == subdata - (set k | k in keys)
  {
    m := subdata;
    var i := 0;
    while i < |keys|
      invariant 0 <= i <= |keys|
      invariant forall k :: k in m <==> k in subdata && k !in keys[..i]
      invariant forall k :: k in m ==> m[k] == subdata[k]
    {
      m := m - {keys[i]};
      assert keys[..i + 1] == keys[..i] + [keys[i]];
      i := i + 1;
    }
    assert keys[..i] == keys;
    assert m.Keys == (subdata - (set k | k in keys)).Keys;
  }

  /**
    The loop as the commands run it: the keys `get_subs_by_discord_user`
    lists for `u`, in whatever order they come, removed one by one.
   */
  method RemoveSubsOf(d: Directory, u: UserId) returns (subdata: map<ChannelId, SubscribeData>)
    ensures subdata == d.subdata - SubsByDiscordUser(d, u)
  {
    var rest := SubsByDiscordUser(d, u);
    var keys: seq<ChannelId> := [];
    while rest != {}
      invariant rest !! (set k | k in keys)
      invariant rest + (set k | k in keys) == SubsByDiscordUser(d, u)
      decreases |rest|
    {
      var k :| k in rest;
      keys := keys + [k];
      rest := rest - {k};
    }
    subdata := RemoveKeys(d.subdata, keys);
  }
}
