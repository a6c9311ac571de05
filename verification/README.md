# listentothissy, modelled in Dafny

listentothissy is a Discord bot that links a Discord user to a Spotify
account, lets a linked user subscribe a text channel to one of their
playlists, and adds every Spotify track link posted in a subscribed channel
to that playlist. This project models the bot's directory (`ThissyData`:
channel subscriptions plus per-user Spotify credentials) and the pure
decisions the command handlers (`link`, `follow`, `unlink`, `purge`, `info`)
and the message hook (`normal_message`) make over it. It also models the
string and clock helpers those decisions rest on.

Every handler is a total function
`(Directory, inputs, upstream answers) -> Transition(dir', outcome, cacheWritten)`.
Everything that comes from Spotify, the clock or the random generator is a
parameter: the `process_token` result, the `me()` and `current_user` answers,
the resolved playlist id, the token endpoint's reply, the clock reading `now`,
the track lookup's success, and the effect of the token check in the hook.
An `.unwrap()` that would panic becomes an outcome of its own, and the
directory stays as it was at that point. Whether the cache file was
rewritten is the `cacheWritten` flag.

Files and modules:

- `wrappers.dfy` (`Wrappers`): `Option`.
- `strings.dfy` (`Strings`): `starts_with`, `ends_with`, `contains` and `split(char)` on `&str`, with split/join round trips and the first-piece and last-piece facts.
- `util.dfy` (`Util`): the credential record, `is_valid_token` with its 10-second skew, `get_refresh_credentials`, `create_spotify_playlist_link`.
- `data.dfy` (`Data`): `SubscribeData`, the `Directory`, the handler result `Transition`, `get_subs_by_discord_user`, and the key-removal loop.
- `tracks.dfy` (`Tracks`): `search_spotify_link`, the track id and URI, `add_track`.
- `message_hook.dfy` (`MessageHook`): `normal_message`.
- `follow.dfy`, `link.dfy`, `unlink.dfy`, `purge.dfy`, `info.dfy`: one module per command.
- `scenario.dfy` (`Scenario`): link, follow, forward, purge and unlink run in sequence.

Behaviour kept as the code has it:

- `follow` refreshes a stale token before it checks the argument's format. So a malformed argument can cost a refresh, and a panicking refresh comes before the format error.
- `follow` uses the refreshed credential for its Spotify calls but never stores it (src/commands/follow.rs:20-23). The stored credential is left as it was.
- The message hook uses the credential of the message's author (src/main.rs:118), not the credential of the user who made the subscription.
- `unlink` removes the author's subscriptions even when the author is not linked. In that case the cache is not written.
- `link` with an argument overwrites an existing credential rather than refusing.

Two functions are called but defined in none of the modelled files (src/main.rs, src/util.rs):

- `get_subs_by_discord_user` is assumed to return the channels whose subscription has `discord_user == u`. It is modelled as a set, so `purge`'s count is that set's size.
- `check_update_token` is assumed to overwrite the author's stored credential when it refreshes, and to return whether it did. This is modelled as `TokenCheck = Unchanged | Refreshed(cred)`.

## Model

| member | source | states |
|---|---|---|
| Strings.Split | src/main.rs:149-151 | `split(c)` yields at least one piece, no piece contains `c`, and every character of a piece comes from the input |
| Strings.JoinSplit | src/main.rs:149 | joining the pieces of a split with the separator gives back the original message |
| Strings.SplitJoin | src/main.rs:151 | splitting pieces that have no separator, once they are joined, gives the same pieces back |
| Strings.SplitFirst | src/main.rs:172 | `split('?').next()` is the text before the first `?`, or the whole string when it has no `?` |
| Strings.SplitLast | src/main.rs:172 | `split('/').last()` is the text after the last `/`, or the whole string when it has no `/` |
| Strings.PieceContains | src/main.rs:144-153 | text found inside one piece of a split also occurs in the string that was split |
| Strings.BeforeFirstUnique | src/main.rs:172 | there is only one text before the first separator |
| Strings.AfterLastUnique | src/main.rs:172 | there is only one text after the last separator |
| Util.IsValidToken | src/util.rs:12-18 | a token is valid exactly when more than 10 seconds remain before its expiry at `now`; a valid token has not expired |
| Util.ValidityIsMonotone | src/util.rs:12-18 | a token that is valid at `now` is also valid at every earlier time |
| Util.SkewIsRespected | src/util.rs:17 | a token that expires at or before `now + 10` is not valid |
| Util.GetRefreshCredentials | src/util.rs:20-39 | a refresh gives the endpoint's new credential; a missing refresh token or a failed endpoint call is a panic (None); the stored credential is only read |
| Util.CreateSpotifyPlaylistLink | src/util.rs:41-43 | the link starts with the playlist web prefix and ends with the id; it is exactly prefix plus id long, and the id follows the prefix |
| Util.PlaylistLinkInjective | src/util.rs:41-43 | different playlist ids give different links |
| Data.SubsByDiscordUser | src/commands/purge.rs:16 | assumed: a channel is in the set exactly when it has a subscription made by the user |
| Data.RemoveKeys | src/commands/unlink.rs:20-22 | the removal loop keeps exactly the entries whose key is not listed, and keeps their values; the result is the map minus the listed keys |
| Data.RemoveSubsOf | src/commands/unlink.rs:19-22 | listing the user's subscriptions and removing them one by one leaves the subscriptions minus that user's |
| Tracks.FirstTrackLink | src/main.rs:151-155 | the inner loop returns the first word that starts with the track prefix; it returns None only when no word does |
| Tracks.FirstTrackLinkAppend | src/main.rs:149-157 | scanning two word lists in a row finds the first list's link, and falls back to the second list's |
| Tracks.SearchLines | src/main.rs:148-158 | the nested line and word loops give the first track link among the words of the unquoted lines, in order |
| Tracks.CandidateOrigin | src/main.rs:148-151 | every candidate word comes from a line whose first character is not `>` |
| Tracks.FoundLinkOccursInMessage | src/main.rs:144-153 | if the scan finds a link, the message contains the track prefix |
| Tracks.ScanResultFacts | src/main.rs:148-153 | a found link starts with the track prefix, has no space and no line break, and is a word of an unquoted line |
| Tracks.SearchSpotifyLink | src/main.rs:143-159 | without the track prefix the result is None; the result is the first track link among the words of the unquoted lines; a result has no space or line break and comes from an unquoted line |
| Tracks.EarlyCheckIsRedundant | src/main.rs:144-157 | the early `contains` test never changes the answer of the line scan |
| Tracks.QuotedLineIsSkipped | src/main.rs:148-150 | a track link on a quoted line is passed over, and a later unquoted link is returned |
| Tracks.ExampleMessageYieldsUnquotedLink | src/main.rs:148-153 | for "check this out", then a quoted `AAA` link, then a `BBB` link, the result is the `BBB` link |
| Tracks.TrackId | src/main.rs:172 | the id has no `/` or `?`; it is the text before the first `?` of the text after the last `/` |
| Tracks.TrackUri | src/main.rs:173 | the URI is `spotify:track:` followed by the track id |
| Tracks.TrackIdOfLink | src/main.rs:172-173 | a link made of the prefix and an id, with or without a `?` query, gives that id back |
| Tracks.AddTrack | src/main.rs:165-186 | nothing is sent unless the link starts with the track prefix; a failed track lookup panics; otherwise one request with a single track URI at position 0 |
| MessageHook.NormalMessage | src/main.rs:102-140 | no add and no cache write when the channel has no subscription, no link is found, or the author has no credential; otherwise exactly one add request, or the lookup panic when the track lookup fails; the credential used is the author's; subscriptions never change; the cache is written exactly when a refresh happened and the add request was sent |
| MessageHook.OrphanedSubscriptionUsesAuthor | src/main.rs:111-127 | a subscription whose maker is unlinked still forwards a linked author's link, with that author's credential |
| FollowCommand.Follow | src/commands/follow.rs:12-71 | an unlinked author, a panicking refresh, a bad format, a failed `me()`, a failed playlist lookup or a non-owned playlist each leave the directory unchanged with no cache write, and each outcome occurs exactly in its own case; on success the channel's entry becomes (author, account id, playlist id) and the cache is written; the credential map never changes; a refresh is attempted exactly when the token is stale |
| FollowCommand.RefreshPrecedesFormatCheck | src/commands/follow.rs:20-31 | whether a refresh happens does not depend on the argument, and a failed refresh comes before the format check |
| LinkCommand.GenerateRandomString | src/commands/link.rs:34 | the state string has the requested length |
| LinkCommand.Link | src/commands/link.rs:17-79 | with no argument: AlreadyLinked or an auth URL with a 16-character state, and no change; with an argument: a failed exchange or profile call changes nothing; success stores the credential under the author, writes the cache and greets by display name or id; subscriptions never change |
| LinkCommand.RelinkOverwrites | src/commands/link.rs:48-66 | linking again replaces the author's credential and leaves other users' credentials alone |
| UnlinkCommand.Unlink | src/commands/unlink.rs:14-34 | afterwards the author has no subscriptions and no credential; other users' subscriptions and credentials are unchanged; the cache is written exactly when the author had a credential |
| PurgeCommand.Purge | src/commands/purge.rs:12-31 | afterwards the author has no subscriptions, and everything else is unchanged; with nothing to purge the outcome is NoPlaylists and nothing changes; otherwise the count is the number of the author's subscriptions |
| PurgeCommand.PurgeCountsRemoved | src/commands/purge.rs:23-26 | the reported count is the number of entries the purge removed |
| PurgeCommand.PurgeIsIdempotent | src/commands/purge.rs:16-21 | a second purge right after the first finds nothing and changes nothing |
| InfoCommand.Info | src/commands/info.rs:11-26 | the directory is never changed; a subscribed channel gets its playlist's web link, and any other channel gets the no-playlist reply |
| InfoCommand.InfoDependsOnlyOnChannel | src/commands/info.rs:15-22 | two directories give the same reply exactly when they agree on whether the channel has a subscription and on its playlist |
| Scenario.LinkThenFollow | src/commands/follow.rs:16-53 | from an empty directory, a completed link and then a follow of one's own playlist with a fresh token create exactly that subscription |
| Scenario.FollowForwardPurge | src/main.rs:111-127 | a linked user with a fresh token follows their own playlist; the track link they post then gives one add request, of its URI at position 0, into that playlist; after a purge, the channel ignores every message |
| Scenario.RemovalLoopMatchesCommands | src/commands/purge.rs:16-26 | running the removal loop over the user's subscriptions gives exactly the subscriptions `unlink` and `purge` leave |
| Scenario.UnlinkSilencesUser | src/commands/unlink.rs:19-26 | after an unlink, the user's channels forward nothing and the hook writes no cache |

## Left out

- The Discord framework and message delivery: command parsing, DMs and replies, and their text (src/main.rs:55-94). Outcomes are enum values.
- Failed DMs: a failed DM is not modelled, except in `purge`, where the `?` on the DM returns before the cache is written (the `dmSent` parameter).
- rspotify OAuth and HTTP: `SpotifyOAuth`, `process_token`, `me`, `current_user`, `user_playlist`, `track`, `user_playlist_add_tracks` and `refresh_access_token`. Their answers are parameters.
- The result of `user_playlist_add_tracks`: it is only logged (src/main.rs:177-184).
- `user_playlist` receives the playlist argument as `&mut`. The model assumes it does not change the argument.
- JSON persistence: `update_cache` (src/util.rs:7-10) is only the `cacheWritten` flag. Loading the cache at startup (src/main.rs:76-86) is left out, except for the empty directory used when no file exists (`Data.Empty`). The panic on a corrupt cache is left out too.
- The system clock: `now` is a parameter. The `u64` to `i64` cast in src/util.rs:17 is not modelled, and neither are the `unwrap`s on the client's token information there, because a modelled credential always has an expiry.
- Discord ids are `u64` in the source and unbounded naturals here, because nothing does arithmetic on them.
- The RwLock and async scheduling: each handler is one atomic step.
- Random state generation: only its length is modelled, and the characters come from the `draw` parameter. The authorisation URL itself is not built.
- The empty `update` test command (src/main.rs:192-201).
- `check_update_token` and `get_subs_by_discord_user` are not part of this model. The definitions above are assumptions.
