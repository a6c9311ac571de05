/**
  The helpers of src/util.rs: token validity against a clock reading, the
  refresh of a credential, and the playlist web link.
 */
module Util {
  import opened Wrappers
  import opened Strings

  /**
    What the bot keeps per linked account. The rspotify client object is
    reduced to the token information it carries: the access token, the
    optional refresh token and the absolute expiry time in seconds.
   */
  datatype Credential = Credential(accessToken: string, refreshToken: Option<string>, expiresAt: int)

  /** Seconds of slack before expiry under which a token already counts as stale. */
  const SkewSeconds: int := 10

  const PlaylistLinkPrefix: string := "https://open.spotify.com/playlist/"

  /**
    `is_valid_token`, with the clock reading `now` (seconds since the epoch)
    passed in: the token must outlive `now` by more than the skew.
   */
  function IsValidToken(now: nat, cred: Credential): (valid: bool)
    ensures valid <==> cred.expiresAt - now > SkewSeconds
    ensures valid ==> now < cred.expiresAt
  {
    now + SkewSeconds < cred.expiresAt
  }

  /** A token valid at some time was valid at every earlier time. */
  lemma ValidityIsMonotone(now: nat, earlier: nat, cred: Credential)
    requires earlier <= now
    requires IsValidToken(now, cred)
    ensures IsValidToken(earlier, cred)
  {
  }

  /** Within the skew window, or past expiry, a token is not valid. */
  lemma SkewIsRespected(now: nat, cred: Credential)
    requires cred.expiresAt <= now + SkewSeconds
    ensures !IsValidToken(now, cred)
  {
  }

  /**
    `get_refresh_credentials`: builds a new credential from the token
    endpoint's answer for the stored refresh token. `answer` is that
    endpoint's reply (None when the request failed). The Rust code unwraps
    both the stored refresh token and the reply, so either one missing is a
    panic, here None. The stored credential is only read: the result is a
    fresh value and the caller decides whether to keep it.
   */
  function GetRefreshCredentials(stored: Credential, answer: Option<Credential>): (r: Option<Credential>)
    ensures r.Some? <==> stored.refreshToken.Some? && answer.Some?
    ensures r.Some? ==> r.value == answer.value
  {
    if stored.refreshToken.None? then None
    else if answer.None? then None
    else Some(answer.value)
  }

  /** `create_spotify_playlist_link`: the web link of a playlist id. */
  function CreateSpotifyPlaylistLink(uri: string): (link: string)
    ensures StartsWith(link, PlaylistLinkPrefix)
    ensures EndsWith(link, uri)
    ensures |link| == |PlaylistLinkPrefix| + |uri|
    ensures link[|PlaylistLinkPrefix|..] == uri
  {
    PlaylistLinkPrefix + uri
  }

  /** Different playlist ids give different links, so a link names its playlist. */
  lemma PlaylistLinkInjective(u: string, v: string)
    requires CreateSpotifyPlaylistLink(u) == CreateSpotifyPlaylistLink(v)
    ensures u == v
  {
  }
}
