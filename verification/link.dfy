/**
  The `link` command (src/commands/link.rs): without an argument it hands
  out the Spotify authorisation URL, with one it completes the OAuth
  exchange and stores the user's credential.
 */
module LinkCommand {
  import opened Wrappers
  import opened Util
  import opened Data

  /** Length of the OAuth `state` value put in the authorisation URL. */
  const StateLength: nat := 16

  /** The account data `current_user` returns. */
  datatype Profile = Profile(id: string, displayName: Option<string>)

  datatype LinkOutcome =
    | AlreadyLinked             // no argument, and the author has a credential
    | AuthUrl(state: string)    // no argument: the authorisation URL carries this state
    | Linked(welcomeName: string)
    | ProfilePanicked           // `current_user().unwrap()` on a failed profile call
    | LinkFailed                // `process_token` could not turn the argument into a token

  /**
    `generate_random_string`, with the randomness as a parameter: `draw(i)`
    is the i-th character the generator picks.
   */
  function GenerateRandomString(length: nat, draw: nat -> char): (s: string)
    ensures |s| == length
    ensures forall i :: 0 <= i < length ==> s[i] == draw(i)
  {
    seq(length, (i: int) requires 0 <= i => draw(i))
  }

  /**
    `link` as one step. `arg` is the text after the command, `draw` the
    random source, `processed` what `process_token` made of the argument
    and `profile` the answer of `current_user`.
   */
  function Link(d: Directory, author: UserId, arg: string, draw: nat -> char,
                processed: Option<Credential>, profile: Option<Profile>): (r: Transition<LinkOutcome>)
    ensures r.dir.subdata == d.subdata
    ensures arg == [] && author in d.spotifyMap ==> r == Transition(d, AlreadyLinked, false)
    ensures arg == [] && author !in d.spotifyMap ==> r.dir == d && !r.cacheWritten && r.outcome.AuthUrl?
    ensures r.outcome.AuthUrl? ==> |r.outcome.state| == StateLength
    ensures arg != [] && processed.None? ==> r == Transition(d, LinkFailed, false)
    ensures arg != [] && processed.Some? && profile.None? ==> r == Transition(d, ProfilePanicked, false)
    ensures r.outcome.Linked? <==> arg != [] && processed.Some? && profile.Some?
    ensures r.outcome.Linked? ==>
              && r.dir.spotifyMap == d.spotifyMap[author := processed.value]
              && r.outcome.welcomeName == profile.value.displayName.GetOr(profile.value.id)
    ensures r.cacheWritten <==> r.outcome.Linked?
    ensures !r.outcome.Linked? ==> r.dir == d
  {
    if arg == [] then
      if author in d.spotifyMap then Transition(d, AlreadyLinked, false)
      else Transition(d, AuthUrl(GenerateRandomString(StateLength, draw)), false)
    else
      match processed
      case None => Transition(d, LinkFailed, false)
      case Some(cred) =>
        match profile
        case None => Transition(d, ProfilePanicked, false)
        case Some(user) =>
          Transition(Directory(d.subdata, d.spotifyMap[author := cred]),
                     Linked(user.displayName.GetOr(user.id)), true)
  }

  /**
    Completing a link for an author who is already linked replaces the old
    credential rather than refusing; other users' credentials stay.
   */
  lemma RelinkOverwrites(d: Directory, author: UserId, arg: string, draw: nat -> char,
                         cred: Credential, profile: Profile)
    requires author in d.spotifyMap && arg != []
    ensures var r := Link(d, author, arg, draw, Some(cred), Some(profile));
            && r.dir.spotifyMap[author] == cred
            && r.dir.spotifyMap.Keys == d.spotifyMap.Keys
            && forall u :: u in d.spotifyMap && u != author ==> r.dir.spotifyMap[u] == d.spotifyMap[u]
  {
  }
}
