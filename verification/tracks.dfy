/**
  The track side of src/main.rs: finding a Spotify track link in a chat
  message (`search_spotify_link`) and turning it into the add request that
  `add_track` sends.
 */
module Tracks {
  import opened Wrappers
  import opened Strings
  import opened Util

  const TrackPrefix: string := "https://open.spotify.com/track/"
  const TrackUriPrefix: string := "spotify:track:"

  /** A token the scanner accepts: it starts with the track web prefix. */
  predicate IsTrackLink(token: string) {
    StartsWith(token, TrackPrefix)
  }

  /** A line quoted in Discord's markdown: its first character is `>`. */
  predicate IsQuoted(line: string) {
    StartsWith(line, ">")
  }

  /** The first track link of a token list, in order. */
  function FirstTrackLink(tokens: seq<string>): (r: Option<string>)
    ensures r.None? <==> forall k :: 0 <= k < |tokens| ==> !IsTrackLink(tokens[k])
    ensures r.Some? ==> exists k :: 0 <= k < |tokens| && tokens[k] == r.value && IsTrackLink(tokens[k])
                                   && forall j :: 0 <= j < k ==> !IsTrackLink(tokens[j])
    decreases |tokens|
  {
    if tokens == [] then None
    else if IsTrackLink(tokens[0]) then Some(tokens[0])
    else
      var r := FirstTrackLink(tokens[1..]);
      assert forall k :: 1 <= k < |tokens| ==> tokens[k] == tokens[1..][k - 1];
      r
  }

  /**
    The two nested loops of `search_spotify_link`: lines in order, quoted
    lines skipped, and within a line the words between single spaces.
   */
  function SearchLines(lines: seq<string>): (r: Option<string>)
    ensures r == FirstTrackLink(Candidates(lines))
    decreases |lines|
  {
    if lines == [] then None
    else
      var own := if IsQuoted(lines[0]) then [] else Split(lines[0], ' ');
      FirstTrackLinkAppend(own, Candidates(lines[1..]));
      if IsQuoted(lines[0]) then SearchLines(lines[1..])
      else
        match FirstTrackLink(Split(lines[0], ' '))
        case Some(t) => Some(t)
        case None => SearchLines(lines[1..])
  }

  /**
    Reference reading of the scan: every word of every unquoted line, in
    message order.
   */
  function Candidates(lines: seq<string>): seq<string>
    decreases |lines|
  {
    if lines == [] then []
    else (if IsQuoted(lines[0]) then [] else Split(lines[0], ' ')) + Candidates(lines[1..])
  }

  lemma {:induction false} FirstTrackLinkAppend(a: seq<string>, b: seq<string>)
    ensures FirstTrackLink(a + b) == if FirstTrackLink(a).Some? then FirstTrackLink(a) else FirstTrackLink(b)
    decreases |a|
  {
    if a == [] {
      assert a + b == b;
    } else {
      assert (a + b)[0] == a[0];
      assert (a + b)[1..] == a[1..] + b;
      FirstTrackLinkAppend(a[1..], b);
    }
  }

  /** Every candidate is a word of some unquoted line. */
  lemma {:induction false} CandidateOrigin(lines: seq<string>, k: nat)
    requires k < |Candidates(lines)|
    ensures exists i, j :: 0 <= i < |lines| && !IsQuoted(lines[i]) && 0 <= j < |Split(lines[i], ' ')|
                           && Split(lines[i], ' ')[j] == Candidates(lines)[k]
    decreases |lines|
  {
    var own := if IsQuoted(lines[0]) then [] else Split(lines[0], ' ');
    assert Candidates(lines) == own + Candidates(lines[1..]);
    if k < |own| {
      assert Split(lines[0], ' ')[k] == Candidates(lines)[k];
    } else {
      CandidateOrigin(lines[1..], k - |own|);
      var i, j :| 0 <= i < |lines[1..]| && !IsQuoted(lines[1..][i]) && 0 <= j < |Split(lines[1..][i], ' ')|
                  && Split(lines[1..][i], ' ')[j] == Candidates(lines[1..])[k - |own|];
      assert lines[1..][i] == lines[i + 1];
    }
  }

  /** A track link found by the scan occurs in the message. */
  lemma FoundLinkOccursInMessage(message: string)
    ensures FirstTrackLink(Candidates(Split(message, '\n'))).Some? ==> Contains(message, TrackPrefix)
  {
    var lines := Split(message, '\n');
    var cands := Candidates(lines);
    if FirstTrackLink(cands).Some? {
      var k :| 0 <= k < |cands| && IsTrackLink(cands[k]);
      CandidateOrigin(lines, k);
      var i, j :| 0 <= i < |lines| && !IsQuoted(lines[i]) && 0 <= j < |Split(lines[i], ' ')|
                  && Split(lines[i], ' ')[j] == cands[k];
      assert Contains(cands[k], TrackPrefix);
      PieceContains(lines[i], ' ', j, TrackPrefix);
      PieceContains(message, '\n', i, TrackPrefix);
    }
  }

  /** A link the scan finds is a word, free of spaces and line breaks, of an unquoted line. */
  lemma ScanResultFacts(message: string)
    ensures FirstTrackLink(Candidates(Split(message, '\n'))).Some? ==>
              var found := FirstTrackLink(Candidates(Split(message, '\n'))).value;
              && IsTrackLink(found) && ' ' !in found && '\n' !in found
              && exists i :: 0 <= i < |Split(message, '\n')| && !IsQuoted(Split(message, '\n')[i])
                             && found in Split(Split(message, '\n')[i], ' ')
  {
    var lines := Split(message, '\n');
    var cands := Candidates(lines);
    if FirstTrackLink(cands).Some? {
      var k :| 0 <= k < |cands| && cands[k] == FirstTrackLink(cands).value;
      CandidateOrigin(lines, k);
      var i, j :| 0 <= i < |lines| && !IsQuoted(lines[i]) && 0 <= j < |Split(lines[i], ' ')|
                  && Split(lines[i], ' ')[j] == cands[k];
      assert '\n' !in lines[i];
    }
  }

  /**
    `search_spotify_link`: the first word, in line-then-word order, of an
    unquoted line that starts with the track prefix. The early
    `contains` test only saves work: the answer is the scan's answer.
   */
  function SearchSpotifyLink(message: string): (r: Option<string>)
    ensures r == FirstTrackLink(Candidates(Split(message, '\n')))
    ensures !Contains(message, TrackPrefix) ==> r.None?
    ensures r.Some? ==> IsTrackLink(r.value) && ' ' !in r.value && '\n' !in r.value
    ensures r.Some? ==> exists i :: 0 <= i < |Split(message, '\n')| && !IsQuoted(Split(message, '\n')[i])
                                    && r.value in Split(Split(message, '\n')[i], ' ')
  {
    var lines := Split(message, '\n');
    FoundLinkOccursInMessage(message);
    ScanResultFacts(message);
    if !Contains(message, TrackPrefix) then None else SearchLines(lines)
  }

  /** The early `contains` test never changes the answer of the scan. */
  lemma EarlyCheckIsRedundant(message: string)
    ensures SearchSpotifyLink(message) == SearchLines(Split(message, '\n'))
  {
  }

  /**
    The track id of a link: `track.split('/').last()`, then `split('?').next()`,
    i.e. the text after the last `/` up to the first `?` of that segment.
   */
  function TrackId(track: string): (id: string)
    ensures '/' !in id && '?' !in id
    ensures exists seg :: AfterLast(track, '/', seg) && BeforeFirst(seg, '?', id)
  {
    var segs := Split(track, '/');
    var seg := segs[|segs| - 1];
    SplitLast(track, '/');
    SplitFirst(seg, '?');
    Split(seg, '?')[0]
  }

  /** The provider URI of a track link: `spotify:track:<id>`. */
  function TrackUri(track: string): (uri: string)
    ensures StartsWith(uri, TrackUriPrefix)
    ensures uri[|TrackUriPrefix|..] == TrackId(track)
  {
    TrackUriPrefix + TrackId(track)
  }

  /** A link built from an id (and an optional `?` query) yields that id back. */
  lemma {:induction false} TrackIdOfLink(id: string, query: string)
    requires '/' !in id && '?' !in id && '/' !in query
    ensures TrackId(TrackPrefix + id) == id
    ensures TrackId(TrackPrefix + id + "?" + query) == id
  {
    var plain := TrackPrefix + id;
    assert AfterLast(plain, '/', id) by {
      assert plain[|plain| - |id|..] == id;
      assert plain[|plain| - |id| - 1] == TrackPrefix[|TrackPrefix| - 1] == '/';
    }
    assert BeforeFirst(id, '?', id);
    var seg :| AfterLast(plain, '/', seg) && BeforeFirst(seg, '?', TrackId(plain));
    AfterLastUnique(plain, '/', seg, id);
    BeforeFirstUnique(id, '?', TrackId(plain), id);

    var tail := id + "?" + query;
    var full := TrackPrefix + tail;
    assert full == TrackPrefix + id + "?" + query;
    assert '/' !in tail by {
      assert forall x :: x in tail ==> x in id || x == '?' || x in query;
    }
    assert AfterLast(full, '/', tail) by {
      assert full[|full| - |tail|..] == tail;
      assert full[|full| - |tail| - 1] == TrackPrefix[|TrackPrefix| - 1] == '/';
    }
    assert BeforeFirst(tail, '?', id) by {
      assert tail[..|id|] == id;
      assert tail[|id|] == '?';
    }
    var seg' :| AfterLast(full, '/', seg') && BeforeFirst(seg', '?', TrackId(full));
    AfterLastUnique(full, '/', seg', tail);
    BeforeFirstUnique(tail, '?', TrackId(full), id);
  }

  const ExampleWords: seq<string> := ["check", "this", "out"]
  const ExampleQuotedLink: string := "> https://open.spotify.com/track/AAA"
  const ExampleLink: string := "https://open.spotify.com/track/BBB"
  const ExampleLines: seq<string> := [Join(ExampleWords, ' '), ExampleQuotedLink, ExampleLink]
  /** "check this out", then a quoted track link, then an unquoted one, on three lines. */
  const ExampleMessage: string := Join(ExampleLines, '\n')

  /**
    A message of a plain line of words without a link, then a quoted line,
    then an unquoted track link: the scan passes over the quoted line and
    returns the link on the third line.
   */
  lemma {:induction false} QuotedLineIsSkipped(words: seq<string>, quoted: string, link: string)
    requires |words| >= 1
    requires forall i :: 0 <= i < |words| ==> ' ' !in words[i] && '\n' !in words[i] && !IsTrackLink(words[i])
    requires !IsQuoted(words[0])
    requires IsQuoted(quoted) && '\n' !in quoted
    requires IsTrackLink(link) && ' ' !in link && '\n' !in link
    ensures SearchSpotifyLink(Join([Join(words, ' '), quoted, link], '\n')) == Some(link)
  {
    var plain := Join(words, ' ');
    var lines := [plain, quoted, link];
    assert '\n' !in plain by {
      if '\n' in plain {
        JoinChars(words, ' ', '\n');
        assert false;
      }
    }
    SplitJoin(lines, '\n');
    SplitJoin(words, ' ');
    SplitWithout(link, ' ');
    assert !IsQuoted(plain) by {
      if |words| > 1 {
        assert plain == words[0] + ([' '] + Join(words[1..], ' '));
        if words[0] != [] {
          assert plain[..1] == words[0][..1];
        } else {
          assert plain[0] == ' ';
        }
      }
    }
    assert lines[1..] == [quoted, link];
    assert lines[1..][1..] == [link];
    assert Candidates([link]) == [link] + Candidates([]);
    assert Candidates(lines) == words + [link];
    FirstTrackLinkAppend(words, [link]);
  }

  /** The same, on the message "check this out" / "> …/track/AAA" / "…/track/BBB". */
  lemma ExampleMessageYieldsUnquotedLink()
    ensures SearchSpotifyLink(ExampleMessage) == Some(ExampleLink)
  {
    assert ExampleWords[0][..1] == "c";
    assert ExampleQuotedLink[0] == '>';
    assert ExampleQuotedLink[..1] == [ExampleQuotedLink[0]];
    QuotedLineIsSkipped(ExampleWords, ExampleQuotedLink, ExampleLink);
  }

  /** The request `user_playlist_add_tracks` is called with. */
  datatype AddRequest = AddRequest(credential: Credential, user: string, playlist: string,
                                   trackUris: seq<string>, position: nat)

  datatype AddTrackResult =
    | NotATrack                 // the link failed the prefix test: nothing is sent
    | LookupPanicked            // `track_data.unwrap()` on a failed track lookup
    | Requested(request: AddRequest)

  /**
    `add_track`. `trackFound` is whether the track lookup `spotify.track`
    succeeded; its result is unwrapped before the add request is sent.
    Whether the add itself succeeds is only logged, so it is not modelled.
   */
  function AddTrack(cred: Credential, user: string, playlist: string, track: string,
                    trackFound: bool): (r: AddTrackResult)
    ensures r.NotATrack? <==> !IsTrackLink(track)
    ensures r.LookupPanicked? <==> IsTrackLink(track) && !trackFound
    ensures r.Requested? ==>
              && r.request.credential == cred && r.request.user == user && r.request.playlist == playlist
              && |r.request.trackUris| == 1 && r.request.position == 0
              && StartsWith(r.request.trackUris[0], TrackUriPrefix)
              && r.request.trackUris[0][|TrackUriPrefix|..] == TrackId(track)
  {
    if !IsTrackLink(track) then NotATrack
    else if !trackFound then LookupPanicked
    else Requested(AddRequest(cred, user, playlist, [TrackUri(track)], 0))
  }
}
