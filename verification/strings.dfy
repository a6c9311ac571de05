/**
  The few operations on Rust `&str` values the bot relies on: `starts_with`,
  `ends_with`, `contains` and `split` on a single character, with the facts
  about them that the rest of the model needs.
 */
module Strings {

  /** `s.starts_with(p)` */
  predicate StartsWith(s: string, p: string) {
    |p| <= |s| && s[..|p|] == p
  }

  /** `s.ends_with(p)` */
  predicate EndsWith(s: string, p: string) {
    |p| <= |s| && s[|s| - |p|..] == p
  }

  /** `s.contains(p)`: `p` occurs at some offset of `s`. */
  predicate Contains(s: string, p: string)
    decreases |s|
  {
    StartsWith(s, p) || (s != [] && Contains(s[1..], p))
  }

  lemma {:induction false} ContainsInRight(a: string, b: string, p: string)
    requires Contains(b, p)
    ensures Contains(a + b, p)
    decreases |a|
  {
    if a == [] {
      assert a + b == b;
    } else {
      assert (a + b)[1..] == a[1..] + b;
      ContainsInRight(a[1..], b, p);
    }
  }

  lemma {:induction false} ContainsInLeft(a: string, b: string, p: string)
    requires Contains(a, p)
    ensures Contains(a + b, p)
    decreases |a|
  {
    if StartsWith(a, p) {
      assert (a + b)[..|p|] == a[..|p|];
    } else {
      assert (a + b)[1..] == a[1..] + b;
      ContainsInLeft(a[1..], b, p);
    }
  }

  /**
    `s.split(c)` collected into a sequence. Like Rust's iterator it always
    yields at least one piece: an empty string splits into one empty piece,
    and a separator at either end gives an empty piece there.
   */
  function Split(s: string, c: char): (parts: seq<string>)
    ensures |parts| >= 1
    ensures forall i :: 0 <= i < |parts| ==> c !in parts[i]
    ensures forall i, x :: 0 <= i < |parts| && x in parts[i] ==> x in s
    decreases |s|
  {
    if s == [] then [[]]
    else if s[0] == c then
      var rest := Split(s[1..], c);
      assert forall i :: 1 <= i <= |rest| ==> ([[]] + rest)[i] == rest[i - 1];
      assert forall x :: x in s[1..] ==> x in s;
      [[]] + rest
    else
      var rest := Split(s[1..], c);
      assert forall x :: x in s[1..] ==> x in s;
      assert forall i :: 1 <= i < |rest| ==> ([[s[0]] + rest[0]] + rest[1..])[i] == rest[i];
      [[s[0]] + rest[0]] + rest[1..]
  }

  /** Puts the pieces back together with `c` between neighbours (`parts.join(c)`). */
  function Join(parts: seq<string>, c: char): string
    decreases |parts|
  {
    if |parts| == 0 then []
    else if |parts| == 1 then parts[0]
    else parts[0] + [c] + Join(parts[1..], c)
  }

  /** Joining after an empty first piece starts with the separator. */
  lemma JoinAfterEmpty(rest: seq<string>, c: char)
    requires |rest| >= 1
    ensures Join([[]] + rest, c) == [c] + Join(rest, c)
  {
    assert ([[]] + rest)[1..] == rest;
  }

  /** Putting a character in front of the first piece puts it in front of the join. */
  lemma JoinExtendFirst(x: char, rest: seq<string>, c: char)
    requires |rest| >= 1
    ensures Join([[x] + rest[0]] + rest[1..], c) == [x] + Join(rest, c)
  {
    var parts := [[x] + rest[0]] + rest[1..];
    if |rest| > 1 {
      assert parts[1..] == rest[1..];
    }
  }

  /** Splitting loses nothing: joining the pieces gives back the string. */
  lemma {:induction false} JoinSplit(s: string, c: char)
    ensures Join(Split(s, c), c) == s
    decreases |s|
  {
    if s != [] {
      JoinSplit(s[1..], c);
      var rest := Split(s[1..], c);
      if s[0] == c {
        JoinAfterEmpty(rest, c);
      } else {
        JoinExtendFirst(s[0], rest, c);
      }
      assert s == [s[0]] + s[1..];
    }
  }

  /** A string free of `c` is a single piece. */
  lemma {:induction false} SplitWithout(s: string, c: char)
    requires c !in s
    ensures Split(s, c) == [s]
    decreases |s|
  {
    if s != [] {
      SplitWithout(s[1..], c);
      assert [s[0]] + s[1..] == s;
    }
  }

  /** Splitting at the first separator: the part before it is the first piece. */
  lemma {:induction false} SplitAtSeparator(a: string, b: string, c: char)
    requires c !in a
    ensures Split(a + [c] + b, c) == [a] + Split(b, c)
    decreases |a|
  {
    var s := a + [c] + b;
    if a == [] {
      assert s[0] == c && s[1..] == b;
    } else {
      assert s[0] == a[0];
      assert s[1..] == a[1..] + [c] + b;
      SplitAtSeparator(a[1..], b, c);
      assert [a[0]] + a[1..] == a;
    }
  }

  /** Splitting undoes joining when no piece holds the separator. */
  lemma {:induction false} SplitJoin(parts: seq<string>, c: char)
    requires |parts| >= 1
    requires forall i :: 0 <= i < |parts| ==> c !in parts[i]
    ensures Split(Join(parts, c), c) == parts
    decreases |parts|
  {
    if |parts| == 1 {
      SplitWithout(parts[0], c);
    } else {
      SplitJoin(parts[1..], c);
      SplitAtSeparator(parts[0], Join(parts[1..], c), c);
      assert [parts[0]] + parts[1..] == parts;
    }
  }

  /** Every character of a joined string is the separator or comes from a piece. */
  lemma {:induction false} JoinChars(parts: seq<string>, c: char, x: char)
    requires x in Join(parts, c)
    ensures x == c || exists i :: 0 <= i < |parts| && x in parts[i]
    decreases |parts|
  {
    if |parts| > 1 {
      if x in parts[0] {
      } else if x != c {
        assert x in Join(parts[1..], c);
        JoinChars(parts[1..], c, x);
        var i :| 0 <= i < |parts[1..]| && x in parts[1..][i];
        assert x in parts[i + 1];
      }
    }
  }

  /** A text occurring in one piece occurs in the joined string. */
  lemma {:induction false} ContainsJoin(parts: seq<string>, c: char, i: nat, p: string)
    requires i < |parts|
    requires Contains(parts[i], p)
    ensures Contains(Join(parts, c), p)
    decreases |parts|
  {
    if |parts| == 1 {
    } else if i == 0 {
      ContainsInLeft(parts[0], [c] + Join(parts[1..], c), p);
      assert parts[0] + [c] + Join(parts[1..], c) == parts[0] + ([c] + Join(parts[1..], c));
    } else {
      ContainsJoin(parts[1..], c, i - 1, p);
      ContainsInRight(parts[0] + [c], Join(parts[1..], c), p);
    }
  }

  /** A text occurring in one piece of `s` occurs in `s`. */
  lemma PieceContains(s: string, c: char, i: nat, p: string)
    requires i < |Split(s, c)|
    requires Contains(Split(s, c)[i], p)
    ensures Contains(s, p)
  {
    ContainsJoin(Split(s, c), c, i, p);
    JoinSplit(s, c);
  }

  /** `t` is the text of `s` before the first `c` (all of `s` when there is none). */
  predicate BeforeFirst(s: string, c: char, t: string) {
    StartsWith(s, t) && c !in t && (|t| == |s| || s[|t|] == c)
  }

  /** `t` is the text of `s` after the last `c` (all of `s` when there is none). */
  predicate AfterLast(s: string, c: char, t: string) {
    EndsWith(s, t) && c !in t && (|t| == |s| || s[|s| - |t| - 1] == c)
  }

  lemma BeforeFirstUnique(s: string, c: char, t: string, u: string)
    requires BeforeFirst(s, c, t) && BeforeFirst(s, c, u)
    ensures t == u
  {
  }

  lemma AfterLastUnique(s: string, c: char, t: string, u: string)
    requires AfterLast(s, c, t) && AfterLast(s, c, u)
    ensures t == u
  {
  }

  /** The first piece of a split is the text before the first separator (`split(c).next()`). */
  lemma {:induction false} SplitFirst(s: string, c: char)
    ensures BeforeFirst(s, c, Split(s, c)[0])
    decreases |s|
  {
    if s != [] && s[0] != c {
      SplitFirst(s[1..], c);
      var r := Split(s[1..], c)[0];
      assert Split(s, c)[0] == [s[0]] + r;
      assert s == [s[0]] + s[1..];
    }
  }

  lemma {:induction false} JoinLast(parts: seq<string>, c: char)
    requires |parts| >= 2
    ensures Join(parts, c) == Join(parts[..|parts| - 1], c) + [c] + parts[|parts| - 1]
    decreases |parts|
  {
    if |parts| == 2 {
      assert parts[..1] == [parts[0]];
    } else {
      JoinLast(parts[1..], c);
      assert parts[1..][..|parts| - 2] == parts[..|parts| - 1][1..];
    }
  }

  /** The last piece of a split is the text after the last separator (`split(c).last()`). */
  lemma SplitLast(s: string, c: char)
    ensures AfterLast(s, c, Split(s, c)[|Split(s, c)| - 1])
  {
    var parts := Split(s, c);
    var last := parts[|parts| - 1];
    JoinSplit(s, c);
    if |parts| >= 2 {
      JoinLast(parts, c);
      var front := Join(parts[..|parts| - 1], c) + [c];
      assert s == front + last;
      assert s[|s| - |last|..] == last;
      assert s[|s| - |last| - 1] == front[|front| - 1] == c;
    }
  }
}
