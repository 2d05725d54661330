/**
 The string operations the script relies on: `str.lower` and `str.replace`,
 with Python's `str.split` / `str.join` as the reference that `replace` is
 checked against.
 */
module Text {

  /** `str.lower` on one character, for the ASCII letters. */
  function LowerChar(c: char): char {
    if 'A' <= c <= 'Z' then (c as int + 32) as char else c
  }

  /** `str.lower`, for ASCII text. */
  function Lower(s: string): (r: string)
    ensures |r| == |s|
    ensures forall i :: 0 <= i < |s| ==> r[i] == LowerChar(s[i])
  {
    if |s| == 0 then "" else [LowerChar(s[0])] + Lower(s[1..])
  }

  /** `pat` occurs nowhere in `s`. */
  predicate Free(s: string, pat: string)
    requires |pat| > 0
    decreases |s|
  {
    |s| < |pat| || (s[..|pat|] != pat && Free(s[1..], pat))
  }

  /** `s.replace(pat, rep)`: every non-overlapping occurrence, scanning left to right. */
  function ReplaceAll(s: string, pat: string, rep: string): (r: string)
    requires |pat| > 0
    ensures |rep| == |pat| ==> |r| == |s|
    decreases |s|
  {
    if |s| < |pat| then s
    else if s[..|pat|] == pat then rep + ReplaceAll(s[|pat|..], pat, rep)
    else [s[0]] + ReplaceAll(s[1..], pat, rep)
  }

  /**
   `s.split(pat)`: the pieces between the occurrences of `pat`. No piece
   contains `pat`, and the first piece is a prefix of `s`.
   */
  function Split(s: string, pat: string): (pieces: seq<string>)
    requires |pat| > 0
    ensures |pieces| >= 1
    ensures pieces[0] <= s
    ensures forall i :: 0 <= i < |pieces| ==> Free(pieces[i], pat)
    decreases |s|
  {
    if |s| < |pat| then [s]
    else if s[..|pat|] == pat then [""] + Split(s[|pat|..], pat)
    else
      var rest := Split(s[1..], pat);
      var head := [s[0]] + rest[0];
      assert head[1..] == rest[0];
      assert |head| >= |pat| ==> head[..|pat|] == s[..|pat|];
      [head] + rest[1..]
  }

  /** `sep.join(pieces)`. */
  function Join(pieces: seq<string>, sep: string): string
    requires |pieces| >= 1
  {
    if |pieces| == 1 then pieces[0] else pieces[0] + sep + Join(pieces[1..], sep)
  }

  lemma JoinConsChar(c: char, pieces: seq<string>, sep: string)
    requires |pieces| >= 1
    ensures Join([[c] + pieces[0]] + pieces[1..], sep) == [c] + Join(pieces, sep)
  {
    var p := [[c] + pieces[0]] + pieces[1..];
    assert p[1..] == pieces[1..];
  }

  /** Joining the pieces of a split with the separator gives back the string. */
  lemma {:induction false} SplitJoinRoundTrip(s: string, pat: string)
    requires |pat| > 0
    ensures Join(Split(s, pat), pat) == s
    decreases |s|
  {
    if |s| < |pat| {
    } else if s[..|pat|] == pat {
      var rest := Split(s[|pat|..], pat);
      SplitJoinRoundTrip(s[|pat|..], pat);
      assert ([""] + rest)[1..] == rest;
      assert s == pat + s[|pat|..];
    } else {
      var rest := Split(s[1..], pat);
      SplitJoinRoundTrip(s[1..], pat);
      JoinConsChar(s[0], rest, pat);
      assert s == [s[0]] + s[1..];
    }
  }

  /** `s.replace(pat, rep) == rep.join(s.split(pat))`. */
  lemma {:induction false} ReplaceAllIsJoinOfSplit(s: string, pat: string, rep: string)
    requires |pat| > 0
    ensures ReplaceAll(s, pat, rep) == Join(Split(s, pat), rep)
    decreases |s|
  {
    if |s| < |pat| {
    } else if s[..|pat|] == pat {
      var rest := Split(s[|pat|..], pat);
      ReplaceAllIsJoinOfSplit(s[|pat|..], pat, rep);
      assert ([""] + rest)[1..] == rest;
    } else {
      var rest := Split(s[1..], pat);
      ReplaceAllIsJoinOfSplit(s[1..], pat, rep);
      JoinConsChar(s[0], rest, rep);
    }
  }

  /** A string without an occurrence of `pat` is left as it is. */
  lemma {:induction false} ReplaceAllOfFreeIsIdentity(s: string, pat: string, rep: string)
    requires |pat| > 0 && Free(s, pat)
    ensures ReplaceAll(s, pat, rep) == s
    decreases |s|
  {
    if |s| >= |pat| {
      ReplaceAllOfFreeIsIdentity(s[1..], pat, rep);
      assert s == [s[0]] + s[1..];
    }
  }
}
