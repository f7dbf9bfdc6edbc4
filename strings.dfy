/** The two functions of Go's `strings` package that the router uses, on `seq<char>`. */
module Strings {

  /** strings.Index(s, "/") for a one-character separator: the first position of `c`, or -1. */
  function Index(s: string, c: char): (r: int)
    ensures -1 <= r < |s|
    ensures r == -1 <==> c !in s
    ensures r >= 0 ==> s[r] == c && c !in s[..r]
  {
    if |s| == 0 then -1
    else if s[0] == c then 0
    else
      var i := Index(s[1..], c);
      assert s[1..] == s[1..][..] && (i >= 0 ==> s[..i + 1] == [s[0]] + s[1..][..i]);
      if i == -1 then -1 else i + 1
  }

  /** strings.Split(s, sep) for a one-character separator: the pieces between the separators. */
  function Split(s: string, sep: char): (pieces: seq<string>)
    ensures |pieces| >= 1
    ensures forall k :: 0 <= k < |pieces| ==> sep !in pieces[k]
    decreases |s|
  {
    var i := Index(s, sep);
    if i == -1 then [s] else [s[..i]] + Split(s[i + 1..], sep)
  }

  /** strings.Join(pieces, sep): the inverse of Split. */
  function Join(pieces: seq<string>, sep: char): string
  {
    if |pieces| == 0 then ""
    else if |pieces| == 1 then pieces[0]
    else pieces[0] + [sep] + Join(pieces[1..], sep)
  }

  /** Splitting loses nothing: joining the pieces back gives the original string. */
  lemma {:induction false} JoinSplit(s: string, sep: char)
    ensures Join(Split(s, sep), sep) == s
    decreases |s|
  {
    var i := Index(s, sep);
    if i != -1 {
      var a, rest := s[..i], s[i + 1..];
      assert s == a + [sep] + rest;
      SplitPiece(a, rest, sep);
      JoinSplit(rest, sep);
      JoinCons(a, Split(rest, sep), sep);
    }
  }

  /** Joining a piece in front of at least one more puts a separator between them. */
  lemma JoinCons(a: string, pieces: seq<string>, sep: char)
    requires |pieces| >= 1
    ensures Join([a] + pieces, sep) == a + [sep] + Join(pieces, sep)
  {
    var q := [a] + pieces;
    assert q[0] == a && q[1..] == pieces;
  }

  /** A leading separator contributes one empty first piece. */
  lemma SplitLeadingSep(s: string, sep: char)
    ensures Split([sep] + s, sep) == [""] + Split(s, sep)
  {
    assert ([sep] + s)[..0] == "" && ([sep] + s)[1..] == s;
  }

  /** The first occurrence is unique: a position holding c with no c before it is the one Index finds. */
  lemma IndexAt(s: string, c: char, j: nat)
    requires j < |s| && s[j] == c && c !in s[..j]
    ensures Index(s, c) == j
  {
    assert s[j] in s;
    var r := Index(s, c);
    assert forall k :: 0 <= k < j ==> s[..j][k] == s[k];
    assert forall k :: 0 <= k < r ==> s[..r][k] == s[k];
    assert s[r] == c;
  }

  /** A separator-free piece followed by the separator is split off as the first piece. */
  lemma SplitPiece(a: string, s: string, sep: char)
    requires sep !in a
    ensures Split(a + [sep] + s, sep) == [a] + Split(s, sep)
  {
    var x := a + [sep] + s;
    assert x[..|a|] == a && x[|a|] == sep && x[|a| + 1..] == s;
    IndexAt(x, sep, |a|);
  }

  /** Taking the whole sequence gives the sequence (stated generically, away from string equality). */
  lemma TakeAll<T>(s: seq<T>)
    ensures s[..|s|] == s
  {
  }

  /** Concatenation is associative (stated generically, away from string equality). */
  lemma ConcatAssoc<T>(x: seq<T>, y: seq<T>, z: seq<T>)
    ensures x + (y + z) == x + y + z
  {
  }

  /** One step of SplitTrailingSep: the piece before the first separator is kept in front. */
  lemma {:induction false} TrailingSepStep(a: string, rest: string, sep: char)
    requires sep !in a
    requires Split(rest + [sep], sep) == Split(rest, sep) + [""]
    ensures Split(a + [sep] + rest + [sep], sep) == Split(a + [sep] + rest, sep) + [""]
  {
    assert a + [sep] + rest + [sep] == a + [sep] + (rest + [sep]);
    SplitPiece(a, rest, sep);
    SplitPiece(a, rest + [sep], sep);
    ConcatAssoc([a], Split(rest, sep), [""]);
  }

  /** A trailing separator contributes one empty last piece. */
  lemma {:induction false} SplitTrailingSep(s: string, sep: char)
    ensures Split(s + [sep], sep) == Split(s, sep) + [""]
    decreases |s|
  {
    var i := Index(s, sep);
    if i == -1 {
      assert s + [sep] == s + [sep] + "";
      SplitPiece(s, "", sep);
      assert Split("", sep) == [""];
    } else {
      var a, rest := s[..i], s[i + 1..];
      assert s == a + [sep] + rest;
      SplitTrailingSep(rest, sep);
      TrailingSepStep(a, rest, sep);
    }
  }
}
