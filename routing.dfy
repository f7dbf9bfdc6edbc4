/**
 * What matching promises of a trie built by Init: a registered pattern whose
 * captures are filled with slash-free values leads back to that pattern's
 * handler, with each capture key bound to its value.
 */
module Routing {
  import opened Wrappers
  import opened Strings
  import opened Trie
  import opened Mux

  /** The request path a pattern's names describe, with vals[i] standing in for the i-th name when it is a capture. */
  function Fill(segs: seq<string>, vals: seq<string>): (p: string)
    requires |vals| == |segs| && forall i :: 0 <= i < |segs| ==> IsSegmentName(segs[i])
    ensures segs != [] ==> p != "" && p[|p| - 1] == '/'
    decreases |segs|
  {
    if segs == [] then ""
    else
      assert IsSegmentName(segs[0]);
      var piece := if IsCapture(segs[0]) then vals[0] + "/" else segs[0];
      var rest := Fill(segs[1..], vals[1..]);
      assert (piece + rest)[|piece + rest| - 1] == if rest == "" then piece[|piece| - 1] else rest[|rest| - 1];
      piece + rest
  }

  /** The capture map match builds along those names: each non-empty capture key bound to its value, later ones winning. */
  function Bind(segs: seq<string>, vals: seq<string>, caps: map<string, string>): map<string, string>
    requires |vals| == |segs| && forall i :: 0 <= i < |segs| ==> IsSegmentName(segs[i])
    decreases |segs|
  {
    if segs == [] then caps
    else
      assert IsSegmentName(segs[0]);
      var caps' := if IsCapture(segs[0]) && CaptureKey(segs[0]) != "" then caps[CaptureKey(segs[0]) := vals[0]] else caps;
      Bind(segs[1..], vals[1..], caps')
  }

  /** One segment name is a prefix of another followed by anything only when the two are equal. */
  lemma SegmentPrefix(a: string, b: string, rest: string)
    requires IsSegmentName(a) && IsSegmentName(b)
    ensures a <= b + rest <==> a == b
  {
    if a <= b + rest {
      var s := b + rest;
      assert forall i :: 0 <= i < |a| - 1 ==> s[i] == a[i] == a[..|a| - 1][i] != '/';
      assert forall i :: 0 <= i < |b| - 1 ==> s[i] == b[i] == b[..|b| - 1][i] != '/';
      assert s[|a| - 1] == '/' && s[|b| - 1] == '/';
      assert |a| == |b|;
      assert a == s[..|a|] == b;
    }
  }

  /** Splitting at the first '/': a slash-free head and the tail after it are determined by the string. */
  lemma SlashSplit(x: string, y: string, x': string, y': string)
    requires '/' !in x && '/' !in x' && x + "/" + y == x' + "/" + y'
    ensures x == x' && y == y'
  {
    var s := x + "/" + y;
    assert s == x' + "/" + y';
    assert forall i :: 0 <= i < |x| ==> s[i] == x[i] && x[i] in x;
    assert forall i :: 0 <= i < |x'| ==> s[i] == x'[i] && x'[i] in x';
    assert s[|x|] == '/' && s[|x'|] == '/';
    assert |x| == |x'|;
    assert x == s[..|x|] == x';
    assert y == s[|x| + 1..] == y';
  }

  /** A literal child whose name differs from the next name of the path yields nothing and binds nothing. */
  lemma LiteralSkip(name: string, h: Option<Handler>, s0: string, rest: string)
    requires IsSegmentName(name) && IsSegmentName(s0) && !IsCapture(name) && name != s0
    ensures Capture(name, h, s0 + rest) == Step(None, "", "", "")
  {
    SegmentPrefix(name, s0, rest);
  }

  /** Siblings from i up to j that yield nothing leave the scan to continue at j with the same captures. */
  lemma {:induction false} ScanSkip(t: Trie, n: nat, i: nat, j: nat, p: string, caps: map<string, string>)
    requires Shaped(t) && n < |t.kids| && i <= j <= |t.kids[n]|
    requires forall a :: i <= a < j ==> Capture(t.names[t.kids[n][a]], t.hs[t.kids[n][a]], p) == Step(None, "", "", "")
    ensures Scan(t, n, i, p, caps) == Scan(t, n, j, p, caps)
    decreases j - i
  {
    if i < j {
      var c := t.kids[n][i];
      var st := Capture(t.names[c], t.hs[c], p);
      assert st == Step(None, "", "", "") && Record(caps, st) == caps;
      assert Scan(t, n, i, p, caps) == Scan(t, n, i + 1, p, caps);
      ScanSkip(t, n, i + 1, j, p, caps);
    }
  }

  /** The captures after the first segment's step, as Bind records them. */
  function StepCaps(s0: string, v0: string, caps: map<string, string>): map<string, string>
    requires IsSegmentName(s0)
  {
    if IsCapture(s0) && CaptureKey(s0) != "" then caps[CaptureKey(s0) := v0] else caps
  }

  /** The scan outcome the walk expects at node n for the first segment: found at the last segment, else descend. */
  predicate StepOutcome(t: Trie, n: nat, c: nat, segs: seq<string>, vals: seq<string>, p: string, rest: string, caps: map<string, string>, r: ScanResult)
    requires Shaped(t) && n < |t.kids| && c < |t.kids| && segs != [] && |vals| == |segs| && IsSegmentName(segs[0])
    requires Walk(t, c, segs[1..]).Some?
  {
    var e := Walk(t, c, segs[1..]).value;
    var caps' := StepCaps(segs[0], vals[0], caps);
    if segs[1..] == [] then t.hs[e].Some? && r == Found(t.hs[e].value, caps')
    else r == Descend(c, rest, caps')
  }

  /** A capture node takes the value before the first '/' and records it under its key. */
  lemma CaptureHit(name: string, h: Option<Handler>, v: string, rest: string)
    requires IsSegmentName(name) && IsCapture(name) && '/' !in v
    ensures Capture(name, h, v + "/" + rest) == Step(if rest == "" then h else None, rest, CaptureKey(name), v)
  {
    var st := Capture(name, h, v + "/" + rest);
    assert '/' in v + "/" + rest by {
      assert (v + "/" + rest)[|v|] == '/';
    }
    SlashSplit(st.cv, st.sub, v, rest);
  }

  /** A capture segment is the first child and takes the value up to the next '/'. */
  lemma CaptureStep(t: Trie, n: nat, segs: seq<string>, vals: seq<string>, caps: map<string, string>, c: nat)
    requires Valid(t) && NoMixedChildren(t) && n < |t.kids|
    requires segs != [] && |vals| == |segs| && forall i :: 0 <= i < |segs| ==> IsSegmentName(segs[i])
    requires '/' !in vals[0] && IsCapture(segs[0])
    requires Lookup(t, n, segs[0]) == Some(c) && c < |t.kids|
    requires Walk(t, c, segs[1..]).Some? && t.hs[Walk(t, c, segs[1..]).value].Some?
    ensures StepOutcome(t, n, c, segs, vals, Fill(segs, vals), Fill(segs[1..], vals[1..]), caps, Scan(t, n, 0, Fill(segs, vals), caps))
  {
    var s0 := segs[0];
    var idx := FindChild(t.names, t.kids[n], s0);
    assert c == t.kids[n][idx];
    assert IsCapture(t.names[t.kids[n][0]]);
    assert idx == 0;
    var rest := Fill(segs[1..], vals[1..]);
    var p := Fill(segs, vals);
    assert p == vals[0] + "/" + rest;
    CaptureHit(s0, t.hs[c], vals[0], rest);
  }

  /** A literal node consumes its own name from the front of the path. */
  lemma LiteralHit(name: string, h: Option<Handler>, rest: string)
    requires IsSegmentName(name) && !IsCapture(name)
    ensures Capture(name, h, name + rest) == Step(if rest == "" then h else None, rest, "", "")
  {
    var p := name + rest;
    assert p[..|name|] == name && p[|name|..] == rest;
  }

  /** Literal siblings named differently from a literal segment yield nothing for a path starting with it. */
  lemma LiteralSiblingsSkip(t: Trie, n: nat, idx: nat, s0: string, rest: string, caps: map<string, string>)
    requires Shaped(t) && n < |t.kids| && idx <= |t.kids[n]| && IsSegmentName(s0) && !IsCapture(s0)
    requires forall a :: 0 <= a < idx ==> !IsCapture(t.names[t.kids[n][a]]) && t.names[t.kids[n][a]] != s0
    ensures Scan(t, n, 0, s0 + rest, caps) == Scan(t, n, idx, s0 + rest, caps)
  {
    forall a | 0 <= a < idx
      ensures Capture(t.names[t.kids[n][a]], t.hs[t.kids[n][a]], s0 + rest) == Step(None, "", "", "")
    {
      LiteralSkip(t.names[t.kids[n][a]], t.hs[t.kids[n][a]], s0, rest);
    }
    ScanSkip(t, n, 0, idx, s0 + rest, caps);
  }

  /** A literal segment is found after skipping the literal siblings before it, with no capture. */
  lemma LiteralStep(t: Trie, n: nat, segs: seq<string>, vals: seq<string>, caps: map<string, string>, c: nat)
    requires Shaped(t) && n < |t.kids|
    requires forall a :: 0 <= a < |t.kids[n]| ==> !IsCapture(t.names[t.kids[n][a]])
    requires segs != [] && |vals| == |segs| && forall i :: 0 <= i < |segs| ==> IsSegmentName(segs[i])
    requires !IsCapture(segs[0])
    requires Lookup(t, n, segs[0]) == Some(c) && c < |t.kids|
    requires Walk(t, c, segs[1..]).Some? && t.hs[Walk(t, c, segs[1..]).value].Some?
    ensures StepOutcome(t, n, c, segs, vals, Fill(segs, vals), Fill(segs[1..], vals[1..]), caps, Scan(t, n, 0, Fill(segs, vals), caps))
  {
    var s0 := segs[0];
    var idx := FindChild(t.names, t.kids[n], s0);
    assert c == t.kids[n][idx];
    var rest := Fill(segs[1..], vals[1..]);
    var p := Fill(segs, vals);
    assert p == s0 + rest;
    LiteralSiblingsSkip(t, n, idx, s0, rest, caps);
    LiteralHit(s0, t.hs[c], rest);
  }

  /**
   * Under a node whose children are all literal or all a single capture, the path
   * filled in from names that the trie walks to a node with a handler matches that
   * handler, binding the captures along the way.
   */
  lemma {:induction false} MatchWalk(t: Trie, n: nat, segs: seq<string>, vals: seq<string>, caps: map<string, string>)
    requires Valid(t) && NoMixedChildren(t) && n < |t.kids|
    requires segs != [] && |vals| == |segs| && forall i :: 0 <= i < |segs| ==> IsSegmentName(segs[i])
    requires forall i :: 0 <= i < |vals| ==> '/' !in vals[i]
    requires Walk(t, n, segs).Some? && t.hs[Walk(t, n, segs).value].Some?
    ensures MatchFrom(t, n, Fill(segs, vals), caps) == Route(t.hs[Walk(t, n, segs).value], Some(Bind(segs, vals, caps)))
    decreases |segs|
  {
    var s0 := segs[0];
    var c := Lookup(t, n, s0).value;
    assert Walk(t, n, segs) == Walk(t, c, segs[1..]);
    var p := Fill(segs, vals);
    var caps' := StepCaps(s0, vals[0], caps);
    assert Bind(segs, vals, caps) == Bind(segs[1..], vals[1..], caps');
    if IsCapture(s0) {
      CaptureStep(t, n, segs, vals, caps, c);
    } else {
      assert forall a :: 0 <= a < |t.kids[n]| ==> !IsCapture(t.names[t.kids[n][a]]);
      LiteralStep(t, n, segs, vals, caps, c);
    }
    if segs[1..] != [] {
      MatchWalk(t, c, segs[1..], vals[1..], caps');
    }
  }

  /**
   * The round trip of registration and matching: in a trie Init built from
   * registrations m, a key with a non-nil handler that no other key shares the
   * names of is matched by every path the key describes, and match returns that
   * key's handler with the capture values bound under their keys.
   */
  lemma MatchRegistered(t: Trie, prefix: string, m: map<string, Option<Handler>>, k: string, vals: seq<string>)
    requires Built(t, prefix, m) && NoMixedChildren(t)
    requires k in m && m[k].Some? && UniqueSegments(m, k) && Segments(k) != []
    requires |vals| == |Segments(k)| && forall i :: 0 <= i < |vals| ==> '/' !in vals[i]
    ensures MatchPath(t, prefix, prefix + Fill(Segments(k), vals)) == Route(m[k], Some(Bind(Segments(k), vals, map[])))
  {
    var segs := Segments(k);
    var f := Fill(segs, vals);
    var path := prefix + f;
    assert path[..|prefix|] == prefix && path[|prefix|..] == f;
    MatchWalk(t, 0, segs, vals, map[]);
  }

  /** Splitting a/s gives a followed by the pieces of s. */
  lemma {:induction false} SplitStep(a: string, s: string, rest: seq<string>)
    requires '/' !in a && Split(s, '/') == rest
    ensures Split(a + "/" + s, '/') == [a] + rest
  {
    SplitPiece(a, s, '/');
  }

  /** The pieces of a/b/c/d/. */
  lemma {:induction false} FourPieces(a: string, b: string, c: string, d: string)
    requires '/' !in a && '/' !in b && '/' !in c && '/' !in d
    ensures Split(a + "/" + (b + "/" + (c + "/" + (d + "/" + ""))), '/') == [a, b, c, d, ""]
  {
    ConsDisplays(a, b, c, d, "");
    SplitStep(d, "", [""]);
    SplitStep(c, d + "/" + "", [d, ""]);
    SplitStep(b, c + "/" + (d + "/" + ""), [c, d, ""]);
    SplitStep(a, b + "/" + (c + "/" + (d + "/" + "")), [b, c, d, ""]);
  }

  /** Prepending to a sequence display. */
  lemma ConsDisplays(a: string, b: string, c: string, d: string, e: string)
    ensures [d] + [e] == [d, e] && [c] + [d, e] == [c, d, e]
    ensures [b] + [c, d, e] == [b, c, d, e] && [a] + [b, c, d, e] == [a, b, c, d, e]
  {
  }

  /** The names of the pieces a, b, c, d, "". */
  lemma {:induction false} FourNames(a: string, b: string, c: string, d: string)
    requires a != "" && b != "" && c != "" && d != ""
    requires '/' !in a && '/' !in b && '/' !in c && '/' !in d
    ensures SegmentsOf([a, b, c, d, ""]) == [a + "/", b + "/", c + "/", d + "/"]
  {
    assert [a, b, c, d, ""] == [a, b, c, d] + [""];
    SegmentsOfTrailingEmpty([a, b, c, d]);
    assert [a, b, c, d] == [a, b, c] + [d];
    SegmentsSnoc([a, b, c], d);
    assert [a, b, c] == [a, b] + [c];
    SegmentsSnoc([a, b], c);
    assert [a, b] == [a] + [b];
    SegmentsSnoc([a], b);
    assert [a] == [] + [a];
    SegmentsSnoc([], a);
  }

  /** The names of a four-piece pattern a/b/c/d/. */
  lemma {:induction false} FourSegments(a: string, b: string, c: string, d: string)
    requires a != "" && b != "" && c != "" && d != ""
    requires '/' !in a && '/' !in b && '/' !in c && '/' !in d
    ensures Segments(a + "/" + (b + "/" + (c + "/" + (d + "/" + "")))) == [a + "/", b + "/", c + "/", d + "/"]
  {
    FourPieces(a, b, c, d);
    FourNames(a, b, c, d);
  }

  /** A non-empty last piece adds its name at the end. */
  lemma SegmentsSnoc(pieces: seq<string>, last: string)
    requires forall k :: 0 <= k < |pieces| ==> '/' !in pieces[k]
    requires last != "" && '/' !in last
    ensures SegmentsOf(pieces + [last]) == SegmentsOf(pieces) + [last + "/"]
  {
    assert (pieces + [last])[..|pieces|] == pieces;
  }

  /** Filling literal, capture, literal, capture names with values. */
  lemma {:induction false} FourFill(a: string, b: string, c: string, d: string, v: string, u: string)
    requires IsSegmentName(a) && IsSegmentName(b) && IsSegmentName(c) && IsSegmentName(d)
    requires !IsCapture(a) && IsCapture(b) && !IsCapture(c) && IsCapture(d)
    ensures Fill([a, b, c, d], ["", v, "", u]) == a + (v + "/" + (c + (u + "/")))
  {
    assert Fill([d], [u]) == u + "/" + Fill([], []) by {
      assert [d][1..] == [] && [u][1..] == [];
    }
    assert Fill([c, d], ["", u]) == c + Fill([d], [u]) by {
      assert [c, d][1..] == [d] && ["", u][1..] == [u];
    }
    assert Fill([b, c, d], [v, "", u]) == v + "/" + Fill([c, d], ["", u]) by {
      assert [b, c, d][1..] == [c, d] && [v, "", u][1..] == ["", u];
    }
    assert Fill([a, b, c, d], ["", v, "", u]) == a + Fill([b, c, d], [v, "", u]) by {
      assert [a, b, c, d][1..] == [b, c, d] && ["", v, "", u][1..] == [v, "", u];
    }
  }

  /** The capture map for literal, capture, literal, capture names: the two keys bound to their values. */
  lemma {:induction false} FourBind(a: string, b: string, c: string, d: string, v: string, u: string)
    requires IsSegmentName(a) && IsSegmentName(b) && IsSegmentName(c) && IsSegmentName(d)
    requires !IsCapture(a) && IsCapture(b) && !IsCapture(c) && IsCapture(d)
    requires CaptureKey(b) != "" && CaptureKey(d) != ""
    ensures Bind([a, b, c, d], ["", v, "", u], map[]) == map[CaptureKey(b) := v][CaptureKey(d) := u]
  {
    var m1 := map[CaptureKey(b) := v];
    var m2 := m1[CaptureKey(d) := u];
    assert Bind([d], [u], m1) == Bind([], [], m2) by {
      assert [d][1..] == [] && [u][1..] == [];
    }
    assert Bind([c, d], ["", u], m1) == Bind([d], [u], m1) by {
      assert [c, d][1..] == [d] && ["", u][1..] == [u];
    }
    assert Bind([b, c, d], [v, "", u], map[]) == Bind([c, d], ["", u], m1) by {
      assert [b, c, d][1..] == [c, d] && [v, "", u][1..] == ["", u];
    }
    assert Bind([a, b, c, d], ["", v, "", u], map[]) == Bind([b, c, d], [v, "", u], map[]) by {
      assert [a, b, c, d][1..] == [b, c, d] && ["", v, "", u][1..] == [v, "", u];
    }
  }

  /** The table's pattern, path and captures (mux/mux_test.go:43-46), under the prefix "/api/". */
  const TableKey := "users/:user-id/feeds/:feed-id/"
  const TablePath := "/api/users/user123/feeds/feed123/"
  const TableVals := ["", "user123", "", "feed123"]
  const TableCaptures := map["user-id" := "user123", "feed-id" := "feed123"]

  /** The pattern's names. */
  lemma TableNames(k: string)
    requires k == TableKey
    ensures Segments(k) == ["users/", ":user-id/", "feeds/", ":feed-id/"]
  {
    TableKeyPieces(k);
    FourSegments("users", ":user-id", "feeds", ":feed-id");
    NameLiterals();
  }

  /** The pattern as its pieces joined by '/'. */
  lemma TableKeyPieces(k: string)
    requires k == TableKey
    ensures k == "users" + "/" + (":user-id" + "/" + ("feeds" + "/" + (":feed-id" + "/" + "")))
    ensures '/' !in "users" && '/' !in ":user-id" && '/' !in "feeds" && '/' !in ":feed-id"
  {
  }

  /** Each piece followed by '/' is its name. */
  lemma NameLiterals()
    ensures "users" + "/" == "users/" && ":user-id" + "/" == ":user-id/"
    ensures "feeds" + "/" == "feeds/" && ":feed-id" + "/" == ":feed-id/"
  {
  }

  /** The keys of the two capture names. */
  lemma TableKeys()
    ensures CaptureKey(":user-id/") == "user-id" && CaptureKey(":feed-id/") == "feed-id"
  {
  }

  /** The path the pattern's values give. */
  lemma TablePathFill()
    ensures "/api/" + ("users/" + ("user123" + "/" + ("feeds/" + ("feed123" + "/")))) == TablePath
  {
  }

  /** The table's values hold no '/'. */
  lemma TableValsSlashFree(vals: seq<string>)
    requires vals == TableVals
    ensures |vals| == 4 && forall i :: 0 <= i < 4 ==> '/' !in vals[i]
  {
    assert vals[0] == "" && vals[2] == "";
    assert vals[1] == "user123" && '/' !in "user123";
    assert vals[3] == "feed123" && '/' !in "feed123";
  }

  /** The pattern's names, and the path and captures its values give. */
  lemma TableFacts(k: string, vals: seq<string>)
    requires k == TableKey && vals == TableVals
    ensures Segments(k) == ["users/", ":user-id/", "feeds/", ":feed-id/"]
    ensures |vals| == 4 && forall i :: 0 <= i < 4 ==> '/' !in vals[i]
    ensures "/api/" + Fill(Segments(k), vals) == TablePath
    ensures Bind(Segments(k), vals, map[]) == TableCaptures
  {
    TableNames(k);
    var segs := Segments(k);
    assert IsSegmentName(segs[0]) && IsSegmentName(segs[1]) && IsSegmentName(segs[2]) && IsSegmentName(segs[3]);
    TableValsSlashFree(vals);
    TableKeys();
    TablePathFill();
    FourFill("users/", ":user-id/", "feeds/", ":feed-id/", "user123", "feed123");
    FourBind("users/", ":user-id/", "feeds/", ":feed-id/", "user123", "feed123");
  }

  /**
   * The capture table's deepest entry: on a trie Init built under "/api/", the path
   * "/api/users/user123/feeds/feed123/" reaches the handler of
   * "users/:user-id/feeds/:feed-id" with exactly its two captures.
   */
  lemma CaptureTableExample(t: Trie, m: map<string, Option<Handler>>)
    requires Built(t, "/api/", m) && NoMixedChildren(t)
    requires TableKey in m && m[TableKey].Some? && UniqueSegments(m, TableKey)
    ensures MatchPath(t, "/api/", TablePath) == Route(m[TableKey], Some(TableCaptures))
  {
    TableFacts(TableKey, TableVals);
    MatchRegistered(t, "/api/", m, TableKey, TableVals);
  }

  /** The names of a two-piece pattern a/b/. */
  lemma {:induction false} TwoSegments(a: string, b: string)
    requires a != "" && b != "" && '/' !in a && '/' !in b
    ensures Segments(a + "/" + (b + "/" + "")) == [a + "/", b + "/"]
  {
    SplitStep(b, "", [""]);
    assert [b] + [""] == [b, ""];
    SplitStep(a, b + "/" + "", [b, ""]);
    assert [a] + [b, ""] == [a, b, ""];
    assert [a, b, ""] == [a, b] + [""];
    SegmentsOfTrailingEmpty([a, b]);
    assert [a, b] == [a] + [b];
    SegmentsSnoc([a], b);
    assert [a] == [] + [a];
    SegmentsSnoc([], a);
  }

  /**
   * The ambiguity test's registrations (mux/mux_test.go:163-181): "users/:user-id/"
   * and "users/:user-id2/" put two differently named captures under "users/", so
   * Init panics with "mux: pattern ambiguous" on any registrations that hold both.
   */
  lemma AmbiguousTableExample(m: map<string, Option<Handler>>)
    requires "users/:user-id/" in m && "users/:user-id2/" in m
    ensures Ambiguous(m)
  {
    var k1, k2 := "users/:user-id/", "users/:user-id2/";
    AmbiguousKeys(k1, k2);
    AmbiguousKeyNames(k1, ":user-id");
    AmbiguousKeyNames(k2, ":user-id2");
    SiblingCaptures(k1, k2, "users/", ":user-id" + "/", ":user-id2" + "/");
    AmbiguousFrom(m, k1, k2, 1);
  }

  /** Two keys whose second names are different captures under one literal name clash at position 1. */
  lemma SiblingCaptures(k1: string, k2: string, a: string, x: string, y: string)
    requires Segments(k1) == [a, x] && Segments(k2) == [a, y]
    requires IsCapture(x) && IsCapture(y) && |x| != |y|
    ensures AmbiguousAt(Segments(k1), Segments(k2), 1)
  {
    assert [a, x][..1] == [a] == [a, y][..1];
  }

  /** Two registered keys that clash at some position make the registrations ambiguous. */
  lemma AmbiguousFrom(m: map<string, Option<Handler>>, k1: string, k2: string, j: nat)
    requires k1 in m && k2 in m && AmbiguousAt(Segments(k1), Segments(k2), j)
    ensures Ambiguous(m)
  {
  }

  /** The two keys as the literal name followed by a capture name. */
  lemma AmbiguousKeys(k1: string, k2: string)
    requires k1 == "users/:user-id/" && k2 == "users/:user-id2/"
    ensures k1 == "users/" + ":user-id" + "/" && k2 == "users/" + ":user-id2" + "/"
  {
  }

  /** The names of users/<capture>/. */
  lemma AmbiguousKeyNames(k: string, cap: string)
    requires cap == ":user-id" || cap == ":user-id2"
    requires k == "users/" + cap + "/"
    ensures Segments(k) == ["users/", cap + "/"]
    ensures IsCapture(cap + "/") && "users/" == "users" + "/"
  {
    assert k == "users" + "/" + (cap + "/" + "");
    TwoSegments("users", cap);
    assert "users" + "/" == "users/";
  }

  // ---------------------------------------------------------------------------
  // The source's outer loop as written (mux.go:237-266)
  // ---------------------------------------------------------------------------

  /** After one pass of match's outer loop: it returned, or it goes round again at node n with path p. */
  datatype Pass = Done(route: Route) | Again(n: nat, p: string, caps: map<string, string>)

  /**
   * One pass of the outer `for` of match as written: with no sibling matching,
   * neither the node nor the path changes, and the loop comes round again.
   */
  function SourcePass(t: Trie, n: nat, p: string, caps: map<string, string>): (r: Pass)
    requires Shaped(t) && n < |t.kids|
    ensures r.Again? ==> r.n < |t.kids| && |r.p| <= |p|
    // a pass that goes down moves to a child with a strictly shorter path ...
    ensures r.Again? && r.p != p ==> r.n in t.kids[n] && |r.p| < |p|
    // ... and one that does not stays where it was
    ensures r.Again? && r.p == p ==> r.n == n && p != ""
  {
    if |t.kids[n]| == 0 then Done(NoMatch)
    else match Scan(t, n, 0, p, caps)
      case Found(h, c) => Done(Route(Some(h), Some(c)))
      case Descend(c, sub, c') => if |sub| == 0 then Done(NoMatch) else Again(c, sub, c')
      case Exhausted(c') => if |p| == 0 then Done(NoMatch) else Again(n, p, c')
  }

  /** Up to `fuel` passes of the source's outer loop. */
  function Passes(t: Trie, n: nat, p: string, caps: map<string, string>, fuel: nat): (r: Pass)
    requires Shaped(t) && n < |t.kids|
    ensures r.Again? ==> r.n < |t.kids| && |r.p| <= |p|
    ensures fuel == 0 ==> r == Again(n, p, caps)
    decreases fuel
  {
    if fuel == 0 then Again(n, p, caps)
    else match SourcePass(t, n, p, caps)
      case Done(r) => Done(r)
      case Again(n', p', c') => Passes(t, n', p', c', fuel - 1)
  }

  /** Whether the scan of a level finds nothing does not depend on the captures collected so far. */
  lemma {:induction false} ExhaustedAnyCaps(t: Trie, n: nat, i: nat, p: string, caps: map<string, string>, caps2: map<string, string>)
    requires Shaped(t) && n < |t.kids| && i <= |t.kids[n]|
    ensures Scan(t, n, i, p, caps).Exhausted? <==> Scan(t, n, i, p, caps2).Exhausted?
    decreases |t.kids[n]| - i
  {
    if i < |t.kids[n]| {
      var c := t.kids[n][i];
      var st := Capture(t.names[c], t.hs[c], p);
      if st.h.None? && st.sub == "" {
        ExhaustedAnyCaps(t, n, i + 1, p, Record(caps, st), Record(caps2, st));
      }
    }
  }

  /** No sibling matches a non-empty path: however many passes run, the source is still at node n with path p. */
  lemma {:induction false} SourceStuck(t: Trie, n: nat, p: string, caps: map<string, string>, fuel: nat)
    requires Shaped(t) && n < |t.kids| && |t.kids[n]| > 0 && p != ""
    requires Scan(t, n, 0, p, map[]).Exhausted?
    ensures Passes(t, n, p, caps, fuel).Again? && Passes(t, n, p, caps, fuel).n == n && Passes(t, n, p, caps, fuel).p == p
    decreases fuel
  {
    ExhaustedAnyCaps(t, n, 0, p, map[], caps);
    if fuel > 0 {
      var c' := Scan(t, n, 0, p, caps).caps;
      SourceStuck(t, n, p, c', fuel - 1);
    }
  }

  /** Once a scan with a non-empty path is exhausted, the source's loop never returns. */
  lemma SourceStuckFrom(t: Trie, n: nat, p: string, caps: map<string, string>, fuel: nat)
    requires Shaped(t) && n < |t.kids| && |t.kids[n]| > 0 && p != ""
    requires Scan(t, n, 0, p, caps).Exhausted?
    ensures Passes(t, n, p, caps, fuel).Again?
  {
    ExhaustedAnyCaps(t, n, 0, p, caps, map[]);
    SourceStuck(t, n, p, caps, fuel);
  }

  /** A concrete trie and path on which the source never returns while the corrected walk reports no match. */
  lemma HangExample()
    ensures var t := Trie(["/api/", "users/"], [None, Some(Registered(1))], [[1], []]);
      && Shaped(t)
      && MatchPath(t, "/api/", "/api/feeds/") == NoMatch
      && forall fuel: nat :: Passes(t, 0, "feeds/", map[], fuel).Again? && Passes(t, 0, "feeds/", map[], fuel).p == "feeds/"
  {
    var t := Trie(["/api/", "users/"], [None, Some(Registered(1))], [[1], []]);
    assert "/api/feeds/"[..5] == "/api/" && "/api/feeds/"[5..] == "feeds/";
    assert Capture("users/", Some(Registered(1)), "feeds/") == Step(None, "", "", "");
    assert Scan(t, 0, 1, "feeds/", map[]) == Exhausted(map[]);
    forall fuel: nat ensures Passes(t, 0, "feeds/", map[], fuel).Again? && Passes(t, 0, "feeds/", map[], fuel).p == "feeds/" {
      SourceStuck(t, 0, "feeds/", map[], fuel);
    }
  }

  /**
   * One pass of the source's loop against MatchFrom: a pass that returns gives
   * MatchFrom's route, one that moves on leaves MatchFrom's answer unchanged, and
   * one that stays put has exhausted a non-empty path.
   */
  lemma PassAgrees(t: Trie, n: nat, p: string, caps: map<string, string>)
    requires Shaped(t) && n < |t.kids|
    ensures var q := SourcePass(t, n, p, caps);
      && (q.Done? ==> MatchFrom(t, n, p, caps) == q.route)
      && (q.Again? && q.p != p ==> MatchFrom(t, n, p, caps) == MatchFrom(t, q.n, q.p, q.caps))
      && (q.Again? && q.p == p ==> |t.kids[n]| > 0 && p != "" && Scan(t, n, 0, p, caps).Exhausted?)
  {
  }

  /**
   * The corrected walk refines the source: whenever the source's loop returns
   * within some number of passes, MatchFrom gives the same route.
   */
  lemma {:induction false} SourceAgrees(t: Trie, n: nat, p: string, caps: map<string, string>, fuel: nat)
    requires Shaped(t) && n < |t.kids|
    requires Passes(t, n, p, caps, fuel).Done?
    ensures MatchFrom(t, n, p, caps) == Passes(t, n, p, caps, fuel).route
    decreases fuel
  {
    var q := SourcePass(t, n, p, caps);
    PassAgrees(t, n, p, caps);
    if q.Again? {
      if q.p != p {
        SourceAgrees(t, q.n, q.p, q.caps, fuel - 1);
      } else {
        SourceStuckFrom(t, n, p, caps, fuel);
      }
    }
  }
}
