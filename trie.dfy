/**
 * The router's path trie (mux/mux.go): node names, the single-node `capture`
 * step, and the level-by-level walk that `match` performs, as functions over a
 * node table. A node is an index into the table; the root is index 0.
 */
module Trie {
  import opened Wrappers
  import opened Strings

  /** An http.Handler, known only by identity; `NotFound` is http.NotFound. */
  datatype Handler = NotFound | Registered(id: nat)

  /** A non-root node name: one path segment followed by '/' ("users/", ":user-id/"). */
  predicate IsSegmentName(n: string)
  {
    |n| >= 2 && n[|n| - 1] == '/' && '/' !in n[..|n| - 1]
  }

  /** A capture node's name starts with ':'. */
  predicate IsCapture(n: string)
  {
    |n| > 0 && n[0] == ':'
  }

  /** The capture key of a capture name: the name without ':' and without the trailing '/'. */
  function CaptureKey(n: string): (k: string)
    requires IsCapture(n) && n[|n| - 1] == '/'
    ensures n == [':'] + k + ['/']
  {
    n[1..|n| - 1]
  }

  /**
   * The nodes of a trie, all of `node{name, h, children}` laid out side by side:
   * node i has name names[i], handler hs[i] (None for a nil handler) and the
   * children kids[i], in sibling order.
   */
  datatype Trie = Trie(names: seq<string>, hs: seq<Option<Handler>>, kids: seq<seq<nat>>)

  /** Every child index names a non-root node, and every non-root name is a segment name. */
  predicate Shaped(t: Trie)
  {
    && |t.names| >= 1 && |t.hs| == |t.names| && |t.kids| == |t.names|
    && (forall i, j :: 0 <= i < |t.kids| && 0 <= j < |t.kids[i]| ==> 0 < t.kids[i][j] < |t.names|)
    && (forall i :: 1 <= i < |t.names| ==> IsSegmentName(t.names[i]))
  }

  /** The children of every node have pairwise distinct names. */
  predicate DistinctSiblings(t: Trie)
    requires Shaped(t)
  {
    forall i, a, b :: 0 <= i < |t.kids| && 0 <= a < b < |t.kids[i]| ==>
      t.names[t.kids[i][a]] != t.names[t.kids[i][b]]
  }

  /** At most one child of every node is a capture node. */
  predicate OneCapture(t: Trie)
    requires Shaped(t)
  {
    forall i, a, b :: 0 <= i < |t.kids| && 0 <= a < b < |t.kids[i]| ==>
      !(IsCapture(t.names[t.kids[i][a]]) && IsCapture(t.names[t.kids[i][b]]))
  }

  /** The invariant of a trie built by Init. */
  predicate Valid(t: Trie)
  {
    Shaped(t) && DistinctSiblings(t) && OneCapture(t)
  }

  /** No node has both a literal child and a capture child. */
  predicate NoMixedChildren(t: Trie)
    requires Shaped(t)
  {
    forall i, a, b :: 0 <= i < |t.kids| && 0 <= a < |t.kids[i]| && 0 <= b < |t.kids[i]| ==>
      (IsCapture(t.names[t.kids[i][a]]) <==> IsCapture(t.names[t.kids[i][b]]))
  }

  // ---------------------------------------------------------------------------
  // Pattern segments (mux.go:103-110)
  // ---------------------------------------------------------------------------

  /** The node names of a list of split pieces: empty pieces dropped, '/' appended to the rest. */
  function SegmentsOf(pieces: seq<string>): (segs: seq<string>)
    requires forall k :: 0 <= k < |pieces| ==> '/' !in pieces[k]
    ensures |segs| <= |pieces|
    ensures forall k :: 0 <= k < |segs| ==> IsSegmentName(segs[k])
  {
    if |pieces| == 0 then []
    else
      var last := pieces[|pieces| - 1];
      assert last + "/" == last + ['/'] && (last + "/")[..|last|] == last;
      SegmentsOf(pieces[..|pieces| - 1]) + (if last == "" then [] else [last + "/"])
  }

  /** The node names a registered pattern key is built from. */
  function Segments(pattern: string): (segs: seq<string>)
    ensures forall k :: 0 <= k < |segs| ==> IsSegmentName(segs[k])
  {
    SegmentsOf(Split(pattern, '/'))
  }

  /** Extending a prefix of the pieces by one piece adds that piece's name, if any. */
  lemma {:induction false} SegmentsOfPrefix(pieces: seq<string>, j: nat)
    requires forall k :: 0 <= k < |pieces| ==> '/' !in pieces[k]
    requires j < |pieces|
    ensures SegmentsOf(pieces[..j + 1]) ==
      SegmentsOf(pieces[..j]) + (if pieces[j] == "" then [] else [pieces[j] + "/"])
  {
    var q := pieces[..j + 1];
    assert q[..|q| - 1] == pieces[..j] && q[|q| - 1] == pieces[j];
  }

  /** An empty first piece (from a leading '/') adds no name. */
  lemma {:induction false} SegmentsOfLeadingEmpty(pieces: seq<string>)
    requires forall k :: 0 <= k < |pieces| ==> '/' !in pieces[k]
    ensures SegmentsOf([""] + pieces) == SegmentsOf(pieces)
    decreases |pieces|
  {
    var q := [""] + pieces;
    if |pieces| == 0 {
      assert q[..0] == [];
    } else {
      var last := pieces[|pieces| - 1];
      assert q[..|q| - 1] == [""] + pieces[..|pieces| - 1] && q[|q| - 1] == last;
      SegmentsOfLeadingEmpty(pieces[..|pieces| - 1]);
    }
  }

  /** An empty last piece (from a trailing '/') adds no name. */
  lemma SegmentsOfTrailingEmpty(pieces: seq<string>)
    requires forall k :: 0 <= k < |pieces| ==> '/' !in pieces[k]
    ensures SegmentsOf(pieces + [""]) == SegmentsOf(pieces)
  {
    assert (pieces + [""])[..|pieces|] == pieces;
  }

  // ---------------------------------------------------------------------------
  // Child lookup and walks
  // ---------------------------------------------------------------------------

  /** The position of the first child in `ks` named `name`, or |ks| when there is none. */
  function FindChild(names: seq<string>, ks: seq<nat>, name: string): (r: nat)
    ensures r <= |ks|
    ensures r < |ks| ==> ks[r] < |names| && names[ks[r]] == name
    ensures forall j :: 0 <= j < r ==> !(ks[j] < |names| && names[ks[j]] == name)
  {
    if |ks| == 0 then 0
    else if ks[0] < |names| && names[ks[0]] == name then 0
    else 1 + FindChild(names, ks[1..], name)
  }

  /** The child of node `n` named `name`, if there is one. */
  function Lookup(t: Trie, n: nat, name: string): (r: Option<nat>)
    requires Shaped(t) && n < |t.kids|
    ensures r.Some? ==> r.value in t.kids[n] && 0 < r.value < |t.names| && t.names[r.value] == name
    ensures r.None? ==> forall j :: 0 <= j < |t.kids[n]| ==> t.names[t.kids[n][j]] != name
  {
    var j := FindChild(t.names, t.kids[n], name);
    if j < |t.kids[n]| then Some(t.kids[n][j]) else None
  }

  /** The node reached from `n` by following the children named `segs`, one level each. */
  function Walk(t: Trie, n: nat, segs: seq<string>): (r: Option<nat>)
    requires Shaped(t) && n < |t.kids|
    ensures r.Some? ==> r.value < |t.names|
    decreases |segs|
  {
    if |segs| == 0 then Some(n)
    else match Lookup(t, n, segs[0])
      case None => None
      case Some(c) => Walk(t, c, segs[1..])
  }

  // ---------------------------------------------------------------------------
  // One node against a path: capture (mux.go:176-212)
  // ---------------------------------------------------------------------------

  /** What `capture` returns: a handler (None for nil), the remaining path, a capture key and value. */
  datatype Step = Step(h: Option<Handler>, sub: string, ck: string, cv: string)

  /** The `capture` step of one node (name `name`, handler `nodeH`) against the remaining path. */
  function Capture(name: string, nodeH: Option<Handler>, path: string): (r: Step)
    requires |name| > 0 && name[|name| - 1] == '/'
    // a capture node records its key, and binds the text before the first '/'
    ensures IsCapture(name) ==> r.ck == CaptureKey(name)
    ensures IsCapture(name) && '/' in path ==>
      && path == r.cv + "/" + r.sub && '/' !in r.cv
      && r.h == (if r.sub == "" then nodeH else None)
    ensures IsCapture(name) && '/' !in path ==> r == Step(None, "", r.ck, "")
    // a literal node consumes its own name when the path starts with it
    ensures !IsCapture(name) ==> r.ck == "" && r.cv == ""
    ensures !IsCapture(name) && name <= path ==>
      path == name + r.sub && r.h == (if r.sub == "" then nodeH else None)
    ensures !IsCapture(name) && !(name <= path) ==> r.h == None && r.sub == ""
    // a step that leaves a remainder makes progress
    ensures r.sub != "" ==> |r.sub| < |path|
  {
    if name[0] == ':' then
      var ck := name[1..|name| - 1];
      var slashIdx := Index(path, '/');
      if slashIdx == -1 then Step(None, "", ck, "")
      else
        var cv := path[..slashIdx];
        var sub := path[slashIdx + 1..];
        assert path == cv + "/" + sub;
        Step(if sub == "" then nodeH else None, sub, ck, cv)
    else
      var l := |name|;
      if l <= |path| && name == path[..l] then
        assert path == name + path[l..];
        if l == |path| then Step(nodeH, "", "", "")
        else Step(None, path[l..], "", "")
      else Step(None, "", "", "")
  }

  // ---------------------------------------------------------------------------
  // The walk of match (mux.go:233-266)
  // ---------------------------------------------------------------------------

  /** How the scan of one level's siblings ends. */
  datatype ScanResult =
    | Found(h: Handler, caps: map<string, string>)                // a terminal node with a handler
    | Exhausted(caps: map<string, string>)                        // no sibling matched
    | Descend(node: nat, sub: string, caps: map<string, string>)  // first partial match: go down

  /** The capture map after one step: the key (when non-empty) is bound to the captured value. */
  function Record(caps: map<string, string>, s: Step): map<string, string>
  {
    if s.ck != "" then caps[s.ck := s.cv] else caps
  }

  /** The inner loop of match: the children of `n` from position `i` on, tried in sibling order. */
  function Scan(t: Trie, n: nat, i: nat, p: string, caps: map<string, string>): (r: ScanResult)
    requires Shaped(t) && n < |t.kids| && i <= |t.kids[n]|
    ensures r.Descend? ==> r.node in t.kids[n] && r.node < |t.kids| && r.sub != "" && |r.sub| < |p|
    ensures r.Found? ==> exists c :: c in t.kids[n] && t.hs[c] == Some(r.h)
    decreases |t.kids[n]| - i
  {
    if i == |t.kids[n]| then Exhausted(caps)
    else
      var c := t.kids[n][i];
      var s := Capture(t.names[c], t.hs[c], p);
      var caps' := Record(caps, s);
      if s.h.Some? then Found(s.h.value, caps')
      else if s.sub == "" then Scan(t, n, i + 1, p, caps')
      else Descend(c, s.sub, caps')
  }

  /** Child `c` neither ends the walk with a handler nor leaves a remainder to descend with. */
  predicate Inert(t: Trie, c: nat, p: string)
    requires Shaped(t) && 0 < c < |t.names|
  {
    var s := Capture(t.names[c], t.hs[c], p);
    s.h.None? && s.sub == ""
  }

  /** Child `c` is the one that settles the scan with result `r`. */
  predicate Decides(t: Trie, c: nat, p: string, r: ScanResult)
    requires Shaped(t) && 0 < c < |t.names|
  {
    var s := Capture(t.names[c], t.hs[c], p);
    (r.Found? && s.h == Some(r.h)) || (r.Descend? && s.h.None? && r.node == c && r.sub == s.sub)
  }

  /** An inert child passes the scan on to the next sibling. */
  lemma ScanInert(t: Trie, n: nat, i: nat, p: string, caps: map<string, string>)
    requires Shaped(t) && n < |t.kids| && i < |t.kids[n]| && Inert(t, t.kids[n][i], p)
    ensures Scan(t, n, i, p, caps) ==
      Scan(t, n, i + 1, p, Record(caps, Capture(t.names[t.kids[n][i]], t.hs[t.kids[n][i]], p)))
  {
  }

  /** A child that is not inert ends the scan, and is the one that decides it. */
  lemma ScanStops(t: Trie, n: nat, i: nat, p: string, caps: map<string, string>)
    requires Shaped(t) && n < |t.kids| && i < |t.kids[n]| && !Inert(t, t.kids[n][i], p)
    ensures !Scan(t, n, i, p, caps).Exhausted? && Decides(t, t.kids[n][i], p, Scan(t, n, i, p, caps))
  {
  }

  /** The position of the first sibling from `i` on that is not inert, or |kids| when all are. */
  function FirstLive(t: Trie, n: nat, i: nat, p: string): (j: nat)
    requires Shaped(t) && n < |t.kids| && i <= |t.kids[n]|
    ensures i <= j <= |t.kids[n]|
    ensures j < |t.kids[n]| ==> !Inert(t, t.kids[n][j], p)
    ensures forall k :: i <= k < j ==> Inert(t, t.kids[n][k], p)
    decreases |t.kids[n]| - i
  {
    if i == |t.kids[n]| then i
    else if Inert(t, t.kids[n][i], p) then FirstLive(t, n, i + 1, p)
    else i
  }

  /**
   * The first sibling that matches wins: the scan is exhausted exactly when every
   * sibling is inert, and otherwise the first sibling that is not inert decides it;
   * later ones are not tried. A terminal node with a nil handler counts as inert,
   * so the scan skips it.
   */
  lemma {:induction false} ScanFirstMatch(t: Trie, n: nat, i: nat, p: string, caps: map<string, string>)
    requires Shaped(t) && n < |t.kids| && i <= |t.kids[n]|
    ensures Scan(t, n, i, p, caps).Exhausted? <==> FirstLive(t, n, i, p) == |t.kids[n]|
    ensures FirstLive(t, n, i, p) < |t.kids[n]| ==>
      Decides(t, t.kids[n][FirstLive(t, n, i, p)], p, Scan(t, n, i, p, caps))
    decreases |t.kids[n]| - i
  {
    if i < |t.kids[n]| {
      var c := t.kids[n][i];
      if Inert(t, c, p) {
        ScanInert(t, n, i, p, caps);
        ScanFirstMatch(t, n, i + 1, p, Record(caps, Capture(t.names[c], t.hs[c], p)));
      } else {
        ScanStops(t, n, i, p, caps);
      }
    }
  }

  /** What match returns: a handler (None for nil) and a capture map (None for a nil map). */
  datatype Route = Route(h: Option<Handler>, captures: Option<map<string, string>>)

  const NoMatch := Route(None, None)

  /**
   * The outer loop of match, starting at the children of `n` with remaining path `p`.
   * Where no sibling matches and `p` is non-empty, the source runs the same level
   * again forever (see SourcePass); this definition reports no match there.
   */
  function MatchFrom(t: Trie, n: nat, p: string, caps: map<string, string>): (r: Route)
    requires Shaped(t) && n < |t.kids|
    ensures r.h.Some? <==> r.captures.Some?
    // the handler found is the one stored at some non-root node
    ensures r.h.Some? ==> exists a :: 0 < a < |t.hs| && t.hs[a] == r.h
    decreases |p|
  {
    if |t.kids[n]| == 0 then NoMatch
    else match Scan(t, n, 0, p, caps)
      case Found(h, c) => Route(Some(h), Some(c))
      case Exhausted(_) => NoMatch
      case Descend(c, sub, c') => MatchFrom(t, c, sub, c')
  }

  /** match (mux.go:214-267): prefix check and strip, then the walk from the root's children. */
  function MatchPath(t: Trie, prefix: string, path: string): (r: Route)
    requires Shaped(t)
    ensures !(prefix <= path) || |path| == 0 ==> r == NoMatch
    ensures |path| > 0 && path == prefix ==> r == Route(t.hs[0], None)
    ensures r.captures.Some? ==> r.h.Some?
    ensures r.h.Some? ==> exists a :: 0 <= a < |t.hs| && t.hs[a] == r.h
  {
    if |path| == 0 || |path| < |prefix| then NoMatch
    else
      var lp := |prefix|;
      if prefix == path[..lp] then
        if |path| == lp then Route(t.hs[0], None)
        else MatchFrom(t, 0, path[lp..], map[])
      else NoMatch
  }

  // ---------------------------------------------------------------------------
  // Growing a trie (makeNode, mux.go:128-129)
  // ---------------------------------------------------------------------------

  /** The trie with a new, handler-less node `name` appended to the children of `n`. */
  function AppendChild(t: Trie, n: nat, name: string): (r: Trie)
    requires Shaped(t) && n < |t.kids| && IsSegmentName(name)
    ensures Shaped(r)
    ensures |r.names| == |t.names| + 1 && r.names[|t.names|] == name && r.hs[|t.names|] == None
    ensures forall a :: 0 <= a < |t.names| ==> r.names[a] == t.names[a] && r.hs[a] == t.hs[a]
    ensures r.kids[n] == t.kids[n] + [|t.names|] && r.kids[|t.names|] == []
    ensures forall a :: 0 <= a < |t.kids| && a != n ==> r.kids[a] == t.kids[a]
  {
    var r := Trie(t.names + [name], t.hs + [None], t.kids[n := t.kids[n] + [|t.names|]] + [[]]);
    assert forall i, j :: 0 <= i < |r.kids| && 0 <= j < |r.kids[i]| ==> 0 < r.kids[i][j] < |r.names| by {
      forall i, j | 0 <= i < |r.kids| && 0 <= j < |r.kids[i]| ensures 0 < r.kids[i][j] < |r.names| {
        if i == n && j == |t.kids[n]| {
        } else {
          assert r.kids[i][j] == t.kids[i][j];
        }
      }
    }
    r
  }

  /** A lookup over children that all lie below |names| is unaffected by names added later. */
  lemma {:induction false} FindChildExtend(names: seq<string>, more: seq<string>, ks: seq<nat>, x: string)
    requires forall j :: 0 <= j < |ks| ==> ks[j] < |names|
    ensures FindChild(names + more, ks, x) == FindChild(names, ks, x)
  {
    if |ks| > 0 {
      assert (names + more)[ks[0]] == names[ks[0]];
      FindChildExtend(names, more, ks[1..], x);
    }
  }

  /** Appending a child after the first match leaves the first match where it was. */
  lemma {:induction false} FindChildSnoc(names: seq<string>, ks: seq<nat>, c: nat, x: string)
    ensures FindChild(names, ks, x) < |ks| ==> FindChild(names, ks + [c], x) == FindChild(names, ks, x)
    ensures FindChild(names, ks, x) == |ks| && c < |names| && names[c] == x ==>
      FindChild(names, ks + [c], x) == |ks|
  {
    if |ks| > 0 {
      assert (ks + [c])[0] == ks[0] && (ks + [c])[1..] == ks[1..] + [c];
      FindChildSnoc(names, ks[1..], c, x);
    }
  }

  /** Every child found before an append is still found, and the new child is found by its name. */
  lemma AppendChildLookup(t: Trie, n: nat, name: string)
    requires Shaped(t) && n < |t.kids| && IsSegmentName(name)
    ensures forall a, x :: 0 <= a < |t.kids| && Lookup(t, a, x).Some? ==>
      Lookup(AppendChild(t, n, name), a, x) == Lookup(t, a, x)
    ensures Lookup(t, n, name).None? ==> Lookup(AppendChild(t, n, name), n, name) == Some(|t.names|)
  {
    var r := AppendChild(t, n, name);
    assert r.names == t.names + [name];
    forall a, x | 0 <= a < |t.kids| && Lookup(t, a, x).Some?
      ensures Lookup(r, a, x) == Lookup(t, a, x)
    {
      FindChildExtend(t.names, [name], t.kids[a], x);
      if a == n {
        FindChildSnoc(r.names, t.kids[n], |t.names|, x);
      }
    }
    if Lookup(t, n, name).None? {
      FindChildExtend(t.names, [name], t.kids[n], name);
      FindChildSnoc(r.names, t.kids[n], |t.names|, name);
    }
  }

  /** Appending a child whose name is new among its siblings, and which is not a second capture, keeps the trie valid. */
  lemma AppendChildValid(t: Trie, n: nat, name: string)
    requires Valid(t) && n < |t.kids| && IsSegmentName(name)
    requires Lookup(t, n, name).None?
    requires IsCapture(name) ==> forall j :: 0 <= j < |t.kids[n]| ==> !IsCapture(t.names[t.kids[n][j]])
    ensures Valid(AppendChild(t, n, name))
  {
    var r := AppendChild(t, n, name);
    forall i, a, b | 0 <= i < |r.kids| && 0 <= a < b < |r.kids[i]|
      ensures r.names[r.kids[i][a]] != r.names[r.kids[i][b]]
      ensures !(IsCapture(r.names[r.kids[i][a]]) && IsCapture(r.names[r.kids[i][b]]))
    {
      if i == n && b == |t.kids[n]| {
        assert r.kids[i][a] == t.kids[n][a] && r.kids[i][b] == |t.names|;
      } else {
        assert r.kids[i][a] == t.kids[i][a] && r.kids[i][b] == t.kids[i][b];
      }
    }
  }

  /** Walking a concatenation is walking the first part, then the rest from where it ends. */
  lemma {:induction false} WalkSplit(t: Trie, n: nat, s: seq<string>, j: nat)
    requires Shaped(t) && n < |t.kids| && j <= |s|
    ensures Walk(t, n, s) == match Walk(t, n, s[..j])
      case None => None
      case Some(e) => Walk(t, e, s[j..])
    decreases j
  {
    if j > 0 {
      assert s[..j][0] == s[0] && s[..j][1..] == s[1..][..j - 1] && s[j..] == s[1..][j - 1..];
      match Lookup(t, n, s[0])
      case None =>
      case Some(c) => WalkSplit(t, c, s[1..], j - 1);
    }
  }

  /** A walk that succeeded keeps succeeding, to the same node, in a trie whose lookups only grew. */
  lemma {:induction false} WalkStable(t: Trie, r: Trie, n: nat, s: seq<string>)
    requires Shaped(t) && Shaped(r) && n < |t.kids| && |t.kids| <= |r.kids|
    requires forall a, x :: 0 <= a < |t.kids| && Lookup(t, a, x).Some? ==> Lookup(r, a, x) == Lookup(t, a, x)
    requires Walk(t, n, s).Some?
    ensures Walk(r, n, s) == Walk(t, n, s)
    decreases |s|
  {
    if |s| > 0 {
      var c := Lookup(t, n, s[0]).value;
      WalkStable(t, r, c, s[1..]);
    }
  }

  /** Walks do not look at handlers. */
  lemma {:induction false} WalkIgnoresHandlers(t: Trie, r: Trie, n: nat, s: seq<string>)
    requires Shaped(t) && Shaped(r) && n < |t.kids| && r.names == t.names && r.kids == t.kids
    ensures Walk(r, n, s) == Walk(t, n, s)
    decreases |s|
  {
    if |s| > 0 {
      assert Lookup(r, n, s[0]) == Lookup(t, n, s[0]);
      match Lookup(t, n, s[0])
      case None =>
      case Some(c) => WalkIgnoresHandlers(t, r, c, s[1..]);
    }
  }
}
