/**
 * The router (mux/mux.go): prefix and pattern normalisation, registration,
 * one-time construction of the path trie with ambiguity detection, and
 * matching with the not-found fallback.
 */
module Mux {
  import opened Wrappers
  import opened Strings
  import opened Trie
  import Context

  /** The result of an operation that may panic: the panic's message, or normal return. */
  datatype Outcome = Ok | Panic(msg: string)

  const IndexOutOfRange := "runtime error: index out of range [0] with length 0"

  /** New's prefix normalisation (mux.go:31-39): a leading and a trailing '/' are added where missing. */
  function NormalizePrefix(prefix: string): (r: string)
    ensures |r| >= 1 && r[0] == '/' && r[|r| - 1] == '/'
    ensures prefix == "" ==> r == "/"
    ensures prefix != "" ==>
      r == (if prefix[0] == '/' then "" else "/") + prefix + (if prefix[|prefix| - 1] == '/' then "" else "/")
  {
    var p1 := if |prefix| == 0 then "/" else prefix;
    var p2 := if p1[0] != '/' then "/" + p1 else p1;
    var p3 := if p2[|p2| - 1] != '/' then p2 + "/" else p2;
    p3
  }

  /** A prefix that already starts and ends with '/' is returned unchanged, so normalising twice changes nothing. */
  lemma NormalizePrefixIdempotent(prefix: string)
    ensures prefix != "" && prefix[0] == '/' && prefix[|prefix| - 1] == '/' ==> NormalizePrefix(prefix) == prefix
    ensures NormalizePrefix(NormalizePrefix(prefix)) == NormalizePrefix(prefix)
  {
  }

  /** Handle's pattern normalisation (mux.go:82-87): one leading '/' removed, a trailing '/' added to a non-empty result. */
  function NormalizePattern(pattern: string): (r: string)
    requires pattern != ""
    ensures r == "" || r[|r| - 1] == '/'
    ensures var stripped := if pattern[0] == '/' then pattern[1..] else pattern;
      stripped <= r && |r| <= |stripped| + 1
    ensures var stripped := if pattern[0] == '/' then pattern[1..] else pattern;
      stripped != "" && stripped[|stripped| - 1] == '/' ==> r == stripped
    ensures var stripped := if pattern[0] == '/' then pattern[1..] else pattern;
      stripped != "" && stripped[|stripped| - 1] != '/' ==> r == stripped + "/"
    ensures pattern == "/" ==> r == ""
  {
    var p := if pattern[0] == '/' then pattern[1..] else pattern;
    if p != "" && p[|p| - 1] != '/' then p + "/" else p
  }

  /** Normalising a pattern changes only leading and trailing slashes, so the key has the pattern's names. */
  lemma NormalizePatternSegments(pattern: string)
    requires pattern != ""
    ensures Segments(NormalizePattern(pattern)) == Segments(pattern)
  {
    var p1 := if pattern[0] == '/' then pattern[1..] else pattern;
    if pattern[0] == '/' {
      assert pattern == ['/'] + p1;
      SplitLeadingSep(p1, '/');
      SegmentsOfLeadingEmpty(Split(p1, '/'));
    }
    if p1 != "" && p1[|p1| - 1] != '/' {
      SplitTrailingSep(p1, '/');
      SegmentsOfTrailingEmpty(Split(p1, '/'));
    }
  }

  /** Go's map read `mux.m[k]`: the stored handler, or nil when the key is absent. */
  function HandlerOf(m: map<string, Option<Handler>>, k: string): Option<Handler>
  {
    if k in m then m[k] else None
  }

  /** Two segment lists that agree up to position j and hold two different capture names there. */
  predicate AmbiguousAt(s1: seq<string>, s2: seq<string>, j: nat)
  {
    j < |s1| && j < |s2| && s1[..j] == s2[..j] && IsCapture(s1[j]) && IsCapture(s2[j]) && s1[j] != s2[j]
  }

  /** Some two registered keys put two differently named captures under the same node. */
  ghost predicate Ambiguous(m: map<string, Option<Handler>>)
  {
    exists k1, k2, j :: k1 in m && k2 in m && AmbiguousAt(Segments(k1), Segments(k2), j)
  }

  /** No other registered key has the same segments as `k` (such keys overwrite each other in Init). */
  ghost predicate UniqueSegments(m: map<string, Option<Handler>>, k: string)
  {
    forall k2 :: k2 in m && k2 != k ==> Segments(k2) != Segments(k)
  }

  /** Node `a` is reached by walking some non-empty prefix of a registered key's names. */
  ghost predicate OnSomeKey(t: Trie, m: map<string, Option<Handler>>, a: nat)
    requires Shaped(t)
  {
    exists k, j :: k in m && 0 < j <= |Segments(k)| && Walk(t, 0, Segments(k)[..j]) == Some(a)
  }

  /**
   * What Init guarantees of the trie it builds from prefix and registrations m:
   * every key with at least one name walks to a node holding its handler (when no
   * other key has the same names), every other node lies on some key's walk, and a
   * non-root node holds a handler only when it is some key's end. A key with no
   * names other than "" (such as "/", which Handle("//") stores) is bound nowhere:
   * the root holds m[""].
   */
  ghost predicate Built(t: Trie, prefix: string, m: map<string, Option<Handler>>)
  {
    && Valid(t)
    && t.names[0] == prefix && t.hs[0] == HandlerOf(m, "")
    && (forall k :: k in m && Segments(k) != [] ==> Walk(t, 0, Segments(k)).Some?)
    && (forall k :: k in m && Segments(k) != [] && UniqueSegments(m, k) ==>
          t.hs[Walk(t, 0, Segments(k)).value] == m[k])
    && NodesOnKeys(t, m)
    && HandlersAtKeyEnds(t, m)
  }

  /** Every non-root node lies on some registered key's walk. */
  ghost predicate NodesOnKeys(t: Trie, m: map<string, Option<Handler>>)
    requires Shaped(t)
  {
    forall a :: 0 < a < |t.names| ==> OnSomeKey(t, m, a)
  }

  /** A non-root node holds a handler only when it is the end of a registered key holding that handler. */
  ghost predicate HandlersAtKeyEnds(t: Trie, m: map<string, Option<Handler>>)
    requires Shaped(t)
  {
    forall a :: 0 < a < |t.hs| && t.hs[a].Some? ==>
      exists k :: k in m && Segments(k) != [] && Walk(t, 0, Segments(k)) == Some(a) && t.hs[a] == m[k]
  }

  /** What makeNode does at one node. */
  datatype MakeNodeResult =
    | Existing(child: nat)                 // a child of that name exists
    | Created(trie: Trie, child: nat)      // a new child was appended
    | AmbiguousSibling(other: nat, msg: string)   // another capture child is there: panic

  /**
   * makeNode (mux.go:118-132): find the child of `cur` named `name`, or panic on a
   * differently named capture sibling, or append a new child.
   */
  method MakeNode(t: Trie, cur: nat, pattern: string, name: string) returns (r: MakeNodeResult)
    requires Valid(t) && cur < |t.kids| && IsSegmentName(name)
    ensures r.Existing? <==> Lookup(t, cur, name).Some?
    ensures r.Existing? ==> r.child == Lookup(t, cur, name).value
    ensures r.AmbiguousSibling? <==>
      && Lookup(t, cur, name).None? && IsCapture(name)
      && exists j :: 0 <= j < |t.kids[cur]| && IsCapture(t.names[t.kids[cur][j]])
    ensures r.AmbiguousSibling? ==>
      && r.other in t.kids[cur] && IsCapture(t.names[r.other]) && t.names[r.other] != name
      && r.msg == "mux: pattern ambiguous: " + pattern + ", " + t.names[r.other]
    ensures r.Created? ==>
      && r.trie == AppendChild(t, cur, name) && r.child == |t.names|
      && Valid(r.trie) && Lookup(r.trie, cur, name) == Some(r.child)
  {
    var ks := t.kids[cur];
    var k := 0;
    while k < |ks|
      invariant 0 <= k <= |ks|
      invariant forall j :: 0 <= j < k ==> t.names[ks[j]] != name
      invariant IsCapture(name) ==> forall j :: 0 <= j < k ==> !IsCapture(t.names[ks[j]])
    {
      var child := ks[k];
      if t.names[child] == name {
        return Existing(child);
      } else if t.names[child][0] == ':' && name[0] == ':' {
        forall j | 0 <= j < |ks| ensures t.names[ks[j]] != name {
          if j < k {
          } else if j > k {
            assert !(IsCapture(t.names[ks[k]]) && IsCapture(t.names[ks[j]]));
          }
        }
        return AmbiguousSibling(child, "mux: pattern ambiguous: " + pattern + ", " + t.names[child]);
      }
      k := k + 1;
    }
    AppendChildValid(t, cur, name);
    AppendChildLookup(t, cur, name);
    return Created(AppendChild(t, cur, name), |t.names|);
  }

  /**
   * Bookkeeping for Init: paths[a] is the list of names on the way from the root to
   * node a, and owner[a] is the registered key whose insertion created node a.
   */
  ghost predicate Tracked(t: Trie, paths: seq<seq<string>>, owner: seq<string>, segsOf: map<string, seq<string>>)
  {
    && Valid(t)
    && |paths| == |t.names| && |owner| == |t.names| && paths[0] == []
    && (forall a, b :: 0 <= a < |t.kids| && 0 <= b < |t.kids[a]| ==>
          paths[t.kids[a][b]] == paths[a] + [t.names[t.kids[a][b]]])
    && (forall a :: 1 <= a < |t.names| ==> owner[a] in segsOf && paths[a] <= segsOf[owner[a]])
  }

  /** Every non-root node is reached from the root by walking its path. */
  ghost predicate Reach(t: Trie, paths: seq<seq<string>>)
    requires Shaped(t)
  {
    |paths| == |t.names| && forall a :: 0 < a < |t.names| ==> Walk(t, 0, paths[a]) == Some(a)
  }

  /** r keeps the handlers of t's nodes, and the nodes r adds have a nil handler. */
  ghost predicate HandlersKept(t: Trie, r: Trie)
  {
    && |t.hs| <= |r.hs|
    && (forall a :: 0 <= a < |t.hs| ==> r.hs[a] == t.hs[a])
    && (forall a :: |t.hs| <= a < |r.hs| ==> r.hs[a] == None)
  }

  /** Keeping handlers composes. */
  lemma HandlersKeptTrans(t1: Trie, t2: Trie, t3: Trie)
    requires HandlersKept(t1, t2) && HandlersKept(t2, t3)
    ensures HandlersKept(t1, t3)
  {
  }

  /** A node appended below the others, at the end of path p, keeps every node reachable. */
  lemma ReachGrow(t: Trie, r: Trie, paths: seq<seq<string>>, p: seq<string>)
    requires Shaped(t) && Shaped(r) && Reach(t, paths) && |r.names| == |t.names| + 1
    requires forall a, x :: 0 <= a < |t.kids| && Lookup(t, a, x).Some? ==> Lookup(r, a, x) == Lookup(t, a, x)
    requires Walk(r, 0, p) == Some(|t.names|)
    ensures Reach(r, paths + [p])
  {
    var np := paths + [p];
    forall a | 0 < a < |r.names| ensures Walk(r, 0, np[a]) == Some(a) {
      if a < |t.names| {
        assert np[a] == paths[a];
        WalkStable(t, r, 0, paths[a]);
      }
    }
  }

  /** Every lookup that succeeds in t succeeds in r with the same child. */
  ghost predicate LookupsGrow(t: Trie, r: Trie)
    requires Shaped(t) && Shaped(r)
  {
    && |t.kids| <= |r.kids|
    && forall a, x :: 0 <= a < |t.kids| && Lookup(t, a, x).Some? ==> Lookup(r, a, x) == Lookup(t, a, x)
  }

  lemma LookupsGrowTrans(t1: Trie, t2: Trie, t3: Trie)
    requires Shaped(t1) && Shaped(t2) && Shaped(t3) && LookupsGrow(t1, t2) && LookupsGrow(t2, t3)
    ensures LookupsGrow(t1, t3)
  {
  }

  /** The bookkeeping of a child: its path is its parent's path and its own name. */
  lemma ChildPath(t: Trie, paths: seq<seq<string>>, owner: seq<string>, segsOf: map<string, seq<string>>, cur: nat, child: nat)
    requires Tracked(t, paths, owner, segsOf) && cur < |t.kids| && child in t.kids[cur]
    ensures paths[child] == paths[cur] + [t.names[child]]
  {
    var b :| 0 <= b < |t.kids[cur]| && t.kids[cur][b] == child;
  }

  /** Appending a child created for `pattern` keeps the bookkeeping. */
  lemma TrackedAppend(t: Trie, cur: nat, name: string, paths: seq<seq<string>>, owner: seq<string>,
                      segsOf: map<string, seq<string>>, pattern: string)
    requires Tracked(t, paths, owner, segsOf) && cur < |t.kids| && IsSegmentName(name)
    requires Valid(AppendChild(t, cur, name))
    requires pattern in segsOf && paths[cur] + [name] <= segsOf[pattern]
    ensures Tracked(AppendChild(t, cur, name), paths + [paths[cur] + [name]], owner + [pattern], segsOf)
  {
    var nt := AppendChild(t, cur, name);
    var np := paths + [paths[cur] + [name]];
    var no := owner + [pattern];
    forall a, b | 0 <= a < |nt.kids| && 0 <= b < |nt.kids[a]|
      ensures np[nt.kids[a][b]] == np[a] + [nt.names[nt.kids[a][b]]]
    {
      if a == cur && b == |t.kids[cur]| {
      } else if a < |t.kids| {
        assert nt.kids[a][b] == t.kids[a][b];
      }
    }
    forall a | 1 <= a < |nt.names| ensures no[a] in segsOf && np[a] <= segsOf[no[a]] {
      if a < |t.names| {
        assert no[a] == owner[a] && np[a] == paths[a];
      }
    }
  }

  /** A second capture child under the node reached by segs[..j] was created for a key that makes the keys ambiguous. */
  lemma AmbiguityWitness(t: Trie, paths: seq<seq<string>>, owner: seq<string>, segsOf: map<string, seq<string>>,
                         cur: nat, o: nat, segs: seq<string>, j: nat)
    requires Tracked(t, paths, owner, segsOf) && cur < |t.kids| && o in t.kids[cur]
    requires j < |segs| && paths[cur] == segs[..j]
    requires IsCapture(t.names[o]) && IsCapture(segs[j]) && t.names[o] != segs[j]
    ensures owner[o] in segsOf && AmbiguousAt(segsOf[owner[o]], segs, j)
  {
    ChildPath(t, paths, owner, segsOf, cur, o);
    var s1 := segsOf[owner[o]];
    assert paths[o] <= s1 && |paths[o]| == j + 1;
    assert s1[..j] == paths[o][..j] && s1[j] == paths[o][j];
  }

  /** The invariant of InsertPath's loop after j of the names: cur is the node they lead to. */
  ghost predicate InsertInv(t: Trie, tr: Trie, paths: seq<seq<string>>, owner: seq<string>,
                            segsOf: map<string, seq<string>>, segs: seq<string>, j: nat, cur: nat)
  {
    && j <= |segs| && Shaped(t)
    && Tracked(tr, paths, owner, segsOf) && LookupsGrow(t, tr)
    && cur < |tr.names| && Walk(tr, 0, segs[..j]) == Some(cur) && paths[cur] == segs[..j]
    && (j > 0 ==> cur != 0)
    && |t.names| <= |tr.names| && (forall a :: 0 <= a < |t.names| ==> tr.hs[a] == t.hs[a] && tr.names[a] == t.names[a])
  }

  lemma ExistingStep(t: Trie, tr: Trie, paths: seq<seq<string>>, owner: seq<string>,
                     segsOf: map<string, seq<string>>, segs: seq<string>, j: nat, cur: nat, child: nat)
    requires InsertInv(t, tr, paths, owner, segsOf, segs, j, cur) && j < |segs|
    requires Lookup(tr, cur, segs[j]) == Some(child)
    ensures InsertInv(t, tr, paths, owner, segsOf, segs, j + 1, child)
  {
    assert segs[..j + 1][..j] == segs[..j];
    assert segs[..j + 1][j..] == [segs[j]];
    assert segs[..j + 1] == segs[..j] + [segs[j]];
    WalkSplit(tr, 0, segs[..j + 1], j);
    ChildPath(tr, paths, owner, segsOf, cur, child);
  }

  lemma CreatedStep(t: Trie, tr: Trie, paths: seq<seq<string>>, owner: seq<string>,
                    segsOf: map<string, seq<string>>, pattern: string, segs: seq<string>, j: nat, cur: nat)
    requires InsertInv(t, tr, paths, owner, segsOf, segs, j, cur) && j < |segs| && IsSegmentName(segs[j])
    requires pattern in segsOf && segsOf[pattern] == segs
    requires Lookup(tr, cur, segs[j]).None? && Valid(AppendChild(tr, cur, segs[j]))
    ensures InsertInv(t, AppendChild(tr, cur, segs[j]), paths + [segs[..j + 1]], owner + [pattern], segsOf, segs, j + 1, |tr.names|)
  {
    var nt := AppendChild(tr, cur, segs[j]);
    assert segs[..j + 1][..j] == segs[..j];
    assert segs[..j + 1][j..] == [segs[j]];
    assert segs[..j + 1] == segs[..j] + [segs[j]];
    assert segs[..j + 1] <= segs;
    AppendChildLookup(tr, cur, segs[j]);
    WalkStable(tr, nt, 0, segs[..j]);
    WalkSplit(nt, 0, segs[..j + 1], j);
    TrackedAppend(tr, cur, segs[j], paths, owner, segsOf, pattern);
    LookupsGrowTrans(t, tr, nt);
  }

  /** The node created for segs[j] below cur is reachable, and so is every earlier node; it starts with a nil handler. */
  lemma CreatedReach(tr: Trie, cur: nat, paths: seq<seq<string>>, segs: seq<string>, j: nat)
    requires Shaped(tr) && Reach(tr, paths) && cur < |tr.kids| && j < |segs| && IsSegmentName(segs[j])
    requires Walk(AppendChild(tr, cur, segs[j]), 0, segs[..j + 1]) == Some(|tr.names|)
    ensures Reach(AppendChild(tr, cur, segs[j]), paths + [segs[..j + 1]])
    ensures HandlersKept(tr, AppendChild(tr, cur, segs[j]))
  {
    AppendChildLookup(tr, cur, segs[j]);
    ReachGrow(tr, AppendChild(tr, cur, segs[j]), paths, segs[..j + 1]);
  }

  /** How one level of an insertion ends: the node for that level, or a panic caused by key `other`. */
  datatype StepResult = Stepped(trie: Trie, end: nat) | StepPanicked(msg: string)

  /** One iteration of Init's inner loop (mux.go:136-139): makeNode for segs[j] at node cur. */
  method InsertStep(t: Trie, tr: Trie, ghost paths: seq<seq<string>>, ghost owner: seq<string>,
                    ghost segsOf: map<string, seq<string>>, pattern: string, segs: seq<string>, j: nat, cur: nat)
    returns (r: StepResult, ghost paths': seq<seq<string>>, ghost owner': seq<string>, ghost other: string)
    requires InsertInv(t, tr, paths, owner, segsOf, segs, j, cur) && j < |segs|
    requires pattern in segsOf && segsOf[pattern] == segs && IsSegmentName(segs[j])
    requires Reach(tr, paths)
    ensures r.Stepped? ==> InsertInv(t, r.trie, paths', owner', segsOf, segs, j + 1, r.end)
    ensures r.Stepped? ==> Reach(r.trie, paths') && HandlersKept(tr, r.trie)
    ensures r.StepPanicked? ==>
      && other in segsOf && AmbiguousAt(segsOf[other], segs, j)
      && r.msg == "mux: pattern ambiguous: " + pattern + ", " + segsOf[other][j]
  {
    var res := MakeNode(tr, cur, pattern, segs[j]);
    match res {
    case AmbiguousSibling(o, msg) =>
      AmbiguityWitness(tr, paths, owner, segsOf, cur, o, segs, j);
      ChildPath(tr, paths, owner, segsOf, cur, o);
      return StepPanicked(msg), paths, owner, owner[o];
    case Existing(child) =>
      ExistingStep(t, tr, paths, owner, segsOf, segs, j, cur, child);
      return Stepped(tr, child), paths, owner, "";
    case Created(nt, child) =>
      CreatedStep(t, tr, paths, owner, segsOf, pattern, segs, j, cur);
      CreatedReach(tr, cur, paths, segs, j);
      return Stepped(nt, child), paths + [segs[..j + 1]], owner + [pattern], "";
    }
  }

  /** How inserting one pattern's names ends. */
  datatype InsertResult = Inserted(trie: Trie, end: nat) | Panicked(msg: string)

  /**
   * The body of Init's second loop (mux.go:135-139): walk the names of `pattern`
   * from the root, finding or creating one child per name.
   */
  method InsertPath(t: Trie, pattern: string, segs: seq<string>,
                    ghost paths: seq<seq<string>>, ghost owner: seq<string>, ghost segsOf: map<string, seq<string>>)
    returns (r: InsertResult, ghost paths': seq<seq<string>>, ghost owner': seq<string>, ghost other: string, ghost at: nat)
    requires Tracked(t, paths, owner, segsOf) && pattern in segsOf && segsOf[pattern] == segs && segs != []
    requires forall k :: 0 <= k < |segs| ==> IsSegmentName(segs[k])
    requires Reach(t, paths)
    ensures r.Inserted? ==>
      && Tracked(r.trie, paths', owner', segsOf) && LookupsGrow(t, r.trie)
      && 0 < r.end < |r.trie.names| && Walk(r.trie, 0, segs) == Some(r.end) && paths'[r.end] == segs
      && (forall a :: 0 <= a < |t.names| ==> r.trie.hs[a] == t.hs[a] && r.trie.names[a] == t.names[a])
    ensures r.Inserted? ==> Reach(r.trie, paths') && HandlersKept(t, r.trie)
    ensures r.Panicked? ==> other in segsOf && AmbiguousAt(segsOf[other], segs, at)
    ensures r.Panicked? ==> r.msg == "mux: pattern ambiguous: " + pattern + ", " + segsOf[other][at]
  {
    var cur := 0;
    var j := 0;
    var tr := t;
    paths', owner', other, at := paths, owner, "", 0;
    while j < |segs|
      invariant 0 <= j <= |segs|
      invariant InsertInv(t, tr, paths', owner', segsOf, segs, j, cur)
      invariant Reach(tr, paths') && HandlersKept(t, tr)
    {
      var res, np, no, o := InsertStep(t, tr, paths', owner', segsOf, pattern, segs, j, cur);
      if res.StepPanicked? {
        return Panicked(res.msg), paths', owner', o, j;
      }
      HandlersKeptTrans(t, tr, res.trie);
      tr, paths', owner', cur := res.trie, np, no, res.end;
      j := j + 1;
    }
    assert segs[..j] == segs;
    return Inserted(tr, cur), paths', owner', other, at;
  }

  /** In tracked bookkeeping, the node a walk reaches has the walked names as its path. */
  lemma {:induction false} WalkPath(t: Trie, paths: seq<seq<string>>, owner: seq<string>, segsOf: map<string, seq<string>>,
                                    n: nat, s: seq<string>)
    requires Tracked(t, paths, owner, segsOf) && n < |t.kids| && Walk(t, n, s).Some?
    ensures paths[Walk(t, n, s).value] == paths[n] + s
    decreases |s|
  {
    if |s| == 0 {
      assert paths[n] + s == paths[n];
    } else {
      var c := Lookup(t, n, s[0]).value;
      ChildPath(t, paths, owner, segsOf, n, c);
      WalkPath(t, paths, owner, segsOf, c, s[1..]);
      assert paths[n] + [s[0]] + s[1..] == paths[n] + s;
    }
  }

  /**
   * The invariant of Init's second loop: the root is in place, and every key already
   * inserted (those in endNode) walks to its node, whose handler is the key's own
   * unless another key has the same names.
   */
  ghost predicate BuildInv(t: Trie, paths: seq<seq<string>>, owner: seq<string>, segsOf: map<string, seq<string>>,
                           endNode: map<string, nat>, m: map<string, Option<Handler>>, prefix: string)
  {
    && Tracked(t, paths, owner, segsOf) && t.names[0] == prefix && t.hs[0] == HandlerOf(m, "")
    && (forall k :: k in endNode ==> k in segsOf && 0 < endNode[k] < |t.names| && Walk(t, 0, segsOf[k]) == Some(endNode[k]))
    && (forall k :: k in endNode && k in m && UniqueSegments(m, k) ==> t.hs[endNode[k]] == m[k])
    && Reach(t, paths) && HandlersAtEnds(t, endNode, m)
  }

  /** A non-root node holds a handler only when it is the end node of an inserted key holding that handler. */
  ghost predicate HandlersAtEnds(t: Trie, endNode: map<string, nat>, m: map<string, Option<Handler>>)
  {
    forall a :: 0 < a < |t.hs| && t.hs[a].Some? ==>
      exists k :: k in endNode && k in m && endNode[k] == a && t.hs[a] == m[k]
  }

  /** The bookkeeping does not look at handlers. */
  lemma TrackedHandlers(t: Trie, r: Trie, paths: seq<seq<string>>, owner: seq<string>, segsOf: map<string, seq<string>>)
    requires Tracked(t, paths, owner, segsOf) && r.names == t.names && r.kids == t.kids && |r.hs| == |t.hs|
    ensures Tracked(r, paths, owner, segsOf)
  {
  }

  /** Inserting `pattern`, ending at node cur, and setting cur's handler keeps BuildInv with pattern added to endNode. */
  lemma RecordEnd(t: Trie, paths: seq<seq<string>>, owner: seq<string>, nt: Trie, paths': seq<seq<string>>, owner': seq<string>,
                  segsOf: map<string, seq<string>>, endNode: map<string, nat>, m: map<string, Option<Handler>>,
                  prefix: string, pattern: string, cur: nat)
    requires BuildInv(t, paths, owner, segsOf, endNode, m, prefix)
    requires Tracked(nt, paths', owner', segsOf) && LookupsGrow(t, nt)
    requires forall a :: 0 <= a < |t.names| ==> nt.hs[a] == t.hs[a] && nt.names[a] == t.names[a]
    requires forall k :: k in segsOf ==> segsOf[k] == Segments(k)
    requires pattern in segsOf && pattern in m && 0 < cur < |nt.names| && cur < |nt.hs|
    requires Walk(nt, 0, segsOf[pattern]) == Some(cur)
    ensures Tracked(nt.(hs := nt.hs[cur := m[pattern]]), paths', owner', segsOf)
    ensures nt.(hs := nt.hs[cur := m[pattern]]).names[0] == prefix
    ensures nt.(hs := nt.hs[cur := m[pattern]]).hs[0] == HandlerOf(m, "")
    ensures var t' := nt.(hs := nt.hs[cur := m[pattern]]); var e := endNode[pattern := cur];
      forall k :: k in e ==> k in segsOf && 0 < e[k] < |t'.names| && Walk(t', 0, segsOf[k]) == Some(e[k])
    ensures var t' := nt.(hs := nt.hs[cur := m[pattern]]); var e := endNode[pattern := cur];
      forall k :: k in e && k in m && UniqueSegments(m, k) ==> t'.hs[e[k]] == m[k]
  {
    var t' := nt.(hs := nt.hs[cur := m[pattern]]);
    var e := endNode[pattern := cur];
    TrackedHandlers(nt, t', paths', owner', segsOf);
    assert t'.names[0] == prefix && t'.hs[0] == HandlerOf(m, "");
    WalkIgnoresHandlers(nt, t', 0, segsOf[pattern]);
    forall k | k in e
      ensures k in segsOf && 0 < e[k] < |t'.names| && Walk(t', 0, segsOf[k]) == Some(e[k])
      ensures k in m && UniqueSegments(m, k) ==> t'.hs[e[k]] == m[k]
    {
      if k != pattern {
        EarlierKeyKept(t, nt, paths', owner', segsOf, m, pattern, cur, k, endNode[k]);
      }
    }
  }

  /** RecordEnd for one key inserted earlier, ending at node e: its walk survives, and e is not cur unless the key shares pattern's names. */
  lemma EarlierKeyKept(t: Trie, nt: Trie, paths': seq<seq<string>>, owner': seq<string>,
                       segsOf: map<string, seq<string>>, m: map<string, Option<Handler>>,
                       pattern: string, cur: nat, k: string, e: nat)
    requires Shaped(t) && Tracked(nt, paths', owner', segsOf) && LookupsGrow(t, nt)
    requires forall a :: 0 <= a < |t.names| ==> nt.hs[a] == t.hs[a]
    requires pattern in segsOf && pattern in m && segsOf[pattern] == Segments(pattern)
    requires 0 < cur < |nt.names| && cur < |nt.hs| && Walk(nt, 0, segsOf[pattern]) == Some(cur)
    requires k in segsOf && k != pattern && segsOf[k] == Segments(k)
    requires 0 < e < |t.names| && Walk(t, 0, segsOf[k]) == Some(e)
    requires k in m && UniqueSegments(m, k) ==> t.hs[e] == m[k]
    ensures var t' := nt.(hs := nt.hs[cur := m[pattern]]);
      && 0 < e < |t'.names| && Walk(t', 0, segsOf[k]) == Some(e)
      && (k in m && UniqueSegments(m, k) ==> t'.hs[e] == m[k])
  {
    var t' := nt.(hs := nt.hs[cur := m[pattern]]);
    WalkStable(t, nt, 0, segsOf[k]);
    WalkIgnoresHandlers(nt, t', 0, segsOf[k]);
    if k in m && UniqueSegments(m, k) {
      WalkPath(nt, paths', owner', segsOf, 0, segsOf[k]);
      WalkPath(nt, paths', owner', segsOf, 0, segsOf[pattern]);
      assert paths'[0] + segsOf[k] == segsOf[k] && paths'[0] + segsOf[pattern] == segsOf[pattern];
      assert segsOf[k] != segsOf[pattern];
    }
  }

  /** The lone root node satisfies BuildInv with no key inserted. */
  lemma RootBuildInv(segsOf: map<string, seq<string>>, m: map<string, Option<Handler>>, prefix: string)
    ensures BuildInv(Trie([prefix], [HandlerOf(m, "")], [[]]), [[]], [""], segsOf, map[], m, prefix)
  {
  }

  /** Setting the handler of a newly inserted key's end node keeps every node reachable, and every handler at some key's end. */
  lemma RecordHandlers(t: Trie, nt: Trie, paths': seq<seq<string>>, endNode: map<string, nat>,
                       m: map<string, Option<Handler>>, pattern: string, cur: nat)
    requires Shaped(t) && Shaped(nt) && HandlersKept(t, nt) && Reach(nt, paths')
    requires pattern !in endNode && pattern in m && 0 < cur < |nt.hs|
    requires HandlersAtEnds(t, endNode, m)
    ensures var t' := nt.(hs := nt.hs[cur := m[pattern]]); Shaped(t') && Reach(t', paths')
    ensures HandlersAtEnds(nt.(hs := nt.hs[cur := m[pattern]]), endNode[pattern := cur], m)
  {
    var t' := nt.(hs := nt.hs[cur := m[pattern]]);
    var e := endNode[pattern := cur];
    forall a | 0 < a < |t'.names| ensures Walk(t', 0, paths'[a]) == Some(a) {
      WalkIgnoresHandlers(nt, t', 0, paths'[a]);
    }
    forall a | 0 < a < |t'.hs| && t'.hs[a].Some?
      ensures exists k :: k in e && k in m && e[k] == a && t'.hs[a] == m[k]
    {
      if a == cur {
        assert e[pattern] == cur;
      } else {
        assert a < |t.hs| && t.hs[a] == t'.hs[a];
        var k :| k in endNode && k in m && endNode[k] == a && t.hs[a] == m[k];
        assert k != pattern && e[k] == a;
      }
    }
  }

  /** Once every key with names is in endNode, BuildInv is Built. */
  lemma BuildDone(t: Trie, paths: seq<seq<string>>, owner: seq<string>, segsOf: map<string, seq<string>>,
                  endNode: map<string, nat>, m: map<string, Option<Handler>>, prefix: string)
    requires BuildInv(t, paths, owner, segsOf, endNode, m, prefix)
    requires forall k :: k in segsOf <==> k in m && Segments(k) != []
    requires forall k :: k in segsOf ==> segsOf[k] == Segments(k) && k in endNode
    ensures Built(t, prefix, m)
  {
    ReachedOnKeys(t, paths, owner, segsOf, m);
    EndsAtKeys(t, segsOf, endNode, m);
  }

  /** Tracked bookkeeping with every node reachable: each node lies on the walk of the key that created it. */
  lemma ReachedOnKeys(t: Trie, paths: seq<seq<string>>, owner: seq<string>, segsOf: map<string, seq<string>>,
                      m: map<string, Option<Handler>>)
    requires Tracked(t, paths, owner, segsOf) && Reach(t, paths)
    requires forall k :: k in segsOf ==> k in m && segsOf[k] == Segments(k)
    ensures NodesOnKeys(t, m)
  {
    forall a | 0 < a < |t.names| ensures OnSomeKey(t, m, a) {
      var k := owner[a];
      var j := |paths[a]|;
      assert Walk(t, 0, paths[a]) == Some(a);
      assert j > 0;
      assert Segments(k)[..j] == paths[a];
    }
  }

  /** With every key's end node recorded, a handler held at an end node is at a key's walk end. */
  lemma EndsAtKeys(t: Trie, segsOf: map<string, seq<string>>, endNode: map<string, nat>, m: map<string, Option<Handler>>)
    requires Shaped(t) && HandlersAtEnds(t, endNode, m)
    requires forall k :: k in endNode ==> k in segsOf && Walk(t, 0, segsOf[k]) == Some(endNode[k])
    requires forall k :: k in segsOf ==> segsOf[k] == Segments(k) != []
    ensures HandlersAtKeyEnds(t, m)
  {
    forall a | 0 < a < |t.hs| && t.hs[a].Some?
      ensures exists k :: k in m && Segments(k) != [] && Walk(t, 0, Segments(k)) == Some(a) && t.hs[a] == m[k]
    {
      var k :| k in endNode && k in m && endNode[k] == a && t.hs[a] == m[k];
      assert Walk(t, 0, Segments(k)) == Some(a);
    }
  }

  /** OneCapture: a node with a capture child named x has no capture child of any other name. */
  lemma TwoCapturesExcluded(t: Trie, n: nat, x: string, y: string)
    requires Valid(t) && n < |t.kids| && IsCapture(x) && IsCapture(y) && x != y
    requires Lookup(t, n, x).Some?
    ensures Lookup(t, n, y).None?
  {
    var a :| 0 <= a < |t.kids[n]| && t.kids[n][a] == Lookup(t, n, x).value;
    forall j | 0 <= j < |t.kids[n]| ensures !IsCapture(t.names[t.kids[n][j]]) || t.kids[n][j] == t.kids[n][a] {
      if j != a {
        var lo, hi := if j < a then j else a, if j < a then a else j;
        assert !(IsCapture(t.names[t.kids[n][lo]]) && IsCapture(t.names[t.kids[n][hi]]));
      }
    }
  }

  /** Two walks that both succeed and agree up to position j reach one node, which has children named s1[j] and s2[j]. */
  lemma SharedWalk(t: Trie, s1: seq<string>, s2: seq<string>, j: nat)
    requires Valid(t) && j < |s1| && j < |s2| && s1[..j] == s2[..j]
    requires Walk(t, 0, s1).Some? && Walk(t, 0, s2).Some?
    ensures var n := Walk(t, 0, s1[..j]);
      n.Some? && n.value < |t.kids| && Lookup(t, n.value, s1[j]).Some? && Lookup(t, n.value, s2[j]).Some?
  {
    WalkSplit(t, 0, s1, j);
    WalkSplit(t, 0, s2, j);
    var n := Walk(t, 0, s1[..j]).value;
    assert s1[j..][0] == s1[j] && s2[j..][0] == s2[j];
  }

  /** Two keys that both have walks in a valid trie are not ambiguous at any position. */
  lemma WalksNotAmbiguous(t: Trie, s1: seq<string>, s2: seq<string>, j: nat)
    requires Valid(t) && Walk(t, 0, s1).Some? && Walk(t, 0, s2).Some?
    ensures !AmbiguousAt(s1, s2, j)
  {
    if j < |s1| && j < |s2| && s1[..j] == s2[..j] && IsCapture(s1[j]) && IsCapture(s2[j]) && s1[j] != s2[j] {
      SharedWalk(t, s1, s2, j);
      TwoCapturesExcluded(t, Walk(t, 0, s1[..j]).value, s1[j], s2[j]);
      assert false;
    }
  }

  /** A trie with a walk for every key cannot hold two capture children under one node, so the keys are not ambiguous. */
  lemma BuiltNotAmbiguous(t: Trie, prefix: string, m: map<string, Option<Handler>>)
    requires Built(t, prefix, m)
    ensures !Ambiguous(m)
  {
    forall k1, k2, j: nat | k1 in m && k2 in m
      ensures !AmbiguousAt(Segments(k1), Segments(k2), j)
    {
      if Segments(k1) != [] && Segments(k2) != [] {
        WalksNotAmbiguous(t, Segments(k1), Segments(k2), j);
      }
    }
  }

  /** The names of one key (mux.go:103-110): the split pieces with empties skipped and '/' appended. */
  method SegmentNames(pattern: string) returns (segs: seq<string>)
    ensures segs == Segments(pattern)
  {
    var names := Split(pattern, '/');
    segs := [];
    var j := 0;
    while j < |names|
      invariant 0 <= j <= |names|
      invariant segs == SegmentsOf(names[..j])
    {
      var piece := names[j];
      SegmentsOfPrefix(names, j);
      segs := segs + (if piece == "" then [] else [piece + "/"]);
      j := j + 1;
    }
    TakeAll(names);
  }

  /**
   * Init's first loop (mux.go:102-111): the names of every registered key that has
   * any. Go visits the keys in an unspecified order; here the next key is any one
   * not yet visited.
   */
  method CollectSegments(m: map<string, Option<Handler>>) returns (segsOf: map<string, seq<string>>)
    ensures forall k :: k in segsOf <==> k in m && Segments(k) != []
    ensures forall k :: k in segsOf ==> segsOf[k] == Segments(k)
  {
    segsOf := map[];
    var todo := m.Keys;
    while todo != {}
      invariant todo <= m.Keys
      invariant forall k :: k in segsOf <==> k in m && k !in todo && Segments(k) != []
      invariant forall k :: k in segsOf ==> segsOf[k] == Segments(k)
      decreases |todo|
    {
      var pattern :| pattern in todo;
      var segs := SegmentNames(pattern);
      if segs != [] {
        segsOf := segsOf[pattern := segs];
      }
      todo := todo - {pattern};
    }
  }

  /** How Init's construction ends: the finished trie, or a panic on ambiguous keys. */
  datatype InitResult = Initialized(root: Trie) | InitPanicked(msg: string)

  /**
   * One iteration of Init's second loop (mux.go:135-140): insert the names of
   * `pattern` and set the handler of the node they end at.
   */
  method AddKey(t: Trie, ghost paths: seq<seq<string>>, ghost owner: seq<string>, segsOf: map<string, seq<string>>,
                ghost endNode: map<string, nat>, m: map<string, Option<Handler>>, ghost prefix: string, pattern: string)
    returns (r: InsertResult, ghost paths': seq<seq<string>>, ghost owner': seq<string>, ghost endNode': map<string, nat>)
    requires BuildInv(t, paths, owner, segsOf, endNode, m, prefix)
    requires forall k :: k in segsOf ==> k in m && segsOf[k] == Segments(k) != []
    requires pattern in segsOf && pattern !in endNode
    ensures r.Inserted? ==> BuildInv(r.trie, paths', owner', segsOf, endNode', m, prefix) && endNode' == endNode[pattern := r.end]
    ensures r.Panicked? ==> Ambiguous(m) && "mux: pattern ambiguous: " <= r.msg
  {
    var res, np, no, other, at := InsertPath(t, pattern, segsOf[pattern], paths, owner, segsOf);
    if res.Panicked? {
      assert AmbiguousAt(Segments(other), Segments(pattern), at);
      return res, np, no, endNode;
    }
    RecordEnd(t, paths, owner, res.trie, np, no, segsOf, endNode, m, prefix, pattern, res.end);
    RecordHandlers(t, res.trie, np, endNode, m, pattern, res.end);
    var nt := res.trie.(hs := res.trie.hs[res.end := m[pattern]]);
    return Inserted(nt, res.end), np, no, endNode[pattern := res.end];
  }

  /** Init's second loop (mux.go:113-141): the root node, then one insertion per key with names, in any order. */
  method BuildTrie(prefix: string, m: map<string, Option<Handler>>, segsOf: map<string, seq<string>>)
    returns (r: InitResult)
    requires forall k :: k in segsOf <==> k in m && Segments(k) != []
    requires forall k :: k in segsOf ==> segsOf[k] == Segments(k)
    ensures r.Initialized? ==> Built(r.root, prefix, m)
    ensures r.InitPanicked? <==> Ambiguous(m)
    ensures r.InitPanicked? ==> "mux: pattern ambiguous: " <= r.msg
  {
    var t := Trie([prefix], [HandlerOf(m, "")], [[]]);
    ghost var paths: seq<seq<string>> := [[]];
    ghost var owner: seq<string> := [""];
    ghost var endNode: map<string, nat> := map[];
    RootBuildInv(segsOf, m, prefix);
    var todo := segsOf.Keys;
    while todo != {}
      invariant todo <= segsOf.Keys
      invariant BuildInv(t, paths, owner, segsOf, endNode, m, prefix)
      invariant forall k :: k in endNode <==> k in segsOf && k !in todo
      decreases |todo|
    {
      var pattern :| pattern in todo;
      var res, paths', owner', endNode' := AddKey(t, paths, owner, segsOf, endNode, m, prefix, pattern);
      if res.Panicked? {
        return InitPanicked(res.msg);
      }
      t, paths, owner, endNode := res.trie, paths', owner', endNode';
      todo := todo - {pattern};
    }
    BuildDone(t, paths, owner, segsOf, endNode, m, prefix);
    BuiltNotAmbiguous(t, prefix, m);
    return Initialized(t);
  }

  /** A handler that match returns on a built trie is one registered for some key. */
  lemma RoutedHandlerRegistered(t: Trie, prefix: string, m: map<string, Option<Handler>>, path: string)
    requires Built(t, prefix, m)
    ensures MatchPath(t, prefix, path).h.Some? ==> exists k :: k in m && m[k] == MatchPath(t, prefix, path).h
  {
    var r := MatchPath(t, prefix, path);
    if r.h.Some? {
      var a :| 0 <= a < |t.hs| && t.hs[a] == r.h;
      if a == 0 {
        assert "" in m && m[""] == r.h;
      } else {
        var k :| k in m && Segments(k) != [] && Walk(t, 0, Segments(k)) == Some(a) && t.hs[a] == m[k];
      }
    }
  }

  /** With nothing registered, Init builds the lone root, and every request is served by the fallback. */
  lemma EmptyRouterNotFound(t: Trie, prefix: string, path: string, notFound: Handler)
    requires Built(t, prefix, map[])
    ensures |t.names| == 1 && t.hs[0] == None
    ensures ServingHandler(MatchPath(t, prefix, path), notFound) == notFound
  {
    RoutedHandlerRegistered(t, prefix, map[], path);
    // no key, so no node lies on a key's walk
    assert !OnSomeKey(t, map[], 1);
  }

  /** Handle("//") stores the key "/", which has no names, so Init gives it no node. */
  lemma NamelessKeyUnbound(t: Trie, prefix: string, h: Handler)
    requires Built(t, prefix, map["/" := Some(h)])
    ensures NormalizePattern("//") == "/" && Segments("/") == []
    ensures t.hs[0] == None && |t.names| == 1
  {
    assert Split("/", '/') == ["", ""];
    assert !OnSomeKey(t, map["/" := Some(h)], 1);
  }

  /** What match does on the router's root: a route, or a nil dereference when there is no root yet. */
  datatype MatchOutcome = Matched(route: Route) | NilRoot

  /** What ServeHTTP does: the handler that serves the request, or a panic. */
  datatype Served = Serve(h: Handler) | ServePanic(msg: string)

  /** What ServeHTTPWithContext does: the new context, or a panic. */
  datatype CtxOutcome = NewContext(c: Context.Ctx) | CtxPanic(msg: string)

  /** The handler ServeHTTP calls for a route: its own, or the fallback when match found none. */
  function ServingHandler(route: Route, notFound: Handler): (h: Handler)
    ensures route.h.Some? ==> h == route.h.value
    ensures route.h.None? ==> h == notFound
  {
    if route.h.None? then notFound else route.h.value
  }

  class Mux {
    var prefix: string
    var m: map<string, Option<Handler>>
    var root: Option<Trie>   // None until Init
    var notFound: Handler

    /** Once inited, the trie is the one Init builds from the prefix and the registrations. */
    ghost predicate Inv()
      reads this
    {
      root.Some? ==> Built(root.value, prefix, m)
    }

    /** New (mux.go:26-47): normalised prefix, no registrations, http.NotFound for a nil fallback. */
    constructor New(prefix0: string, notFound0: Option<Handler>)
      ensures prefix == NormalizePrefix(prefix0) && m == map[] && root == None
      ensures notFound == (if notFound0.None? then NotFound else notFound0.value)
      ensures Inv()
    {
      prefix := NormalizePrefix(prefix0);
      m := map[];
      root := None;
      notFound := if notFound0.None? then NotFound else notFound0.value;
    }

    /** Handle (mux.go:77-95): register a handler under the normalised pattern, before Init only. */
    method Handle(pattern: string, h: Option<Handler>) returns (r: Outcome)
      modifies this
      requires Inv()
      ensures Inv()
      ensures prefix == old(prefix) && root == old(root) && notFound == old(notFound)
      ensures old(root).Some? ==> r == Panic("mux: already inited.") && m == old(m)
      ensures old(root).None? && pattern == "" ==> r == Panic(IndexOutOfRange) && m == old(m)
      ensures old(root).None? && pattern != "" && NormalizePattern(pattern) in old(m) ==>
        r == Panic("mux: pattern existed: " + NormalizePattern(pattern)) && m == old(m)
      ensures old(root).None? && pattern != "" && NormalizePattern(pattern) !in old(m) ==>
        r == Ok && m == old(m)[NormalizePattern(pattern) := h]
    {
      if root.Some? {
        return Panic("mux: already inited.");
      }
      if pattern == "" {
        return Panic(IndexOutOfRange);
      }
      var p := pattern;
      if p[0] == '/' {
        p := p[1..];
      }
      if p != "" && p[|p| - 1] != '/' {
        p := p + "/";
      }
      if p in m {
        return Panic("mux: pattern existed: " + p);
      }
      m := m[p := h];
      return Ok;
    }

    /**
     * Init (mux.go:97-152): build the trie once. Both loops visit map keys in an
     * unspecified order, and the contract holds for every order.
     */
    method Init() returns (r: Outcome)
      requires Inv()
      modifies this
      ensures Inv()
      ensures prefix == old(prefix) && m == old(m) && notFound == old(notFound)
      ensures old(root).Some? ==> r == Ok && root == old(root)
      ensures old(root).None? && r.Ok? ==> root.Some? && Built(root.value, prefix, m)
      ensures old(root).None? ==> (r.Panic? <==> Ambiguous(m))
      ensures r.Panic? ==> root == None && "mux: pattern ambiguous: " <= r.msg
    {
      if root.Some? {
        return Ok;
      }
      var segsOf := CollectSegments(m);
      var res := BuildTrie(prefix, m, segsOf);
      match res {
      case Initialized(t) =>
        root := Some(t);
        return Ok;
      case InitPanicked(msg) =>
        return Panic(msg);
      }
    }

    /**
     * match (mux.go:214-267) on the current root. Before Init the root is nil, and
     * a path that passes the prefix check dereferences it.
     */
    method Match(path: string) returns (r: MatchOutcome)
      requires Inv()
      ensures root.Some? ==> r == Matched(MatchPath(root.value, prefix, path))
      ensures root.None? ==> (r == NilRoot <==> |path| > 0 && prefix <= path)
      ensures root.None? && r.Matched? ==> r.route == NoMatch
    {
      if |path| == 0 || |path| < |prefix| {
        return Matched(NoMatch);
      }
      var lp := |prefix|;
      if prefix != path[..lp] {
        return Matched(NoMatch);
      }
      if root.None? {
        return NilRoot;
      }
      var t := root.value;
      if |path| == lp {
        return Matched(Route(t.hs[0], None));
      }
      var p := path[lp..];
      var cur: nat := 0;
      var caps: map<string, string> := map[];
      while true
        invariant cur < |t.kids| && p != ""
        invariant MatchFrom(t, cur, p, caps) == MatchPath(t, prefix, path)
        decreases |p|
      {
        var ns := t.kids[cur];
        if |ns| == 0 {
          return Matched(NoMatch);
        }
        ghost var scan := Scan(t, cur, 0, p, caps);
        var i := 0;
        var descend, child, sub := false, 0, "";
        while i < |ns|
          invariant 0 <= i <= |ns|
          invariant !descend ==> Scan(t, cur, i, p, caps) == scan
          invariant descend ==> scan == Descend(child, sub, caps)
          decreases |ns| - i
        {
          var c := ns[i];
          var s := Capture(t.names[c], t.hs[c], p);
          if s.ck != "" {
            caps := caps[s.ck := s.cv];
          }
          if s.h.Some? {
            return Matched(Route(s.h, Some(caps)));
          }
          if s.sub != "" {
            descend, child, sub := true, c, s.sub;
            break;
          }
          i := i + 1;
        }
        if !descend {
          // The source starts the same scan again here and never returns.
          return Matched(NoMatch);
        }
        cur, p := child, sub;
      }
    }

    /** ServeHTTP (mux.go:49-56): the matched handler serves the request, or the not-found handler when there is none. */
    method ServeHTTP(path: string) returns (r: Served)
      requires Inv()
      ensures root.Some? ==> r == Serve(ServingHandler(MatchPath(root.value, prefix, path), notFound))
      ensures root.None? ==> (r.ServePanic? <==> |path| > 0 && prefix <= path)
      ensures root.None? && r.Serve? ==> r.h == notFound
    {
      var res := Match(path);
      if res.NilRoot? {
        return ServePanic(NilDereference);
      }
      var h := if res.route.h.None? then notFound else res.route.h.value;
      return Serve(h);
    }

    /** ServeHTTPWithContext (mux.go:72-75): the parent context with the capture map stored under the router's key. */
    method ServeHTTPWithContext(parent: Context.Ctx, path: string) returns (r: CtxOutcome)
      requires Inv()
      ensures root.Some? ==> r == NewContext(Context.WithCaptures(parent, MatchPath(root.value, prefix, path).captures))
      ensures root.None? ==> (r.CtxPanic? <==> |path| > 0 && prefix <= path)
      ensures root.None? && r.NewContext? ==> r.c == Context.WithCaptures(parent, None)
    {
      var res := Match(path);
      if res.NilRoot? {
        return CtxPanic(NilDereference);
      }
      return NewContext(Context.WithCaptures(parent, res.route.captures));
    }
  }
}
