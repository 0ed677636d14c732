/**
 * The bounded ancestry walk: two branches of a hash-linked block tree are followed for at most so many headers,
 * the second only until it meets the first, and their relation is classified from what was seen.
 */
module Inspect {
  import opened Common

  type Hash = Uid

  datatype Header = Header(height: nat, previous: Hash)

  /** The immutable blocks a node can serve. */
  type Tree = map<Hash, Header>

  /** A block above genesis has its parent one below it. */
  predicate LinkedAt(tree: Tree, h: Hash)
    requires h in tree
  {
    0 < tree[h].height ==> tree[h].previous in tree && tree[tree[h].previous].height + 1 == tree[h].height
  }

  ghost predicate Linked(tree: Tree)
  {
    forall h {:trigger LinkedAt(tree, h)} :: h in tree ==> LinkedAt(tree, h)
  }

  /** The ancestor at an exact distance. */
  function Ancestor(tree: Tree, h: Hash, distance: nat): (r: Option<Hash>)
    decreases distance
  {
    if h !in tree then None
    else if distance == 0 then Some(h)
    else if tree[h].height == 0 then None
    else Ancestor(tree, tree[h].previous, distance - 1)
  }

  /** The first n blocks from a tip towards genesis. */
  function Path(tree: Tree, tip: Hash, n: nat): (p: seq<Hash>)
    decreases n
  {
    if n == 0 || tip !in tree then []
    else [tip] + (if tree[tip].height == 0 then [] else Path(tree, tree[tip].previous, n - 1))
  }

  lemma {:induction false} PathAt(tree: Tree, tip: Hash, n: nat, k: nat)
    requires k < n
    ensures Ancestor(tree, tip, k) == if k < |Path(tree, tip, n)| then Some(Path(tree, tip, n)[k]) else None
    decreases n
  {
    if tip in tree && k != 0 && tree[tip].height != 0 {
      PathAt(tree, tree[tip].previous, n - 1, k - 1);
    }
  }

  /** A path is exactly the ancestors at a smaller distance. */
  lemma PathIsAncestry(tree: Tree, tip: Hash, n: nat, h: Hash)
    ensures h in Path(tree, tip, n) <==> exists k: nat :: k < n && Ancestor(tree, tip, k) == Some(h)
  {
    var path := Path(tree, tip, n);
    PathIsShort(tree, tip, n);
    if h in path {
      var k :| 0 <= k < |path| && path[k] == h;
      PathAt(tree, tip, n, k);
    }
    if k: nat :| k < n && Ancestor(tree, tip, k) == Some(h) {
      PathAt(tree, tip, n, k);
    }
  }

  lemma {:induction false} PathIsShort(tree: Tree, tip: Hash, n: nat)
    ensures |Path(tree, tip, n)| <= n
    decreases n
  {
    if n != 0 && tip in tree && tree[tip].height != 0 {
      PathIsShort(tree, tree[tip].previous, n - 1);
    }
  }

  /** A path up to and including its first known block. */
  function Until(path: seq<Hash>, known: set<Hash>): (p: seq<Hash>)
  {
    if path == [] then []
    else if path[0] in known then [path[0]]
    else [path[0]] + Until(path[1..], known)
  }

  function Members(s: seq<Hash>): (r: set<Hash>)
  {
    set h | h in s
  }

  /** The whole of a walk is what was done and what lies ahead. */
  ghost predicate Splits(whole: seq<Hash>, done: seq<Hash>, tree: Tree, at: Hash, n: nat, known: set<Hash>)
  {
    whole == done + Until(Path(tree, at, n), known)
  }

  lemma SplitsLast(whole: seq<Hash>, done: seq<Hash>, tree: Tree, at: Hash, n: nat, known: set<Hash>)
    requires 0 < n && at in tree && at in known && Splits(whole, done, tree, at, n, known)
    ensures whole == done + [at]
  {
    assert Until(Path(tree, at, n), known) == [at];
  }

  lemma SplitsFurther(whole: seq<Hash>, done: seq<Hash>, tree: Tree, at: Hash, n: nat, known: set<Hash>)
    requires 0 < n && at in tree && at !in known && Splits(whole, done, tree, at, n, known)
    ensures tree[at].height == 0 ==> whole == done + [at]
    ensures tree[at].height != 0 ==> Splits(whole, done + [at], tree, tree[at].previous, n - 1, known)
  {
    PathStep(tree, at, n);
    var ahead := Until(Path(tree, at, n)[1..], known);
    Further(done, at, ahead);
    assert Until(Path(tree, at, n), known) == [at] + ahead;
  }

  lemma Further(done: seq<Hash>, at: Hash, ahead: seq<Hash>)
    ensures done + ([at] + ahead) == (done + [at]) + ahead
    ensures ahead == [] ==> done + ([at] + ahead) == done + [at]
  {
  }

  /** A path is its tip and the path of its parent. */
  lemma PathStep(tree: Tree, at: Hash, n: nat)
    requires 0 < n && at in tree
    ensures var path := Path(tree, at, n);
      && path != [] && path[0] == at
      && path[1..] == (if tree[at].height == 0 then [] else Path(tree, tree[at].previous, n - 1))
  {
  }

  lemma MembersGrow(done: seq<Hash>, at: Hash)
    ensures Members(done + [at]) == Members(done) + {at}
  {
  }

  ghost predicate PartOf(part: Tree, tree: Tree)
  {
    forall h :: h in part ==> h in tree && part[h] == tree[h]
  }

  /** A header already captured, one just read, or a failure. */
  datatype Visit = Met(header: Header) | Read(header: Header) | Broken

  /** One turn of the walk: the known map first, then the node, and the link to the child below. */
  method Look(tree: Tree, fails: nat -> bool, call: nat, at: Hash, child: Option<nat>, known: Tree) returns (v: Visit)
    requires PartOf(known, tree)
    requires child.Some? ==> 0 < child.value && (at in tree ==> tree[at].height == child.value - 1)
    ensures v.Broken? <==> at !in known && (fails(call) || at !in tree)
    ensures v.Met? <==> at in known
    ensures !v.Broken? ==> at in tree && v.header == tree[at]
  {
    if at in known {
      if child.Some? && (child.value == 0 || known[at].height != child.value - 1) {
        return Broken;
      }
      return Met(known[at]);
    }
    if fails(call) || at !in tree {
      return Broken;
    }
    var header := tree[at];
    if child.Some? && (child.value == 0 || header.height != child.value - 1) {
      return Broken;
    }
    return Read(header);
  }

  /** walk: at most `blocks` headers, stopping at a known one; incomplete only when a read fails. */
  method Walk(tree: Tree, fails: nat -> bool, calls: nat, tip: Hash, known: Tree, blocks: nat)
    returns (seen: Tree, complete: bool)
    requires Linked(tree) && PartOf(known, tree)
    ensures PartOf(seen, tree)
    ensures complete ==> seen.Keys == Members(Until(Path(tree, tip, blocks), known.Keys))
    ensures tip in tree && (forall k: nat :: !fails(k)) ==> complete
  {
    seen := map[];
    var at, i := tip, 0;
    var child: Option<nat> := None;
    ghost var whole := Until(Path(tree, tip, blocks), known.Keys);
    ghost var left, done: seq<Hash> := blocks, [];
    assert whole == [] + whole;
    while i < blocks
      invariant 0 <= i <= blocks && left == blocks - i
      invariant PartOf(seen, tree) && seen.Keys == Members(done)
      invariant Splits(whole, done, tree, at, left, known.Keys) <==> true
      invariant tip in tree ==> at in tree
      invariant child.Some? ==> 0 < child.value && (at in tree ==> tree[at].height == child.value - 1)
    {
      var v := Look(tree, fails, calls + i, at, child, known);
      if v.Broken? {
        return seen, false;
      }
      MembersGrow(done, at);
      seen := seen[at := v.header];
      if v.Met? {
        SplitsLast(whole, done, tree, at, left, known.Keys);
        return seen, true;
      }
      SplitsFurther(whole, done, tree, at, left, known.Keys);
      if v.header.height == 0 {
        return seen, true;
      }
      assert LinkedAt(tree, at);
      child := Some(v.header.height);
      done, left := done + [at], left - 1;
      at, i := v.header.previous, i + 1;
    }
    assert done + [] == done;
    return seen, true;
  }

  datatype Relation = Same | ComparisonAncestor | PrimaryAncestor | Shared | Unknown

  /** How two tips are related through ancestors at a distance below the bound. */
  ghost function Truth(tree: Tree, tip: Hash, compare: Hash, blocks: nat): (r: Relation)
  {
    if tip == compare then Same
    else if compare in Path(tree, tip, blocks) then ComparisonAncestor
    else if tip in Path(tree, compare, blocks) then PrimaryAncestor
    else if exists h :: h in Path(tree, tip, blocks) && h in Path(tree, compare, blocks) then Shared
    else Unknown
  }

  /** inspectBitcoin's comparison; nothing is reported unless both walks complete. */
  method Compare(tree: Tree, fails: nat -> bool, tip: Hash, compare: Hash, blocks: nat) returns (r: Option<Relation>)
    requires Linked(tree)
    ensures r.Some? ==> r.value == Truth(tree, tip, compare, blocks)
    ensures tip in tree && compare in tree && (forall k: nat :: !fails(k)) ==> r.Some?
  {
    var nothing: Tree := map[];
    var left, leftComplete := Walk(tree, fails, 0, tip, nothing, blocks);
    var right: Tree, rightComplete := map[], true;
    if compare != tip {
      right, rightComplete := Walk(tree, fails, blocks, compare, left, blocks);
    }
    if !leftComplete || !rightComplete {
      return None;
    }
    var relation := Relate(left, right, tip, compare);
    if tip == compare {
      relation := Same;
    } else {
      NothingKnown(Path(tree, tip, blocks));
      assert nothing.Keys == {};
      Classified(tree, tip, compare, blocks, left.Keys, right.Keys);
    }
    return Some(relation);
  }

  /** The tests on the two maps, in the order they are made. */
  method Relate(left: Tree, right: Tree, tip: Hash, compare: Hash) returns (relation: Relation)
    ensures relation == Seen(left.Keys, right.Keys, tip, compare)
  {
    relation := Unknown;
    if compare in left {
      relation := ComparisonAncestor;
    } else if tip in right {
      relation := PrimaryAncestor;
    } else if left.Keys * right.Keys != {} {
      relation := Relation.Shared;
    }
  }

  function Seen(left: set<Hash>, right: set<Hash>, tip: Hash, compare: Hash): (r: Relation)
  {
    if compare in left then ComparisonAncestor
    else if tip in right then PrimaryAncestor
    else if left * right != {} then Relation.Shared
    else Unknown
  }

  // ---------------------------------------------------------------------------
  // Why stopping early loses nothing

  lemma {:induction false} NothingKnown(path: seq<Hash>)
    ensures Until(path, {}) == path
  {
    if path != [] {
      NothingKnown(path[1..]);
      assert path == [path[0]] + path[1..];
    }
  }

  lemma {:induction false} UntilIsPart(path: seq<Hash>, known: set<Hash>, h: Hash)
    requires h in Until(path, known)
    ensures h in path
  {
    if path[0] !in known && h != path[0] {
      UntilIsPart(path[1..], known, h);
    }
  }

  /** A path that meets the known blocks at all still meets them when it stops at the first. */
  lemma {:induction false} FirstIsKept(path: seq<Hash>, known: set<Hash>)
    ensures (exists h :: h in path && h in known) ==> exists h :: h in Until(path, known) && h in known
  {
    if path != [] {
      FirstIsKept(path[1..], known);
      if path[0] in known {
        assert path[0] in Until(path, known);
      } else if h :| h in path && h in known {
        assert h in path[1..];
        var g :| g in Until(path[1..], known) && g in known;
        assert g in Until(path, known);
      }
    }
  }

  lemma {:induction false} PathDescends(tree: Tree, tip: Hash, n: nat, i: nat)
    requires Linked(tree) && i < |Path(tree, tip, n)|
    ensures Path(tree, tip, n)[i] in tree && tree[Path(tree, tip, n)[i]].height + i == tree[tip].height
    decreases n
  {
    assert LinkedAt(tree, tip);
    if i != 0 {
      PathDescends(tree, tree[tip].previous, n - 1, i - 1);
    }
  }

  /** No ancestor of the primary tip other than itself can come before it on another path. */
  lemma {:induction false} TipIsFirstMet(tree: Tree, tip: Hash, from: Hash, n: nat, known: set<Hash>)
    requires Linked(tree) && tip in tree && tip in Path(tree, from, n)
    requires forall h :: h in known ==> h in tree && (h == tip || tree[h].height < tree[tip].height)
    ensures tip in Until(Path(tree, from, n), known)
    decreases n
  {
    PathStep(tree, from, n);
    if from != tip {
      TipIsAhead(tree, tip, from, n);
      TipIsFirstMet(tree, tip, tree[from].previous, n - 1, known);
    }
  }

  /** A path that leads to another block starts above it and leads there from its parent. */
  lemma TipIsAhead(tree: Tree, tip: Hash, from: Hash, n: nat)
    requires Linked(tree) && tip in tree && tip in Path(tree, from, n) && from != tip
    ensures from in tree && tree[from].height != 0 && tree[tip].height < tree[from].height
    ensures 0 < n && tip in Path(tree, tree[from].previous, n - 1)
  {
    var path := Path(tree, from, n);
    var i :| 0 <= i < |path| && path[i] == tip;
    PathDescends(tree, from, n, i);
    PathStep(tree, from, n);
    assert path[1..][i - 1] == tip;
  }

  /** Every block of a path is its tip or lies below it. */
  lemma PathIsBelow(tree: Tree, tip: Hash, n: nat, h: Hash)
    requires Linked(tree) && h in Path(tree, tip, n)
    ensures h in tree && (h == tip || tree[h].height < tree[tip].height)
  {
    var i :| 0 <= i < |Path(tree, tip, n)| && Path(tree, tip, n)[i] == h;
    PathDescends(tree, tip, n, i);
  }

  /** The shortened second walk decides the relation exactly as the whole path would. */
  lemma EarlyStopIsEnough(tree: Tree, tip: Hash, compare: Hash, blocks: nat)
    requires Linked(tree)
    ensures var left, right := Path(tree, tip, blocks), Path(tree, compare, blocks);
      var stopped := Until(right, Members(left));
      && (tip in stopped <==> tip in right)
      && ((exists h :: h in left && h in stopped) <==> (exists h :: h in left && h in right))
  {
    var left, right := Path(tree, tip, blocks), Path(tree, compare, blocks);
    var known := Members(left);
    FirstIsKept(right, known);
    forall h | h in known
      ensures h in tree && (h == tip || tree[h].height < tree[tip].height)
    {
      PathIsBelow(tree, tip, blocks, h);
    }
    if tip in right {
      PathIsBelow(tree, compare, blocks, tip);
      TipIsFirstMet(tree, tip, compare, blocks, known);
    }
    if tip in Until(right, known) {
      UntilIsPart(right, known, tip);
    }
    if h :| h in left && h in right {
      assert h in known;
      var g :| g in Until(right, known) && g in known;
      assert g in left;
    }
    if h :| h in left && h in Until(right, known) {
      UntilIsPart(right, known, h);
    }
  }

  /** The tests on what was seen give the true relation. */
  lemma Classified(tree: Tree, tip: Hash, compare: Hash, blocks: nat, left: set<Hash>, right: set<Hash>)
    requires Linked(tree) && tip != compare && left == Members(Path(tree, tip, blocks))
    requires right == Members(Until(Path(tree, compare, blocks), left))
    ensures Truth(tree, tip, compare, blocks) == Seen(left, right, tip, compare)
  {
    EarlyStopIsEnough(tree, tip, compare, blocks);
    if h :| h in Path(tree, tip, blocks) && h in Until(Path(tree, compare, blocks), left) {
      assert h in left * right;
    }
    if left * right != {} {
      var h :| h in left * right;
      UntilIsPart(Path(tree, compare, blocks), left, h);
      assert h in Path(tree, tip, blocks) && h in Path(tree, compare, blocks);
    }
  }
}
