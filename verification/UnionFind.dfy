/**
 Disjoint sets kept in one array of parents: find with path halving, union without ranks. What the
 array represents is the root of every element.
 */
module UnionFind {
  /** Element `i` leads to the root recorded for it, and `rank` falls on the way. */
  ghost predicate Leads(p: seq<nat>, root: seq<nat>, rank: seq<nat>, i: nat)
    requires i < |p| == |root| == |rank|
  {
    && p[i] < |p| && root[i] < |p|
    && p[root[i]] == root[i]
    && root[p[i]] == root[i]
    && (p[i] == i ==> root[i] == i)
    && (p[i] != i ==> rank[p[i]] < rank[i])
  }

  ghost predicate Forest(p: seq<nat>, root: seq<nat>, rank: seq<nat>) {
    && |root| == |rank| == |p|
    && (forall i :: 0 <= i < |p| ==> Leads(p, root, rank, i))
  }

  ghost predicate Represents(p: seq<nat>, root: seq<nat>) {
    exists rank :: Forest(p, root, rank)
  }

  /** The roots after the sets rooted at `a` and `b` became one, rooted at `a`. */
  ghost function Merged(root: seq<nat>, a: nat, b: nat): (r: seq<nat>)
    ensures |r| == |root|
  {
    seq(|root|, i requires 0 <= i < |root| => if root[i] == b then a else root[i])
  }

  /** The ranks that go with `Merged`: everything below `b` is lifted above `a`. */
  ghost function Lifted(root: seq<nat>, rank: seq<nat>, a: nat, b: nat): (r: seq<nat>)
    requires |rank| == |root| && a < |rank|
    ensures |r| == |rank|
  {
    seq(|rank|, i requires 0 <= i < |rank| => if root[i] == b then rank[i] + rank[a] + 1 else rank[i])
  }

  /** One halving step: `r` is linked to its grandparent, which is nearer the same root. */
  lemma HalvingKeepsForest(p: seq<nat>, root: seq<nat>, rank: seq<nat>, r: nat)
    requires Forest(p, root, rank) && r < |p| && p[r] != r
    ensures p[r] < |p| && p[p[r]] < |p|
    ensures Forest(p[r := p[p[r]]], root, rank)
    ensures root[p[p[r]]] == root[r] && rank[p[p[r]]] < rank[r]
  {
    var up := p[r];
    assert Leads(p, root, rank, r) && Leads(p, root, rank, up) && Leads(p, root, rank, p[up]);
    var q := p[r := p[up]];
    forall i | 0 <= i < |q| ensures Leads(q, root, rank, i) {
      assert Leads(p, root, rank, i);
      assert root[i] != r;
    }
  }

  /** Linking the root `b` under the root `a` merges their two sets. */
  lemma LinkKeepsForest(p: seq<nat>, root: seq<nat>, rank: seq<nat>, a: nat, b: nat)
    requires Forest(p, root, rank) && a < |p| && b < |p| && a != b && p[a] == a && p[b] == b
    ensures Forest(p[b := a], Merged(root, a, b), Lifted(root, rank, a, b))
  {
    var q, merged, lifted := p[b := a], Merged(root, a, b), Lifted(root, rank, a, b);
    assert Leads(p, root, rank, a) && Leads(p, root, rank, b);
    forall i | 0 <= i < |q| ensures Leads(q, merged, lifted, i) {
      assert Leads(p, root, rank, i) && Leads(p, root, rank, p[i]);
    }
  }

  lemma RootIsRoot(p: seq<nat>, root: seq<nat>, value: nat)
    requires Represents(p, root) && value < |p|
    ensures |root| == |p| && root[value] < |p| && p[root[value]] == root[value]
  {
    var rank :| Forest(p, root, rank);
    assert Leads(p, root, rank, value);
  }

  /** A new element starts as a set of its own. */
  lemma NewElement(p: seq<nat>, root: seq<nat>)
    requires Represents(p, root)
    ensures Represents(p + [|p|], root + [|p|])
  {
    var rank :| Forest(p, root, rank);
    var q, root', rank' := p + [|p|], root + [|p|], rank + [0];
    forall i | 0 <= i < |q| ensures Leads(q, root', rank', i) {
      assert i < |p| ==> Leads(p, root, rank, i);
    }
    assert Forest(q, root', rank');
  }

  /**
   Finds the root among the first `|root|` elements, the ones added so far. Every second link on the
   way is shortened, and no root changes.
   */
  method Find(parents: array<nat>, value: nat, ghost root: seq<nat>) returns (r: nat)
    requires |root| <= parents.Length && value < |root| && Represents(parents[..|root|], root)
    modifies parents
    ensures r == root[value]
    ensures Represents(parents[..|root|], root)
  {
    ghost var n := |root|;
    ghost var rank :| Forest(parents[..n], root, rank);
    r := value;
    assert Leads(parents[..n], root, rank, r);
    while parents[r] != r
      invariant r < n && Forest(parents[..n], root, rank) && root[r] == root[value]
      decreases rank[r]
    {
      ghost var before := parents[..n];
      HalvingKeepsForest(before, root, rank, r);
      parents[r] := parents[parents[r]];
      assert parents[..n] == before[r := before[before[r]]];
      r := parents[r];
    }
    assert Leads(parents[..n], root, rank, r);
  }

  /** The two sets become one; every other set is untouched. */
  method Union(parents: array<nat>, left: nat, right: nat, ghost root: seq<nat>)
    requires |root| <= parents.Length && left < |root| && right < |root| && Represents(parents[..|root|], root)
    modifies parents
    ensures Represents(parents[..|root|], Merged(root, root[left], root[right]))
  {
    var leftRoot := Find(parents, left, root);
    var rightRoot := Find(parents, right, root);
    ghost var before := parents[..|root|];
    RootIsRoot(before, root, left);
    RootIsRoot(before, root, right);
    if leftRoot != rightRoot {
      ghost var rank :| Forest(before, root, rank);
      LinkKeepsForest(before, root, rank, leftRoot, rightRoot);
      parents[rightRoot] := leftRoot;
      assert parents[..|root|] == before[rightRoot := leftRoot];
    } else {
      assert Merged(root, leftRoot, rightRoot) == root;
    }
  }
}
