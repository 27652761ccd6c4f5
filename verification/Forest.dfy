/** The disjoint-set forest of the island partition. */
module Forest {
  // `find` with path splitting and `union` by rank over two flat arrays.  Ranks are `u8` in the program and grow
  // with a saturating add, so strict rank increase along parent links is only safe because ranks stay far below
  // 255; the invariant therefore carries the classical size bound.

  import opened Prelude

  /** Node indices are `u32`. */
  const MAX_NODES: nat := 0x1_0000_0000

  lemma Pow2Monotone(a: nat, b: nat)
    requires a <= b
    ensures Pow2(a) <= Pow2(b)
    decreases b
  {
    if a < b { Pow2Monotone(a, b - 1); }
  }

  function SaturatingIncrement(x: nat): nat {
    if x >= U8_MAX then U8_MAX else x + 1
  }

  /** Parent links stay in range and every link climbs strictly in rank. */
  ghost predicate Ranked(parent: seq<nat>, rank: seq<nat>) {
    && |parent| == |rank|
    && (forall i :: 0 <= i < |parent| ==> parent[i] < |parent|)
    && (forall i :: 0 <= i < |rank| ==> rank[i] <= U8_MAX)
    && (forall i :: 0 <= i < |parent| && parent[i] != i ==> rank[i] < rank[parent[i]])
  }

  /** The representative reached by following parent links. */
  ghost function Root(parent: seq<nat>, rank: seq<nat>, x: nat): (r: nat)
    requires Ranked(parent, rank) && x < |parent|
    ensures r < |parent| && parent[r] == r
    ensures rank[x] <= rank[r]
    ensures parent[x] == x ==> r == x
    decreases U8_MAX - rank[x]
  {
    if parent[x] == x then x else Root(parent, rank, parent[x])
  }

  ghost function Class(parent: seq<nat>, rank: seq<nat>, r: nat): set<nat>
    requires Ranked(parent, rank)
  {
    set i | 0 <= i < |parent| && Root(parent, rank, i) == r
  }

  /** A root of rank `k` stands for at least `2^k` nodes. */
  ghost predicate Heavy(parent: seq<nat>, rank: seq<nat>)
    requires Ranked(parent, rank)
  {
    forall r :: 0 <= r < |parent| && parent[r] == r ==>
      Pow2(rank[r]) <= |Class(parent, rank, r)|
  }

  ghost predicate Valid(parent: seq<nat>, rank: seq<nat>) {
    && |parent| <= MAX_NODES
    && Ranked(parent, rank)
    && Heavy(parent, rank)
  }

  lemma BelowSize(c: set<nat>, n: nat)
    requires forall i :: i in c ==> i < n
    ensures |c| <= n
  {
    if n > 0 {
      BelowSize(c - {n - 1}, n - 1);
    }
  }

  lemma Pow2Of32()
    ensures Pow2(32) == MAX_NODES
  {
    assert Pow2(8) == 256;
    assert Pow2(16) == 65536;
    assert Pow2(24) == 16777216;
  }

  /** The `u8` rank never comes near saturation: with at most 2^32 nodes it is at most 32. */
  lemma RankNeverSaturates(parent: seq<nat>, rank: seq<nat>, x: nat)
    requires Valid(parent, rank) && x < |parent|
    ensures rank[x] <= 32
  {
    var r := Root(parent, rank, x);
    BelowSize(Class(parent, rank, r), |parent|);
    Pow2Of32();
    assert Pow2(33) == 2 * Pow2(32);
    if rank[r] > 32 {
      Pow2Monotone(33, rank[r]);
    }
  }

  /** One splitting step, `parent[x] := parent[parent[x]]`, moves no root. */
  lemma {:induction false} SplitKeepsRoots(parent: seq<nat>, rank: seq<nat>, x: nat, i: nat)
    requires Ranked(parent, rank) && x < |parent| && i < |parent|
    requires Ranked(parent[x := parent[parent[x]]], rank)
    ensures Root(parent[x := parent[parent[x]]], rank, i) == Root(parent, rank, i)
    decreases U8_MAX - rank[i]
  {
    var split := parent[x := parent[parent[x]]];
    if parent[i] != i {
      SplitKeepsRoots(parent, rank, x, parent[i]);
      if i == x && split[i] != i {
        SplitKeepsRoots(parent, rank, x, split[i]);
      }
    }
  }

  lemma SplitKeepsValid(parent: seq<nat>, rank: seq<nat>, x: nat)
    requires Valid(parent, rank) && x < |parent|
    ensures Valid(parent[x := parent[parent[x]]], rank)
    ensures forall i :: 0 <= i < |parent| ==>
      Root(parent[x := parent[parent[x]]], rank, i) == Root(parent, rank, i)
  {
    var split := parent[x := parent[parent[x]]];
    assert Ranked(split, rank);
    forall i | 0 <= i < |parent|
      ensures Root(split, rank, i) == Root(parent, rank, i)
    {
      SplitKeepsRoots(parent, rank, x, i);
    }
    forall r | 0 <= r < |split| && split[r] == r
      ensures Pow2(rank[r]) <= |Class(split, rank, r)|
    {
      assert Class(split, rank, r) == Class(parent, rank, r);
    }
  }

  /** `find` with path splitting: returns the representative and changes no representative. */
  method Find(parent: array<nat>, ghost rank: seq<nat>, x0: nat) returns (r: nat)
    requires Valid(parent[..], rank) && x0 < parent.Length
    modifies parent
    ensures Valid(parent[..], rank)
    ensures r == old(Root(parent[..], rank, x0))
    ensures forall i :: 0 <= i < parent.Length ==>
      Root(parent[..], rank, i) == old(Root(parent[..], rank, i))
  {
    var x: nat := x0;
    while parent[x] != x
      invariant x < parent.Length && |rank| == parent.Length
      invariant Valid(parent[..], rank)
      invariant Root(parent[..], rank, x) == old(Root(parent[..], rank, x0))
      invariant forall i :: 0 <= i < parent.Length ==>
        Root(parent[..], rank, i) == old(Root(parent[..], rank, i))
      decreases U8_MAX - rank[x]
    {
      var p: nat := parent[x];
      ghost var before := parent[..];
      SplitKeepsValid(before, rank, x);
      parent[x] := parent[p];
      assert parent[..] == before[x := before[before[x]]];
      x := p;
    }
    r := x;
  }

  /** Hanging root `child` below root `top` relabels exactly the nodes of `child`. */
  lemma {:induction false} HangRoots(parent: seq<nat>, rank: seq<nat>, parent': seq<nat>, rank': seq<nat>,
                  top: nat, child: nat, i: nat)
    requires Ranked(parent, rank) && Ranked(parent', rank')
    requires top < |parent| && child < |parent| && top != child && i < |parent|
    requires parent[top] == top && parent[child] == child
    requires parent' == parent[child := top]
    ensures Root(parent', rank', i) ==
      if Root(parent, rank, i) == child then top else Root(parent, rank, i)
    decreases U8_MAX - rank[i]
  {
    if parent[i] != i {
      HangRoots(parent, rank, parent', rank', top, child, parent[i]);
    }
  }

  /** Node `i` of the second forest has the first one's root, with root `child` renamed to `top`. */
  ghost predicate Renamed(parent: seq<nat>, rank: seq<nat>, parent': seq<nat>, rank': seq<nat>,
                          top: nat, child: nat)
    requires Ranked(parent, rank) && Ranked(parent', rank') && |parent'| == |parent|
  {
    forall i :: 0 <= i < |parent| ==>
      Root(parent', rank', i) ==
        if Root(parent, rank, i) == child then top else Root(parent, rank, i)
  }

  lemma RenamedClasses(parent: seq<nat>, rank: seq<nat>, parent': seq<nat>, rank': seq<nat>,
                       top: nat, child: nat, r: nat)
    requires Ranked(parent, rank) && Ranked(parent', rank') && |parent'| == |parent|
    requires top != child && Renamed(parent, rank, parent', rank', top, child)
    ensures r == top ==>
      |Class(parent', rank', r)| == |Class(parent, rank, top)| + |Class(parent, rank, child)|
    ensures r != top && r != child ==> Class(parent', rank', r) == Class(parent, rank, r)
  {
    if r == top {
      var a, b := Class(parent, rank, top), Class(parent, rank, child);
      assert Class(parent', rank', top) == a + b;
      assert a !! b;
    }
  }

  /** The forest after `union` has hung root `child` below root `top`. */
  ghost predicate Hung(parent: seq<nat>, rank: seq<nat>, parent': seq<nat>, rank': seq<nat>,
                       top: nat, child: nat)
  {
    && |parent| == |rank| && top < |parent| && child < |parent| && top != child
    && parent[top] == top && parent[child] == child
    && rank[child] <= rank[top]
    && parent' == parent[child := top]
    && rank' == if rank[top] == rank[child] then rank[top := rank[top] + 1] else rank
  }

  lemma HangRanked(parent: seq<nat>, rank: seq<nat>, parent': seq<nat>, rank': seq<nat>,
                   top: nat, child: nat)
    requires Valid(parent, rank) && Hung(parent, rank, parent', rank', top, child)
    ensures Ranked(parent', rank')
  {
    RankNeverSaturates(parent, rank, top);
  }

  lemma HangRenames(parent: seq<nat>, rank: seq<nat>, parent': seq<nat>, rank': seq<nat>,
                    top: nat, child: nat)
    requires Ranked(parent, rank) && Ranked(parent', rank')
    requires Hung(parent, rank, parent', rank', top, child)
    ensures Renamed(parent, rank, parent', rank', top, child)
  {
    forall i | 0 <= i < |parent|
      ensures Root(parent', rank', i) ==
        if Root(parent, rank, i) == child then top else Root(parent, rank, i)
    {
      HangRoots(parent, rank, parent', rank', top, child, i);
    }
  }

  lemma HeavyAt(parent: seq<nat>, rank: seq<nat>, r: nat)
    requires Valid(parent, rank) && r < |parent| && parent[r] == r
    ensures Pow2(rank[r]) <= |Class(parent, rank, r)|
  {
  }

  lemma HangHeavy(parent: seq<nat>, rank: seq<nat>, parent': seq<nat>, rank': seq<nat>,
                  top: nat, child: nat)
    requires Valid(parent, rank) && Ranked(parent', rank')
    requires Hung(parent, rank, parent', rank', top, child)
    requires Renamed(parent, rank, parent', rank', top, child)
    ensures Heavy(parent', rank')
  {
    hide Renamed, Ranked, Class, Root;
    forall r | 0 <= r < |parent'| && parent'[r] == r
      ensures Pow2(rank'[r]) <= |Class(parent', rank', r)|
    {
      HeavyAt(parent, rank, r);
      HeavyAt(parent, rank, child);
      RenamedClasses(parent, rank, parent', rank', top, child, r);
    }
  }

  /** `a` and `b` have the same representative. */
  ghost predicate Same(parent: seq<nat>, rank: seq<nat>, a: nat, b: nat)
    requires Ranked(parent, rank) && a < |parent| && b < |parent|
  {
    Root(parent, rank, a) == Root(parent, rank, b)
  }

  /** The second forest is the first with the classes of `a` and `b` merged and nothing else. */
  ghost predicate Merged(parent: seq<nat>, rank: seq<nat>, parent': seq<nat>, rank': seq<nat>,
                         a: nat, b: nat)
    requires Ranked(parent, rank) && Ranked(parent', rank') && |parent'| == |parent|
    requires a < |parent| && b < |parent|
  {
    forall i, j :: 0 <= i < |parent| && 0 <= j < |parent| ==>
      (Same(parent', rank', i, j) <==>
        Same(parent, rank, i, j)
        || (Same(parent, rank, i, a) && Same(parent, rank, b, j))
        || (Same(parent, rank, i, b) && Same(parent, rank, a, j)))
  }

  lemma RenamedMerges(parent: seq<nat>, rank: seq<nat>, parent': seq<nat>, rank': seq<nat>,
                      top: nat, child: nat, a: nat, b: nat)
    requires Ranked(parent, rank) && Ranked(parent', rank') && |parent'| == |parent|
    requires a < |parent| && b < |parent| && top < |parent| && child < |parent|
    requires Renamed(parent, rank, parent', rank', top, child)
    requires || (Root(parent, rank, a) == top && Root(parent, rank, b) == child)
             || (Root(parent, rank, a) == child && Root(parent, rank, b) == top)
    ensures Merged(parent, rank, parent', rank', a, b)
  {
  }

  lemma SameRootsMerge(parent0: seq<nat>, parent: seq<nat>, rank: seq<nat>, parent': seq<nat>,
                       rank': seq<nat>, a: nat, b: nat)
    requires Ranked(parent0, rank) && Ranked(parent, rank) && Ranked(parent', rank')
    requires |parent'| == |parent| && a < |parent| && b < |parent|
    requires forall i :: 0 <= i < |parent| ==> Root(parent, rank, i) == Root(parent0, rank, i)
    requires Merged(parent, rank, parent', rank', a, b)
    ensures Merged(parent0, rank, parent', rank', a, b)
  {
    forall i, j | 0 <= i < |parent| && 0 <= j < |parent|
      ensures Same(parent, rank, i, j) == Same(parent0, rank, i, j)
    {
    }
  }

  lemma HangMerges(parent0: seq<nat>, parent: seq<nat>, rank: seq<nat>, parent': seq<nat>,
                   rank': seq<nat>, a: nat, b: nat, top: nat, child: nat)
    requires Ranked(parent0, rank) && Valid(parent, rank)
    requires |parent0| == |parent| && a < |parent| && b < |parent|
    requires forall i :: 0 <= i < |parent| ==> Root(parent, rank, i) == Root(parent0, rank, i)
    requires Hung(parent, rank, parent', rank', top, child)
    requires || (Root(parent, rank, a) == top && Root(parent, rank, b) == child)
             || (Root(parent, rank, a) == child && Root(parent, rank, b) == top)
    ensures Valid(parent', rank')
    ensures Merged(parent0, rank, parent', rank', a, b)
  {
    HangRanked(parent, rank, parent', rank', top, child);
    HangRenames(parent, rank, parent', rank', top, child);
    HangHeavy(parent, rank, parent', rank', top, child);
    RenamedMerges(parent, rank, parent', rank', top, child, a, b);
    SameRootsMerge(parent0, parent, rank, parent', rank', a, b);
  }

  /** The tail of `union`: hang the lighter of two distinct roots below the other. */
  method Hang(parent: array<nat>, rank: array<nat>, top: nat, child: nat)
    requires parent != rank
    requires Valid(parent[..], rank[..]) && top < parent.Length && child < parent.Length
    requires top != child && parent[top] == top && parent[child] == child
    requires rank[child] <= rank[top]
    modifies parent, rank
    ensures Hung(old(parent[..]), old(rank[..]), parent[..], rank[..], top, child)
  {
    RankNeverSaturates(parent[..], rank[..], top);
    parent[child] := top;
    if rank[top] == rank[child] {
      rank[top] := SaturatingIncrement(rank[top]);
    }
  }

  /** `union` by rank: merges exactly the classes of `a` and `b`. */
  method Union(parent: array<nat>, rank: array<nat>, a: nat, b: nat)
    requires parent != rank
    requires Valid(parent[..], rank[..]) && a < parent.Length && b < parent.Length
    modifies parent, rank
    ensures Valid(parent[..], rank[..])
    ensures Merged(old(parent[..]), old(rank[..]), parent[..], rank[..], a, b)
  {
    ghost var pOld, rOld := parent[..], rank[..];
    var ra := Find(parent, rank[..], a);
    var rb := Find(parent, rank[..], b);
    if ra != rb {
      if rank[ra] < rank[rb] {
        ra, rb := rb, ra;
      }
      ghost var p0 := parent[..];
      Hang(parent, rank, ra, rb);
      HangMerges(pOld, p0, rOld, parent[..], rank[..], a, b, ra, rb);
    }
  }
}
