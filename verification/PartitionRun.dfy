/** The partition algorithm as it runs, over parent, rank and reached arrays and a stack of body indices,
    proved to compute the partition of the scene. */
module PartitionRun {
  import opened Prelude
  import opened Space
  import opened Links
  import opened Sorting
  import opened Partition
  import Forest

  datatype Hull = Hull(sigil: Sigil, aabb: Aabb)

  /** The dense body table and its inverse index. */
  ghost predicate Indexed(v: View, hulls: seq<Hull>, ixOf: map<Sigil, nat>) {
    && |hulls| <= Forest.MAX_NODES
    && (forall i :: 0 <= i < |hulls| ==>
         IsBody(v, hulls[i].sigil) && hulls[i].aabb == v.bounds(hulls[i].sigil).value)
    && (forall i :: 0 <= i < |hulls| ==> hulls[i].sigil in ixOf && ixOf[hulls[i].sigil] == i)
    && (forall s :: s in ixOf ==> ixOf[s] < |hulls| && hulls[ixOf[s]].sigil == s)
    && ixOf.Keys == Bodies(v)
  }

  /** The forest's classes are the components of `edges`. */
  ghost predicate Tracks(parent: seq<nat>, rank: seq<nat>, hulls: seq<Hull>, edges: Edges) {
    && Forest.Valid(parent, rank)
    && |parent| == |hulls|
    && forall i, j :: 0 <= i < |hulls| && 0 <= j < |hulls| ==>
         (Forest.Same(parent, rank, i, j) <==> Linked(edges, hulls[i].sigil, hulls[j].sigil))
  }

  ghost function ReachedSet(hulls: seq<Hull>, reached: seq<bool>): set<Sigil>
    requires |reached| == |hulls|
  {
    set i | 0 <= i < |hulls| && reached[i] :: hulls[i].sigil
  }

  lemma UnionTracks(parent: seq<nat>, rank: seq<nat>, parent': seq<nat>, rank': seq<nat>,
                    hulls: seq<Hull>, edges: Edges, a: nat, b: nat)
    requires Tracks(parent, rank, hulls, edges) && a < |hulls| && b < |hulls|
    requires Forest.Valid(parent', rank') && |parent'| == |parent|
    requires Forest.Merged(parent, rank, parent', rank', a, b)
    ensures Tracks(parent', rank', hulls, edges + {(hulls[a].sigil, hulls[b].sigil)})
  {
    var u, w := hulls[a].sigil, hulls[b].sigil;
    forall i, j | 0 <= i < |hulls| && 0 <= j < |hulls|
      ensures Forest.Same(parent', rank', i, j)
        <==> Linked(edges + {(u, w)}, hulls[i].sigil, hulls[j].sigil)
    {
      LinkedAdd(edges, u, w, hulls[i].sigil, hulls[j].sigil);
    }
  }

  /** Rows are distinct bodies carrying their posed bounds. */
  ghost predicate Rows(v: View, hulls: seq<Hull>) {
    && (forall i :: 0 <= i < |hulls| ==>
         IsBody(v, hulls[i].sigil) && hulls[i].aabb == v.bounds(hulls[i].sigil).value)
    && (forall i, j :: 0 <= i < j < |hulls| ==> hulls[i].sigil != hulls[j].sigil)
  }

  method CollectHulls(v: View) returns (hulls: seq<Hull>, ixOf: map<Sigil, nat>)
    requires NoDuplicates(v.loci) && |v.loci| <= Forest.MAX_NODES
    ensures Indexed(v, hulls, ixOf)
  {
    hide IsPhysBody;
    hulls := [];
    for k := 0 to |v.loci|
      invariant |hulls| <= k && Rows(v, hulls)
      invariant forall i :: 0 <= i < |hulls| ==> hulls[i].sigil in v.loci[..k]
      invariant forall q :: 0 <= q < k && IsBody(v, v.loci[q]) ==>
        exists h :: h in hulls && h.sigil == v.loci[q]
    {
      var s := v.loci[k];
      if IsPhysBody(v, s) && v.bounds(s).Some? {
        assert s !in v.loci[..k];
        var h := Hull(s, v.bounds(s).value);
        hulls := hulls + [h];
        assert h in hulls;
      }
    }
    forall s | s in Bodies(v)
      ensures exists h :: h in hulls && h.sigil == s
    {
      var q :| 0 <= q < |v.loci| && v.loci[q] == s;
    }
    ixOf := IndexHulls(v, hulls);
  }

  method IndexHulls(v: View, hulls: seq<Hull>) returns (ixOf: map<Sigil, nat>)
    requires |hulls| <= Forest.MAX_NODES && Rows(v, hulls)
    requires forall s :: s in Bodies(v) ==> exists h :: h in hulls && h.sigil == s
    ensures Indexed(v, hulls, ixOf)
  {
    hide IsPhysBody;
    ixOf := map[];
    for i := 0 to |hulls|
      invariant forall q :: 0 <= q < i ==> hulls[q].sigil in ixOf && ixOf[hulls[q].sigil] == q
      invariant forall s :: s in ixOf ==> ixOf[s] < i && hulls[ixOf[s]].sigil == s
    {
      ixOf := ixOf[hulls[i].sigil := i];
    }
    forall s | s in Bodies(v)
      ensures s in ixOf
    {
      var h :| h in hulls && h.sigil == s;
      var q :| 0 <= q < |hulls| && hulls[q] == h;
    }
    forall s | s in ixOf
      ensures s in Bodies(v)
    {
      assert IsBody(v, hulls[ixOf[s]].sigil);
    }
    assert ixOf.Keys == Bodies(v);
  }

  /** The overlap edges leaving `s` towards the first `k` candidates. */
  ghost function OutEdges(v: View, s: Sigil, found: seq<Sigil>): Edges
    requires IsBody(v, s)
  {
    set t | t in found && t in Bodies(v) && Overlap(v, s, t) :: (s, t)
  }

  lemma OutEdgesSnoc(v: View, s: Sigil, found: seq<Sigil>, o: Sigil)
    requires IsBody(v, s)
    ensures OutEdges(v, s, found + [o]) ==
      OutEdges(v, s, found) + (if o in Bodies(v) && Overlap(v, s, o) then {(s, o)} else {})
  {
  }

  /** `union` of two bodies, in terms of the edges tracked so far. */
  method Unite(hulls: seq<Hull>, parent: array<nat>, rank: array<nat>, a: nat, b: nat,
               ghost edges: Edges)
    requires parent != rank && a < |hulls| && b < |hulls|
    requires Tracks(parent[..], rank[..], hulls, edges)
    modifies parent, rank
    ensures Tracks(parent[..], rank[..], hulls, edges + {(hulls[a].sigil, hulls[b].sigil)})
  {
    ghost var p0, r0 := parent[..], rank[..];
    Forest.Union(parent, rank, a, b);
    UnionTracks(p0, r0, parent[..], rank[..], hulls, edges, a, b);
  }

  /** Visit the spatial candidates of body `u`: unite it with each overlapping body and stack the
      ones not reached yet. */
  method Visit(v: View, hulls: seq<Hull>, ixOf: map<Sigil, nat>, u: nat, parent: array<nat>,
               rank: array<nat>, reached: array<bool>, stack0: seq<nat>, ghost edges: Edges)
    returns (stack: seq<nat>)
    requires Indexed(v, hulls, ixOf) && u < |hulls| == reached.Length
    requires parent != rank && Tracks(parent[..], rank[..], hulls, edges)
    modifies parent, rank
    ensures Tracks(parent[..], rank[..], hulls,
                   edges + OutEdges(v, hulls[u].sigil, v.candidates(hulls[u].aabb)))
    ensures forall j :: j in stack0 ==> j in stack
    ensures forall j :: j in stack && j !in stack0 ==>
      j < |hulls| && Overlap(v, hulls[u].sigil, hulls[j].sigil)
    ensures forall j :: 0 <= j < |hulls| && Overlap(v, hulls[u].sigil, hulls[j].sigil) ==>
      reached[j] || j in stack
  {
    hide Tracks, IsPhysBody;
    stack := stack0;
    var s, aabb := hulls[u].sigil, hulls[u].aabb;
    var found := v.candidates(aabb);
    ghost var grown := edges;
    assert grown == edges + OutEdges(v, s, found[..0]);
    for k := 0 to |found|
      invariant grown == edges + OutEdges(v, s, found[..k])
      invariant Tracks(parent[..], rank[..], hulls, grown)
      invariant forall j :: j in stack0 ==> j in stack
      invariant forall j :: j in stack && j !in stack0 ==> j < |hulls| && Overlap(v, s, hulls[j].sigil)
      invariant forall q :: 0 <= q < k && found[q] in ixOf && Overlap(v, s, found[q]) ==>
        reached[ixOf[found[q]]] || ixOf[found[q]] in stack
    {
      var o := found[k];
      assert found[..k + 1] == found[..k] + [o];
      OutEdgesSnoc(v, s, found[..k], o);
      if o in ixOf && ixOf[o] != u && aabb.Intersects(hulls[ixOf[o]].aabb) {
        var j := ixOf[o];
        Unite(hulls, parent, rank, u, j, grown);
        grown := grown + {(s, o)};
        if !reached[j] {
          stack := stack + [j];
        }
      }
    }
    assert found[..|found|] == found;
    forall j | 0 <= j < |hulls| && Overlap(v, s, hulls[j].sigil)
      ensures reached[j] || j in stack
    {
      var q :| 0 <= q < |found| && found[q] == hulls[j].sigil;
      assert found[q] in ixOf;
    }
  }

  ghost function FloodEdges(c: Scene, r: set<Sigil>): Edges {
    set e | e in c.overlaps && e.0 in r
  }

  /** Every overlap leaving a reached body ends in a reached or a stacked one. */
  ghost predicate Frontier(c: Scene, hulls: seq<Hull>, r: set<Sigil>, stack: seq<nat>) {
    && (forall j :: j in stack ==> j < |hulls|)
    && forall e :: e in c.overlaps && e.0 in r ==>
         e.1 in r || exists j :: j in stack && j < |hulls| && hulls[j].sigil == e.1
  }

  lemma ReachedSetGrows(hulls: seq<Hull>, before: seq<bool>, u: nat)
    requires |before| == |hulls| && u < |hulls|
    ensures ReachedSet(hulls, before[u := true]) == ReachedSet(hulls, before) + {hulls[u].sigil}
  {
    var after := before[u := true];
    forall s | s in ReachedSet(hulls, before)
      ensures s in ReachedSet(hulls, after)
    {
      var i :| 0 <= i < |hulls| && before[i] && hulls[i].sigil == s;
      assert after[i];
    }
    assert after[u];
  }

  lemma InReachedSet(v: View, hulls: seq<Hull>, ixOf: map<Sigil, nat>, reached: seq<bool>, i: nat)
    requires Indexed(v, hulls, ixOf) && |reached| == |hulls| && i < |hulls|
    ensures reached[i] <==> hulls[i].sigil in ReachedSet(hulls, reached)
  {
  }

  lemma OutEdgesGrow(v: View, r: set<Sigil>, s: Sigil)
    requires IsBody(v, s)
    ensures FloodEdges(SceneOf(v), r) + OutEdges(v, s, v.candidates(v.bounds(s).value))
      == FloodEdges(SceneOf(v), r + {s})
  {
  }

  lemma FrontierStep(v: View, hulls: seq<Hull>, ixOf: map<Sigil, nat>, r: set<Sigil>, u: nat,
                     rest: seq<nat>, stack: seq<nat>, reached: seq<bool>)
    requires Indexed(v, hulls, ixOf) && u < |hulls| == |reached|
    requires Frontier(SceneOf(v), hulls, r, rest + [u])
    requires r + {hulls[u].sigil} == ReachedSet(hulls, reached)
    requires forall j :: j in rest ==> j in stack
    requires forall j :: j in stack && j !in rest ==>
      j < |hulls| && Overlap(v, hulls[u].sigil, hulls[j].sigil)
    requires forall j :: 0 <= j < |hulls| && Overlap(v, hulls[u].sigil, hulls[j].sigil) ==>
      reached[j] || j in stack
    ensures Frontier(SceneOf(v), hulls, r + {hulls[u].sigil}, stack)
  {
    var c, s := SceneOf(v), hulls[u].sigil;
    forall j | j in stack ensures j < |hulls| {
      if j in rest { assert j in rest + [u]; }
    }
    forall e | e in c.overlaps && e.0 in r + {s}
      ensures e.1 in r + {s} || exists j :: j in stack && j < |hulls| && hulls[j].sigil == e.1
    {
      if e.0 == s {
        var j := ixOf[e.1];
        InReachedSet(v, hulls, ixOf, reached, j);
      } else if e.1 !in r {
        var j :| j in rest + [u] && j < |hulls| && hulls[j].sigil == e.1;
        assert j == u || j in rest;
      }
    }
  }

  lemma FrontierPop(c: Scene, hulls: seq<Hull>, r: set<Sigil>, rest: seq<nat>, u: nat)
    requires Frontier(c, hulls, r, rest + [u]) && u < |hulls| && hulls[u].sigil in r
    ensures Frontier(c, hulls, r, rest)
  {
    forall j | j in rest ensures j < |hulls| { assert j in rest + [u]; }
    forall e | e in c.overlaps && e.0 in r && e.1 !in r
      ensures exists j :: j in rest && j < |hulls| && hulls[j].sigil == e.1
    {
      var j :| j in rest + [u] && j < |hulls| && hulls[j].sigil == e.1;
    }
  }

  /** The flood part-way: the reached bodies, what the forest tracks and what is still stacked. */
  ghost predicate Flooding(v: View, hulls: seq<Hull>, parent: seq<nat>, rank: seq<nat>,
                           reached: seq<bool>, stack: seq<nat>)
  {
    && |reached| == |hulls|
    && ReachedSet(hulls, reached) <= Flooded(SceneOf(v))
    && Frontier(SceneOf(v), hulls, ReachedSet(hulls, reached), stack)
    && (forall j :: j in stack ==> j < |hulls| && hulls[j].sigil in Flooded(SceneOf(v)))
    && Tracks(parent, rank, hulls, FloodEdges(SceneOf(v), ReachedSet(hulls, reached)))
  }

  lemma FloodingPop(v: View, hulls: seq<Hull>, parent: seq<nat>, rank: seq<nat>,
                    reached: seq<bool>, rest: seq<nat>, u: nat)
    requires Flooding(v, hulls, parent, rank, reached, rest + [u])
    requires u < |hulls| == |reached| && reached[u]
    ensures Flooding(v, hulls, parent, rank, reached, rest)
  {
    assert hulls[u].sigil in ReachedSet(hulls, reached);
    FrontierPop(SceneOf(v), hulls, ReachedSet(hulls, reached), rest, u);
    forall j | j in rest ensures j in rest + [u] { }
  }

  function Unreached(reached: seq<bool>): set<nat> {
    set i | 0 <= i < |reached| && !reached[i]
  }

  lemma FloodStep(v: View, s: Sigil, t: Sigil)
    requires s in Flooded(SceneOf(v)) && t in Bodies(v) && Overlap(v, s, t)
    ensures t in Flooded(SceneOf(v))
  {
    var c := SceneOf(v);
    var a :| a in c.seeds && Path(c.overlaps, a, s);
    PathStep(c.overlaps, a, s, t);
  }

  lemma FloodingStep(v: View, hulls: seq<Hull>, ixOf: map<Sigil, nat>, u: nat, rest: seq<nat>,
                     stack: seq<nat>, before: seq<bool>, parent: seq<nat>, rank: seq<nat>)
    requires Indexed(v, hulls, ixOf) && u < |hulls| == |before|
    requires ReachedSet(hulls, before) <= Flooded(SceneOf(v))
    requires Frontier(SceneOf(v), hulls, ReachedSet(hulls, before), rest + [u])
    requires forall j :: j in rest + [u] ==> j < |hulls| && hulls[j].sigil in Flooded(SceneOf(v))
    requires Tracks(parent, rank, hulls,
                    FloodEdges(SceneOf(v), ReachedSet(hulls, before))
                    + OutEdges(v, hulls[u].sigil, v.candidates(hulls[u].aabb)))
    requires forall j :: j in rest ==> j in stack
    requires forall j :: j in stack && j !in rest ==>
      j < |hulls| && Overlap(v, hulls[u].sigil, hulls[j].sigil)
    requires forall j :: 0 <= j < |hulls| && Overlap(v, hulls[u].sigil, hulls[j].sigil) ==>
      before[u := true][j] || j in stack
    ensures Flooding(v, hulls, parent, rank, before[u := true], stack)
  {
    var r, s := ReachedSet(hulls, before), hulls[u].sigil;
    assert u in rest + [u];
    ReachedSetGrows(hulls, before, u);
    OutEdgesGrow(v, r, s);
    FrontierStep(v, hulls, ixOf, r, u, rest, stack, before[u := true]);
    forall j | j in stack ensures j < |hulls| && hulls[j].sigil in Flooded(SceneOf(v)) {
      if j in rest { assert j in rest + [u]; } else { FloodStep(v, s, hulls[j].sigil); }
    }
  }

  /** A body popped for the first time: mark it, visit its candidates. */
  method Enter(v: View, hulls: seq<Hull>, ixOf: map<Sigil, nat>, u: nat, rest: seq<nat>,
               parent: array<nat>, rank: array<nat>, reached: array<bool>) returns (stack: seq<nat>)
    requires Indexed(v, hulls, ixOf) && u < |hulls| == reached.Length && parent != rank
    requires Flooding(v, hulls, parent[..], rank[..], reached[..], rest + [u])
    modifies parent, rank, reached
    ensures reached[..] == old(reached[..])[u := true]
    ensures Flooding(v, hulls, parent[..], rank[..], reached[..], stack)
    ensures forall j :: j in rest ==> j in stack
    ensures forall j :: j in stack ==> j < |hulls|
  {
    ghost var before := reached[..];
    ghost var edges := FloodEdges(SceneOf(v), ReachedSet(hulls, before));
    reached[u] := true;
    stack := Visit(v, hulls, ixOf, u, parent, rank, reached, rest, edges);
    FloodingStep(v, hulls, ixOf, u, rest, stack, before, parent[..], rank[..]);
  }

  /** Pop bodies until the stack is empty, visiting each body the first time it is popped. */
  method Drain(v: View, hulls: seq<Hull>, ixOf: map<Sigil, nat>, seed: nat, parent: array<nat>,
               rank: array<nat>, reached: array<bool>)
    requires Indexed(v, hulls, ixOf) && seed < |hulls| == reached.Length && parent != rank
    requires Flooding(v, hulls, parent[..], rank[..], reached[..], [seed])
    modifies parent, rank, reached
    ensures Flooding(v, hulls, parent[..], rank[..], reached[..], [])
    ensures reached[seed] && forall i :: 0 <= i < reached.Length && old(reached[i]) ==> reached[i]
  {
    hide Flooding;
    var stack: seq<nat> := [seed];
    while stack != []
      invariant forall j :: j in stack ==> j < |hulls|
      invariant Flooding(v, hulls, parent[..], rank[..], reached[..], stack)
      invariant reached[seed] || seed in stack
      invariant forall i :: 0 <= i < reached.Length && old(reached[i]) ==> reached[i]
      decreases Unreached(reached[..]), |stack|
    {
      var u: nat := stack[|stack| - 1];
      var rest := stack[..|stack| - 1];
      assert stack == rest + [u] && u in stack && u in Unreached(reached[..]) <==> !reached[u];
      if reached[u] {
        FloodingPop(v, hulls, parent[..], rank[..], reached[..], rest, u);
        stack := rest;
      } else {
        stack := Enter(v, hulls, ixOf, u, rest, parent, rank, reached);
      }
    }
  }

  lemma FloodingEmpty(v: View, hulls: seq<Hull>, parent: seq<nat>, rank: seq<nat>, reached: seq<bool>)
    requires |reached| == |hulls| && forall i :: 0 <= i < |reached| ==> !reached[i]
    requires Tracks(parent, rank, hulls, {})
    ensures Flooding(v, hulls, parent, rank, reached, [])
  {
    assert ReachedSet(hulls, reached) == {};
    assert FloodEdges(SceneOf(v), {}) == {};
  }

  lemma FloodingSeed(v: View, hulls: seq<Hull>, ixOf: map<Sigil, nat>, parent: seq<nat>,
                     rank: seq<nat>, reached: seq<bool>, i: nat)
    requires Indexed(v, hulls, ixOf) && i < |hulls| && IsSeed(v, hulls[i].sigil)
    requires Flooding(v, hulls, parent, rank, reached, [])
    ensures Flooding(v, hulls, parent, rank, reached, [i])
  {
    PathRefl(Overlaps(v), hulls[i].sigil);
    assert hulls[i].sigil in Seeds(v);
  }

  lemma FloodingDone(v: View, hulls: seq<Hull>, ixOf: map<Sigil, nat>, parent: seq<nat>,
                     rank: seq<nat>, reached: seq<bool>)
    requires Indexed(v, hulls, ixOf)
    requires |reached| == |hulls| && Flooding(v, hulls, parent, rank, reached, [])
    requires forall i :: 0 <= i < |hulls| && IsSeed(v, hulls[i].sigil) ==> reached[i]
    ensures ReachedSet(hulls, reached) == Flooded(SceneOf(v))
    ensures Tracks(parent, rank, hulls, FloodEdges(SceneOf(v), Flooded(SceneOf(v))))
  {
    var c, r := SceneOf(v), ReachedSet(hulls, reached);
    forall t | t in Flooded(c)
      ensures t in r
    {
      var a :| a in c.seeds && Path(c.overlaps, a, t);
      assert hulls[ixOf[a]].sigil == a;
      ClosedUnderPath(c.overlaps, r, a, t);
    }
  }

  /** Flood from every seed in table order. */
  method Flood(v: View, hulls: seq<Hull>, ixOf: map<Sigil, nat>, parent: array<nat>,
               rank: array<nat>, reached: array<bool>)
    requires Indexed(v, hulls, ixOf) && |hulls| == reached.Length && parent != rank
    requires forall i :: 0 <= i < reached.Length ==> !reached[i]
    requires Tracks(parent[..], rank[..], hulls, {})
    modifies parent, rank, reached
    ensures ReachedSet(hulls, reached[..]) == Flooded(SceneOf(v))
    ensures Tracks(parent[..], rank[..], hulls, FloodEdges(SceneOf(v), Flooded(SceneOf(v))))
  {
    hide Flooding;
    FloodingEmpty(v, hulls, parent[..], rank[..], reached[..]);
    for i := 0 to |hulls|
      invariant Flooding(v, hulls, parent[..], rank[..], reached[..], [])
      invariant forall q :: 0 <= q < i && IsSeed(v, hulls[q].sigil) ==> reached[q]
    {
      if IsSeed(v, hulls[i].sigil) {
        FloodingSeed(v, hulls, ixOf, parent[..], rank[..], reached[..], i);
        Drain(v, hulls, ixOf, i, parent, rank, reached);
      }
    }
    FloodingDone(v, hulls, ixOf, parent[..], rank[..], reached[..]);
  }

  /** The joint fixpoint part-way: what is reached lies between the flood and its joint closure, and
      the forest tracks the flood's overlaps plus some of the joints that touch a reached body. */
  ghost predicate Coupling(v: View, hulls: seq<Hull>, parent: seq<nat>, rank: seq<nat>,
                           reached: seq<bool>, edges: Edges)
  {
    && |reached| == |hulls|
    && Within(SceneOf(v), ReachedSet(hulls, reached), edges)
    && Tracks(parent, rank, hulls, edges)
  }

  ghost predicate Within(c: Scene, r: set<Sigil>, edges: Edges) {
    && Flooded(c) <= r <= Reached(c)
    && FloodEdges(c, Flooded(c)) <= edges <= Contacts(c)
  }

  /** Joint `j` needs no more work: its endpoints are reached together, and then tracked. */
  ghost predicate Settled(v: View, hulls: seq<Hull>, reached: seq<bool>, edges: Edges, j: Joint)
    requires |reached| == |hulls|
  {
    !v.broken(j.id) && j.a in Bodies(v) && j.b in Bodies(v) ==>
      var r := ReachedSet(hulls, reached);
      (j.a in r <==> j.b in r) && (j.a in r ==> (j.a, j.b) in edges)
  }

  lemma CouplingStart(v: View, hulls: seq<Hull>, parent: seq<nat>, rank: seq<nat>, reached: seq<bool>)
    requires |reached| == |hulls| && ReachedSet(hulls, reached) == Flooded(SceneOf(v))
    requires Tracks(parent, rank, hulls, FloodEdges(SceneOf(v), Flooded(SceneOf(v))))
    ensures Coupling(v, hulls, parent, rank, reached, FloodEdges(SceneOf(v), Flooded(SceneOf(v))))
  {
    ReachedFacts(SceneOf(v));
  }

  lemma JointStep(v: View, j: Joint)
    requires j in v.constraints && !v.broken(j.id) && j.a in Bodies(v) && j.b in Bodies(v)
    requires j.a in Reached(SceneOf(v)) || j.b in Reached(SceneOf(v))
    ensures j.a in Reached(SceneOf(v)) && j.b in Reached(SceneOf(v))
    ensures (j.a, j.b) in Contacts(SceneOf(v))
  {
    var c := SceneOf(v);
    var both := Both(c.joints);
    assert (j.a, j.b) in c.joints;
    assert (j.b, j.a) in Flip(c.joints);
    var from, to := if j.a in Reached(c) then j.a else j.b, if j.a in Reached(c) then j.b else j.a;
    var s :| s in Flooded(c) && Path(both, s, from);
    PathStep(both, s, from, to);
  }

  lemma CoupleStep(v: View, hulls: seq<Hull>, ixOf: map<Sigil, nat>, j: Joint, parent: seq<nat>,
                   rank: seq<nat>, parent': seq<nat>, rank': seq<nat>, reached: seq<bool>,
                   edges: Edges)
    requires Indexed(v, hulls, ixOf) && |reached| == |hulls|
    requires j in v.constraints && !v.broken(j.id) && j.a in ixOf && j.b in ixOf
    requires reached[ixOf[j.a]] || reached[ixOf[j.b]]
    requires Coupling(v, hulls, parent, rank, reached, edges)
    requires Tracks(parent', rank', hulls, edges + {(j.a, j.b)})
    ensures var after := reached[ixOf[j.a] := true][ixOf[j.b] := true];
      && Coupling(v, hulls, parent', rank', after, edges + {(j.a, j.b)})
      && Settled(v, hulls, after, edges + {(j.a, j.b)}, j)
  {
    hide Tracks, Within, ReachedSet, SceneOf;
    var ia, ib := ixOf[j.a], ixOf[j.b];
    var after := reached[ia := true][ib := true];
    InReachedSet(v, hulls, ixOf, reached, ia);
    InReachedSet(v, hulls, ixOf, reached, ib);
    ReachedSetGrows(hulls, reached, ia);
    ReachedSetGrows(hulls, reached[ia := true], ib);
    assert ReachedSet(hulls, after) == ReachedSet(hulls, reached) + {j.a, j.b};
    WithinStep(v, ReachedSet(hulls, reached), edges, j);
  }

  lemma WithinStep(v: View, r: set<Sigil>, edges: Edges, j: Joint)
    requires j in v.constraints && !v.broken(j.id) && j.a in Bodies(v) && j.b in Bodies(v)
    requires j.a in r || j.b in r
    requires Within(SceneOf(v), r, edges)
    ensures Within(SceneOf(v), r + {j.a, j.b}, edges + {(j.a, j.b)})
  {
    hide Reached, Flooded, Contacts, FloodEdges;
    JointStep(v, j);
  }

  lemma SettledIdle(v: View, hulls: seq<Hull>, ixOf: map<Sigil, nat>, j: Joint, reached: seq<bool>,
                    edges: Edges)
    requires Indexed(v, hulls, ixOf) && |reached| == |hulls|
    requires !v.broken(j.id) && j.a in ixOf && j.b in ixOf ==>
      !reached[ixOf[j.a]] && !reached[ixOf[j.b]]
    ensures Settled(v, hulls, reached, edges, j)
  {
    if j.a in ixOf && j.b in ixOf {
      InReachedSet(v, hulls, ixOf, reached, ixOf[j.a]);
      InReachedSet(v, hulls, ixOf, reached, ixOf[j.b]);
    }
  }

  lemma UnreachedShrinks(before: seq<bool>, after: seq<bool>)
    requires |before| == |after|
    requires forall i :: 0 <= i < |after| && before[i] ==> after[i]
    ensures Unreached(after) <= Unreached(before)
    ensures before != after ==> Unreached(after) < Unreached(before)
  {
    if before != after {
      var i :| 0 <= i < |after| && after[i] != before[i];
      assert i in Unreached(before) && i !in Unreached(after);
    }
  }

  /** Reach one endpoint of a joint from the other. */
  method ReachAcross(reached: array<bool>, ia: nat, ib: nat) returns (progressed: bool)
    requires ia < reached.Length && ib < reached.Length
    modifies reached
    ensures reached[..] ==
      if old(reached[ia]) || old(reached[ib]) then old(reached[..])[ia := true][ib := true]
      else old(reached[..])
    ensures progressed <==> old(reached[ia]) != old(reached[ib])
  {
    progressed := false;
    if reached[ia] && !reached[ib] {
      reached[ib] := true;
      progressed := true;
    }
    if reached[ib] && !reached[ia] {
      reached[ia] := true;
      progressed := true;
    }
  }

  lemma CouplingTracks(v: View, hulls: seq<Hull>, parent: seq<nat>, rank: seq<nat>,
                       reached: seq<bool>, edges: Edges)
    requires Coupling(v, hulls, parent, rank, reached, edges)
    ensures Tracks(parent, rank, hulls, edges)
  {
  }

  lemma IndexedAt(v: View, hulls: seq<Hull>, ixOf: map<Sigil, nat>, s: Sigil)
    requires Indexed(v, hulls, ixOf) && s in ixOf
    ensures ixOf[s] < |hulls| && hulls[ixOf[s]].sigil == s && s in Bodies(v)
  {
  }

  /** One joint with a reached endpoint: unite the endpoints and reach both. */
  method Couple(v: View, hulls: seq<Hull>, ixOf: map<Sigil, nat>, j: Joint, parent: array<nat>,
                rank: array<nat>, reached: array<bool>, ghost edges: Edges)
    returns (progressed: bool, ghost grown: Edges)
    requires Indexed(v, hulls, ixOf) && |hulls| == reached.Length && parent != rank
    requires j in v.constraints
    requires Coupling(v, hulls, parent[..], rank[..], reached[..], edges)
    modifies parent, rank, reached
    ensures Coupling(v, hulls, parent[..], rank[..], reached[..], grown) && edges <= grown
    ensures Unreached(reached[..]) <= Unreached(old(reached[..]))
    ensures progressed ==> Unreached(reached[..]) < Unreached(old(reached[..]))
    ensures !progressed ==> reached[..] == old(reached[..])
    ensures Settled(v, hulls, reached[..], grown, j)
  {
    hide *;
    CouplingTracks(v, hulls, parent[..], rank[..], reached[..], edges);
    ghost var before, p0, r0 := reached[..], parent[..], rank[..];
    grown := edges;
    progressed := false;
    if !v.broken(j.id) && j.a in ixOf && j.b in ixOf {
      IndexedAt(v, hulls, ixOf, j.a);
      IndexedAt(v, hulls, ixOf, j.b);
      var ia, ib := ixOf[j.a], ixOf[j.b];
      if reached[ia] || reached[ib] {
        Unite(hulls, parent, rank, ia, ib, edges);
        grown := edges + {(j.a, j.b)};
        CoupleStep(v, hulls, ixOf, j, p0, r0, parent[..], rank[..], before, edges);
      } else {
        SettledIdle(v, hulls, ixOf, j, before, edges);
      }
      progressed := ReachAcross(reached, ia, ib);
      UnreachedShrinks(before, reached[..]);
    } else {
      SettledIdle(v, hulls, ixOf, j, before, edges);
    }
  }

  lemma SettledAll(v: View, hulls: seq<Hull>, parent: seq<nat>, rank: seq<nat>, reached: seq<bool>,
                   edges: Edges)
    requires Coupling(v, hulls, parent, rank, reached, edges)
    requires forall j :: j in v.constraints ==> Settled(v, hulls, reached, edges, j)
    ensures ReachedSet(hulls, reached) == Reached(SceneOf(v))
    ensures edges == Contacts(SceneOf(v))
  {
    var c, r := SceneOf(v), ReachedSet(hulls, reached);
    var both := Both(c.joints);
    forall e | e in both && e.0 in r
      ensures e.1 in r
    {
      var f := if e in c.joints then e else (e.1, e.0);
      assert f in c.joints;
      var j :| j in v.constraints && !v.broken(j.id) && j.a in Bodies(v) && j.b in Bodies(v)
        && f == (j.a, j.b);
      assert Settled(v, hulls, reached, edges, j);
    }
    forall t | t in Reached(c)
      ensures t in r
    {
      var s :| s in Flooded(c) && Path(both, s, t);
      ClosedUnderPath(both, r, s, t);
    }
    assert r == Reached(c);
    forall e | e in Contacts(c)
      ensures e in edges
    {
      if e !in FloodEdges(c, Flooded(c)) {
        var j :| j in v.constraints && !v.broken(j.id) && j.a in Bodies(v) && j.b in Bodies(v)
          && e == (j.a, j.b);
        assert Settled(v, hulls, reached, edges, j);
      }
    }
  }

  lemma SettledStays(v: View, hulls: seq<Hull>, reached: seq<bool>, edges: Edges, grown: Edges)
    requires |reached| == |hulls| && edges <= grown
    ensures forall j :: Settled(v, hulls, reached, edges, j) ==> Settled(v, hulls, reached, grown, j)
  {
  }

  /** Intact joints couple bodies that need not overlap: sweep the constraints until none of them
      reaches anything new. */
  method CoupleJoints(v: View, hulls: seq<Hull>, ixOf: map<Sigil, nat>, parent: array<nat>,
                      rank: array<nat>, reached: array<bool>)
    requires Indexed(v, hulls, ixOf) && |hulls| == reached.Length && parent != rank
    requires ReachedSet(hulls, reached[..]) == Flooded(SceneOf(v))
    requires Tracks(parent[..], rank[..], hulls, FloodEdges(SceneOf(v), Flooded(SceneOf(v))))
    modifies parent, rank, reached
    ensures ReachedSet(hulls, reached[..]) == Reached(SceneOf(v))
    ensures Tracks(parent[..], rank[..], hulls, Contacts(SceneOf(v)))
  {
    hide Coupling, Settled, Reached, Flooded, Contacts, FloodEdges, Indexed, Tracks, ReachedSet;
    ghost var edges := FloodEdges(SceneOf(v), Flooded(SceneOf(v)));
    CouplingStart(v, hulls, parent[..], rank[..], reached[..]);
    var progressed := true;
    while progressed
      invariant Coupling(v, hulls, parent[..], rank[..], reached[..], edges)
      invariant !progressed ==>
        forall q :: 0 <= q < |v.constraints| ==>
          Settled(v, hulls, reached[..], edges, v.constraints[q])
      decreases Unreached(reached[..]), if progressed then 1 else 0
    {
      progressed := false;
      ghost var entry := reached[..];
      for k := 0 to |v.constraints|
        invariant Coupling(v, hulls, parent[..], rank[..], reached[..], edges)
        invariant Unreached(reached[..]) <= Unreached(entry)
        invariant !progressed ==> reached[..] == entry
        invariant progressed ==> Unreached(reached[..]) < Unreached(entry)
        invariant !progressed ==>
          forall q :: 0 <= q < k ==> Settled(v, hulls, reached[..], edges, v.constraints[q])
      {
        ghost var before, grown := reached[..], edges;
        var moved: bool;
        moved, grown := Couple(v, hulls, ixOf, v.constraints[k], parent, rank, reached, edges);
        SettledStays(v, hulls, before, edges, grown);
        edges := grown;
        if moved {
          progressed := true;
        }
      }
    }
    CouplingDone(v, hulls, parent[..], rank[..], reached[..], edges);
  }

  lemma CouplingDone(v: View, hulls: seq<Hull>, parent: seq<nat>, rank: seq<nat>,
                     reached: seq<bool>, edges: Edges)
    requires |reached| == |hulls| && Coupling(v, hulls, parent, rank, reached, edges)
    requires forall q :: 0 <= q < |v.constraints| ==>
      Settled(v, hulls, reached, edges, v.constraints[q])
    ensures ReachedSet(hulls, reached) == Reached(SceneOf(v))
    ensures Tracks(parent, rank, hulls, Contacts(SceneOf(v)))
  {
    SettledAll(v, hulls, parent, rank, reached, edges);
  }

  // ---------------------------------------------------------------------------------------------
  // Grouping, ranking and caps.

  type GroupTable = map<nat, seq<Sigil>>

  /** The first `k` bodies, those reached, gathered by root in table order. */
  ghost predicate Gathered(hulls: seq<Hull>, roots: seq<nat>, reached: seq<bool>,
                           groups: GroupTable, k: nat)
    requires |roots| == |reached| == |hulls| && k <= |hulls|
  {
    && (forall i :: 0 <= i < k && reached[i] ==>
         roots[i] in groups && hulls[i].sigil in groups[roots[i]])
    && (forall r :: r in groups ==> groups[r] != [] && NoDuplicates(groups[r]))
    && (forall r, s :: r in groups && s in groups[r] ==>
         exists i :: 0 <= i < k && reached[i] && roots[i] == r && hulls[i].sigil == s)
  }

  lemma GatheredStep(hulls: seq<Hull>, roots: seq<nat>, reached: seq<bool>, groups: GroupTable,
                     k: nat)
    requires |roots| == |reached| == |hulls| && k < |hulls|
    requires forall i, j :: 0 <= i < j < |hulls| ==> hulls[i].sigil != hulls[j].sigil
    requires Gathered(hulls, roots, reached, groups, k)
    ensures !reached[k] ==> Gathered(hulls, roots, reached, groups, k + 1)
    ensures reached[k] ==>
      var row := if roots[k] in groups then groups[roots[k]] else [];
      Gathered(hulls, roots, reached, groups[roots[k] := row + [hulls[k].sigil]], k + 1)
  {
    if reached[k] {
      var row := if roots[k] in groups then groups[roots[k]] else [];
      var next := groups[roots[k] := row + [hulls[k].sigil]];
      assert hulls[k].sigil !in row;
      forall r, s | r in next && s in next[r]
        ensures exists i :: 0 <= i < k + 1 && reached[i] && roots[i] == r && hulls[i].sigil == s
      {
        if r != roots[k] || s in row {
          assert r in groups && s in groups[r];
          var i :| 0 <= i < k && reached[i] && roots[i] == r && hulls[i].sigil == s;
        }
      }
    }
  }

  method GroupByRoot(hulls: seq<Hull>, parent: array<nat>, ghost rank: seq<nat>,
                     reached: seq<bool>, ghost roots: seq<nat>) returns (groups: GroupTable)
    requires Forest.Valid(parent[..], rank) && parent.Length == |hulls| == |reached| == |roots|
    requires forall i, j :: 0 <= i < j < |hulls| ==> hulls[i].sigil != hulls[j].sigil
    requires forall i :: 0 <= i < |hulls| ==> roots[i] == Forest.Root(parent[..], rank, i)
    modifies parent
    ensures Gathered(hulls, roots, reached, groups, |hulls|)
  {
    hide Gathered, Forest.Heavy;
    groups := map[];
    GatheredEmpty(hulls, roots, reached);
    for i := 0 to |hulls|
      invariant Forest.Valid(parent[..], rank)
      invariant forall q :: 0 <= q < |hulls| ==> roots[q] == Forest.Root(parent[..], rank, q)
      invariant Gathered(hulls, roots, reached, groups, i)
    {
      GatheredStep(hulls, roots, reached, groups, i);
      if reached[i] {
        var root := Forest.Find(parent, rank, i);
        var row := if root in groups then groups[root] else [];
        groups := groups[root := row + [hulls[i].sigil]];
      }
    }
  }

  lemma GatheredEmpty(hulls: seq<Hull>, roots: seq<nat>, reached: seq<bool>)
    requires |roots| == |reached| == |hulls|
    ensures Gathered(hulls, roots, reached, map[], 0)
  {
  }

  lemma RowIsGroup(v: View, hulls: seq<Hull>, ixOf: map<Sigil, nat>, parent: seq<nat>,
                   rank: seq<nat>, roots: seq<nat>, reached: seq<bool>, groups: GroupTable, r: nat)
    requires Indexed(v, hulls, ixOf) && |roots| == |reached| == |hulls|
    requires Tracks(parent, rank, hulls, Contacts(SceneOf(v)))
    requires ReachedSet(hulls, reached) == Reached(SceneOf(v))
    requires forall i :: 0 <= i < |hulls| ==> roots[i] == Forest.Root(parent, rank, i)
    requires Gathered(hulls, roots, reached, groups, |hulls|)
    requires r in groups
    ensures r < |hulls| && Elements(groups[r]) in Groups(SceneOf(v))
  {
    assert groups[r][0] in groups[r];
    var i :| 0 <= i < |hulls| && reached[i] && roots[i] == r && hulls[i].sigil == groups[r][0];
    hide Tracks, Indexed, Gathered, Contacts, Reached, ReachedSet, Group;
    GatheredRow(v, hulls, ixOf, parent, rank, roots, reached, groups, i);
  }

  lemma GroupHasRow(v: View, hulls: seq<Hull>, ixOf: map<Sigil, nat>, parent: seq<nat>,
                    rank: seq<nat>, roots: seq<nat>, reached: seq<bool>, groups: GroupTable, s: Sigil)
    requires Indexed(v, hulls, ixOf) && |roots| == |reached| == |hulls|
    requires Tracks(parent, rank, hulls, Contacts(SceneOf(v)))
    requires ReachedSet(hulls, reached) == Reached(SceneOf(v))
    requires forall i :: 0 <= i < |hulls| ==> roots[i] == Forest.Root(parent, rank, i)
    requires Gathered(hulls, roots, reached, groups, |hulls|)
    requires s in Reached(SceneOf(v))
    ensures exists r :: r in groups && Elements(groups[r]) == Group(SceneOf(v), s)
  {
    hide Tracks, Gathered, Contacts, Reached, Group, SceneOf;
    assert s in ReachedSet(hulls, reached);
    var i := ixOf[s];
    InReachedSet(v, hulls, ixOf, reached, i);
    GatheredRow(v, hulls, ixOf, parent, rank, roots, reached, groups, i);
  }

  /** The gathered rows are exactly the groups of the scene. */
  lemma GatheredGroups(v: View, hulls: seq<Hull>, ixOf: map<Sigil, nat>, parent: seq<nat>,
                       rank: seq<nat>, roots: seq<nat>, reached: seq<bool>, groups: GroupTable)
    requires Indexed(v, hulls, ixOf) && |roots| == |reached| == |hulls|
    requires Tracks(parent, rank, hulls, Contacts(SceneOf(v)))
    requires ReachedSet(hulls, reached) == Reached(SceneOf(v))
    requires forall i :: 0 <= i < |hulls| ==> roots[i] == Forest.Root(parent, rank, i)
    requires Gathered(hulls, roots, reached, groups, |hulls|)
    ensures forall r :: r in groups ==> r < |hulls|
    ensures RowSets(groups, |hulls|) == Groups(SceneOf(v))
  {
    hide Tracks, Indexed, Gathered, Contacts, Reached, ReachedSet, Group, SceneOf;
    var c := SceneOf(v);
    forall r | r in groups
      ensures r < |hulls| && Elements(groups[r]) in Groups(c)
    {
      RowIsGroup(v, hulls, ixOf, parent, rank, roots, reached, groups, r);
    }
    forall g | g in Groups(c)
      ensures g in RowSets(groups, |hulls|)
    {
      var s :| s in Reached(c) && g == Group(c, s);
      GroupHasRow(v, hulls, ixOf, parent, rank, roots, reached, groups, s);
    }
  }

  lemma GatheredDistinct(v: View, hulls: seq<Hull>, ixOf: map<Sigil, nat>, roots: seq<nat>,
                         reached: seq<bool>, groups: GroupTable, r: nat, q: nat)
    requires Indexed(v, hulls, ixOf) && |roots| == |reached| == |hulls|
    requires Gathered(hulls, roots, reached, groups, |hulls|)
    requires r in groups && q in groups && Elements(groups[r]) == Elements(groups[q])
    ensures r == q
  {
    var s := groups[r][0];
    assert s in Elements(groups[r]) && s in Elements(groups[q]);
    var i :| 0 <= i < |hulls| && reached[i] && roots[i] == r && hulls[i].sigil == s;
    var j :| 0 <= j < |hulls| && reached[j] && roots[j] == q && hulls[j].sigil == s;
    assert i == ixOf[s] == j;
  }

  lemma GatheredRow(v: View, hulls: seq<Hull>, ixOf: map<Sigil, nat>, parent: seq<nat>,
                    rank: seq<nat>, roots: seq<nat>, reached: seq<bool>, groups: GroupTable, i: nat)
    requires Indexed(v, hulls, ixOf) && |roots| == |reached| == |hulls|
    requires Tracks(parent, rank, hulls, Contacts(SceneOf(v)))
    requires ReachedSet(hulls, reached) == Reached(SceneOf(v))
    requires forall i :: 0 <= i < |hulls| ==> roots[i] == Forest.Root(parent, rank, i)
    requires Gathered(hulls, roots, reached, groups, |hulls|)
    requires i < |hulls| && reached[i]
    ensures hulls[i].sigil in Reached(SceneOf(v)) && roots[i] in groups
    ensures Elements(groups[roots[i]]) == Group(SceneOf(v), hulls[i].sigil)
  {
    var c, s, row := SceneOf(v), hulls[i].sigil, groups[roots[i]];
    var edges := Contacts(c);
    hide Contacts, Reached;
    assert s in ReachedSet(hulls, reached);
    forall t | t in row
      ensures t in Group(c, s)
    {
      var j :| 0 <= j < |hulls| && reached[j] && roots[j] == roots[i] && hulls[j].sigil == t;
      assert Forest.Same(parent, rank, i, j);
      assert t in ReachedSet(hulls, reached);
    }
    forall t | t in Group(c, s)
      ensures t in row
    {
      var j :| 0 <= j < |hulls| && reached[j] && hulls[j].sigil == t;
      assert Forest.Same(parent, rank, i, j);
    }
  }

  datatype Keyed = Keyed(min: Sigil, members: seq<Sigil>)

  ghost function RowSets(groups: GroupTable, k: nat): set<set<Sigil>> {
    set r | r in groups && r < k :: Elements(groups[r])
  }

  /** The small rows below `k`, sorted, keyed and listed; the large ones counted. */
  ghost predicate Sifted(groups: GroupTable, maxSize: nat, k: nat, ok: seq<Keyed>, large: nat)
  {
    && (forall i :: 0 <= i < |ok| ==>
         && ok[i].members != [] && ok[i].min == ok[i].members[0] && Increasing(ok[i].members)
         && Elements(ok[i].members) in RowSets(groups, k) && |ok[i].members| <= maxSize)
    && (forall i, j :: 0 <= i < j < |ok| ==> Elements(ok[i].members) != Elements(ok[j].members))
    && (forall g :: g in RowSets(groups, k) && |g| <= maxSize ==>
         exists i :: 0 <= i < |ok| && Elements(ok[i].members) == g)
    && large == Min(|LargeRows(groups, maxSize, k)|, U32_MAX)
  }

  lemma RowSetsStep(groups: GroupTable, k: nat)
    ensures RowSets(groups, k + 1) ==
      RowSets(groups, k) + if k in groups then {Elements(groups[k])} else {}
  {
  }

  ghost function LargeRows(groups: GroupTable, maxSize: nat, k: nat): set<set<Sigil>> {
    set g | g in RowSets(groups, k) && |g| > maxSize
  }

  lemma LargeRowsAdd(groups: GroupTable, maxSize: nat, k: nat)
    requires k in groups && |Elements(groups[k])| > maxSize
    requires Elements(groups[k]) !in RowSets(groups, k)
    ensures |LargeRows(groups, maxSize, k + 1)| == |LargeRows(groups, maxSize, k)| + 1
  {
    var g := Elements(groups[k]);
    RowSetsStep(groups, k);
    hide RowSets, Elements;
    assert LargeRows(groups, maxSize, k + 1) == LargeRows(groups, maxSize, k) + {g};
  }

  lemma SiftedLarge(groups: GroupTable, maxSize: nat, k: nat, ok: seq<Keyed>, large: nat)
    requires Sifted(groups, maxSize, k, ok, large)
    requires k in groups && |Elements(groups[k])| > maxSize
    requires Elements(groups[k]) !in RowSets(groups, k)
    ensures Sifted(groups, maxSize, k + 1, ok, Min(large + 1, U32_MAX))
  {
    RowSetsStep(groups, k);
    LargeRowsAdd(groups, maxSize, k);
    hide RowSets, Increasing, Elements, LargeRows;
  }

  lemma SiftedSmall(groups: GroupTable, maxSize: nat, k: nat, ok: seq<Keyed>, large: nat,
                    members: seq<Sigil>)
    requires Sifted(groups, maxSize, k, ok, large)
    requires k in groups && |members| <= maxSize && |Elements(members)| <= maxSize
    requires members != [] && Increasing(members) && Elements(members) == Elements(groups[k])
    requires Elements(groups[k]) !in RowSets(groups, k)
    ensures Sifted(groups, maxSize, k + 1, ok + [Keyed(members[0], members)], large)
  {
    var g := Elements(groups[k]);
    RowSetsStep(groups, k);
    hide RowSets;
    assert LargeRows(groups, maxSize, k + 1) == LargeRows(groups, maxSize, k);
    var ok' := ok + [Keyed(members[0], members)];
    assert ok'[|ok|] == Keyed(members[0], members);
    forall h | h in RowSets(groups, k + 1) && |h| <= maxSize
      ensures exists i :: 0 <= i < |ok'| && Elements(ok'[i].members) == h
    {
      if h in RowSets(groups, k) {
        var i :| 0 <= i < |ok| && Elements(ok[i].members) == h;
        assert ok'[i] == ok[i];
      }
    }
  }

  lemma SiftedSkip(groups: GroupTable, maxSize: nat, k: nat, ok: seq<Keyed>, large: nat)
    requires Sifted(groups, maxSize, k, ok, large) && k !in groups
    ensures Sifted(groups, maxSize, k + 1, ok, large)
  {
    RowSetsStep(groups, k);
  }

  lemma SortedRow(row: seq<Sigil>)
    requires row != [] && NoDuplicates(row)
    ensures var m := SortSigils(row);
      m != [] && Increasing(m) && Elements(m) == Elements(row) && |m| == |Elements(m)|
  {
    SortSigilsIncreasing(row);
    DistinctSize(row);
  }

  function SortKeyed(ok: seq<Keyed>): seq<Keyed> {
    Sort(ok, (a: Keyed, b: Keyed) => a.min <= b.min)
  }

  /** Rows in root order: small ones sorted and keyed by least member, large ones counted. */
  method Sift(groups: GroupTable, n: nat, maxSize: nat) returns (ok: seq<Keyed>, large: nat)
    requires forall r :: r in groups ==> r < n && groups[r] != [] && NoDuplicates(groups[r])
    requires forall r, q :: r in groups && q in groups && r != q ==>
      Elements(groups[r]) != Elements(groups[q])
    ensures Sifted(groups, maxSize, n, ok, large)
  {
    hide Sifted, SortSigils;
    ok := [];
    large := 0;
    SiftedEmpty(groups, maxSize);
    for root := 0 to n
      invariant Sifted(groups, maxSize, root, ok, large)
    {
      if root in groups {
        SortedRow(groups[root]);
        var members := SortSigils(groups[root]);
        if |members| > maxSize {
          SiftedLarge(groups, maxSize, root, ok, large);
          large := Min(large + 1, U32_MAX);
          continue;
        }
        SiftedSmall(groups, maxSize, root, ok, large, members);
        ok := ok + [Keyed(members[0], members)];
      } else {
        SiftedSkip(groups, maxSize, root, ok, large);
      }
    }
  }

  lemma SiftedEmpty(groups: GroupTable, maxSize: nat)
    ensures Sifted(groups, maxSize, 0, [], 0)
  {
    assert RowSets(groups, 0) == {};
  }

  function MembersOf(ok: seq<Keyed>): (m: seq<seq<Sigil>>)
    ensures |m| == |ok| && forall i :: 0 <= i < |ok| ==> m[i] == ok[i].members
  {
    seq(|ok|, (i: nat) requires i < |ok| => ok[i].members)
  }

  /** The kept rows of a scene, sorted by least member. */
  ghost predicate Kept(c: Scene, maxSize: nat, ok: seq<Keyed>) {
    && (forall i :: 0 <= i < |ok| ==>
         && ok[i].members != [] && ok[i].min == ok[i].members[0] && Increasing(ok[i].members)
         && Elements(ok[i].members) in SmallGroups(c, maxSize))
    && (forall g :: g in SmallGroups(c, maxSize) ==>
         exists k :: k in ok && Elements(k.members) == g)
    && (forall i, j :: 0 <= i < j < |ok| ==> ok[i] != ok[j])
  }

  lemma SiftedKept(c: Scene, groups: GroupTable, maxSize: nat, n: nat, ok: seq<Keyed>, large: nat)
    requires RowSets(groups, n) == Groups(c)
    requires Sifted(groups, maxSize, n, ok, large)
    ensures Kept(c, maxSize, ok)
    ensures large == Min(|LargeGroups(c, maxSize)|, U32_MAX)
  {
    hide RowSets, Groups;
    assert LargeRows(groups, maxSize, n) == LargeGroups(c, maxSize);
    hide LargeRows, LargeGroups;
    forall i | 0 <= i < |ok|
      ensures Elements(ok[i].members) in SmallGroups(c, maxSize)
    {
      IncreasingSize(ok[i].members);
    }
    forall g | g in SmallGroups(c, maxSize)
      ensures exists k :: k in ok && Elements(k.members) == g
    {
      var i :| 0 <= i < |ok| && Elements(ok[i].members) == g;
      assert ok[i] in ok;
    }
  }

  lemma IncreasingSize(s: seq<nat>)
    requires Increasing(s)
    ensures |Elements(s)| == |s|
  {
    DistinctSize(s);
  }

  lemma SortKept(c: Scene, maxSize: nat, ok: seq<Keyed>)
    requires Kept(c, maxSize, ok)
    ensures Kept(c, maxSize, SortKeyed(ok))
    ensures forall i, j :: 0 <= i < j < |SortKeyed(ok)| ==>
      SortKeyed(ok)[i].min <= SortKeyed(ok)[j].min
  {
    hide SmallGroups, Increasing;
    var le := (a: Keyed, b: Keyed) => a.min <= b.min;
    var sorted := SortKeyed(ok);
    SortSorted(ok, le);
    SortElements(ok, le);
    assert NoDuplicates(ok);
    SortedDistinct(ok, sorted);
    forall i | 0 <= i < |sorted|
      ensures sorted[i] in ok
    {
      assert sorted[i] in Elements(sorted);
    }
    forall k | k in ok
      ensures k in sorted
    {
      assert k in Elements(ok);
    }
    forall i, j | 0 <= i < j < |sorted|
      ensures sorted[i].min <= sorted[j].min
    {
      assert le(sorted[i], sorted[j]);
    }
  }

  /** Sorting the kept rows by least member ranks the small groups. */
  lemma KeptRanking(c: Scene, maxSize: nat, sorted: seq<Keyed>)
    requires Kept(c, maxSize, sorted)
    requires forall i, j :: 0 <= i < j < |sorted| ==> sorted[i].min <= sorted[j].min
    ensures Ranking(MembersOf(sorted), SmallGroups(c, maxSize))
  {
    forall i, j | 0 <= i < j < |sorted|
      ensures sorted[i].min < sorted[j].min
    {
      if sorted[i].min == sorted[j].min {
        var x := sorted[i].min;
        assert x in Elements(sorted[i].members) && x in Elements(sorted[j].members);
        GroupsMeet(c, Elements(sorted[i].members), Elements(sorted[j].members), x);
        IncreasingUnique(sorted[i].members, sorted[j].members);
      }
    }
    hide SmallGroups, Increasing;
    forall g | g in SmallGroups(c, maxSize)
      ensures exists i :: 0 <= i < |sorted| && Elements(MembersOf(sorted)[i]) == g
    {
      var k :| k in sorted && Elements(k.members) == g;
      var i :| 0 <= i < |sorted| && sorted[i] == k;
      assert MembersOf(sorted)[i] == k.members;
    }
  }

  lemma NothingToPartition(v: View, ixOf: map<Sigil, nat>, maxIslands: nat, maxSize: nat)
    requires Indexed(v, [], ixOf)
    ensures IsPartition(SceneOf(v), maxIslands, maxSize, Islands([], 0, 0))
  {
    var c := SceneOf(v);
    assert Bodies(v) == {};
    assert Reached(c) == {};
    assert Groups(c) == {} && SmallGroups(c, maxSize) == {} && LargeGroups(c, maxSize) == {};
    assert Ranking([], SmallGroups(c, maxSize)) && Numbered([], maxIslands) == [];
  }

  /** Freshly allocated arrays: every node its own root, of rank zero. */
  lemma Singletons(v: View, hulls: seq<Hull>, ixOf: map<Sigil, nat>, parent: seq<nat>,
                   rank: seq<nat>)
    requires Indexed(v, hulls, ixOf) && |parent| == |rank| == |hulls|
    requires forall i :: 0 <= i < |hulls| ==> parent[i] == i && rank[i] == 0
    ensures Tracks(parent, rank, hulls, {})
  {
    assert Forest.Ranked(parent, rank);
    forall r | 0 <= r < |parent| && parent[r] == r
      ensures Pow2(rank[r]) <= |Forest.Class(parent, rank, r)|
    {
      assert Forest.Class(parent, rank, r) == {r};
    }
    forall i, j | 0 <= i < |hulls| && 0 <= j < |hulls|
      ensures Forest.Same(parent, rank, i, j) <==> Linked({}, hulls[i].sigil, hulls[j].sigil)
    {
      LinkedEmpty(hulls[i].sigil, hulls[j].sigil);
    }
  }

  ghost function RootsOf(hulls: seq<Hull>, parent: seq<nat>, rank: seq<nat>, edges: Edges)
    : (roots: seq<nat>)
    requires Tracks(parent, rank, hulls, edges)
    ensures Forest.Valid(parent, rank) && |roots| == |hulls| == |parent|
    ensures forall i :: 0 <= i < |hulls| ==> roots[i] == Forest.Root(parent, rank, i)
  {
    seq(|hulls|, i requires 0 <= i < |hulls| => Forest.Root(parent, rank, i))
  }

  lemma IndexedDistinct(v: View, hulls: seq<Hull>, ixOf: map<Sigil, nat>)
    requires Indexed(v, hulls, ixOf)
    ensures forall i, j :: 0 <= i < j < |hulls| ==> hulls[i].sigil != hulls[j].sigil
  {
  }

  lemma GatheredRows(v: View, hulls: seq<Hull>, ixOf: map<Sigil, nat>, roots: seq<nat>,
                     reached: seq<bool>, groups: GroupTable)
    requires Indexed(v, hulls, ixOf) && |roots| == |reached| == |hulls|
    requires Gathered(hulls, roots, reached, groups, |hulls|)
    ensures forall r :: r in groups ==> groups[r] != [] && NoDuplicates(groups[r])
    ensures forall r, q :: r in groups && q in groups && r != q ==>
      Elements(groups[r]) != Elements(groups[q])
  {
    hide Indexed;
    forall r, q | r in groups && q in groups && r != q
      ensures Elements(groups[r]) != Elements(groups[q])
    {
      if Elements(groups[r]) == Elements(groups[q]) {
        GatheredDistinct(v, hulls, ixOf, roots, reached, groups, r, q);
      }
    }
  }

  lemma PartitionIntro(c: Scene, maxIslands: nat, maxSize: nat, ok: seq<seq<Sigil>>, p: Islands)
    requires Ranking(ok, SmallGroups(c, maxSize))
    requires p.islands == Numbered(ok, maxIslands)
    requires p.omittedTooLarge == Min(|LargeGroups(c, maxSize)|, U32_MAX)
    requires p.omittedTooMany == OverCap(|ok|, maxIslands)
    ensures IsPartition(c, maxIslands, maxSize, p)
  {
  }

  method NewForest(n: nat) returns (parent: array<nat>, rank: array<nat>, reached: array<bool>)
    ensures fresh(parent) && fresh(rank) && fresh(reached) && parent != rank
    ensures parent.Length == rank.Length == reached.Length == n
    ensures forall i :: 0 <= i < n ==> parent[i] == i && rank[i] == 0 && !reached[i]
  {
    parent := new nat[n](i => i);
    rank := new nat[n](_ => 0);
    reached := new bool[n](_ => false);
  }

  /** `partition_with_caps`: whatever the order of loci, candidates and constraints, the result is
      the partition of the scene. */
  method PartitionWithCaps(v: View, maxIslands: nat, maxSize: nat) returns (p: Islands)
    requires NoDuplicates(v.loci) && |v.loci| <= Forest.MAX_NODES
    ensures IsPartition(SceneOf(v), maxIslands, maxSize, p)
  {
    hide *;
    ghost var c := SceneOf(v);
    var hulls, ixOf := CollectHulls(v);
    if hulls == [] {
      NothingToPartition(v, ixOf, maxIslands, maxSize);
      return Islands([], 0, 0);
    }
    var n := |hulls|;
    var parent, rank, reached := NewForest(n);
    Singletons(v, hulls, ixOf, parent[..], rank[..]);
    Flood(v, hulls, ixOf, parent, rank, reached);
    CoupleJoints(v, hulls, ixOf, parent, rank, reached);
    ghost var roots := RootsOf(hulls, parent[..], rank[..], Contacts(c));
    ghost var p0, r0 := parent[..], rank[..];
    IndexedDistinct(v, hulls, ixOf);
    var groups := GroupByRoot(hulls, parent, rank[..], reached[..], roots);
    GatheredGroups(v, hulls, ixOf, p0, r0, roots, reached[..], groups);
    GatheredRows(v, hulls, ixOf, roots, reached[..], groups);
    var ok, large := Sift(groups, n, maxSize);
    SiftedKept(c, groups, maxSize, n, ok, large);
    SortKept(c, maxSize, ok);
    KeptRanking(c, maxSize, SortKeyed(ok));
    var ranked := MembersOf(SortKeyed(ok));
    p := Islands(Numbered(ranked, maxIslands), large, OverCap(|ranked|, maxIslands));
    assert IsPartition(c, maxIslands, maxSize, p) by {
      PartitionIntro(c, maxIslands, maxSize, ranked, p);
    }
  }
}
