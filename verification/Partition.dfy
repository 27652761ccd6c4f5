/** The per-tick island partition. */
module Partition {
  // Union-find over overlapping bodies, a flood fill from the awake seeds, a fixpoint over intact joints, then
  // grouping, ranking and caps.

  import opened Prelude
  import opened Space
  import opened Links

  datatype LocusKind = Actor | Place | Relic | Law | Beat | Chorus | Observer
  datatype BodyMode = Static | Kinematic | Dynamic
  datatype AttachRel = PilotedBy | AttachedTo
  datatype Vel = Vel(x: int, y: int, z: int, yawRate: int)
  datatype Joint = Joint(id: Sigil, a: Sigil, b: Sigil)

  /** The read surface of a world view.  `bounds` is the posed, padded hull; `candidates` is the
      spatial index, about which nothing is assumed. */
  datatype View = View(
    loci: seq<Sigil>,
    kind: Sigil -> Option<LocusKind>,
    mode: Sigil -> BodyMode,
    vel: Sigil -> Option<Vel>,
    rates: Sigil -> Option<Vec3>,
    opaqueClosed: Sigil -> bool,
    island: Sigil -> Option<(nat, nat)>,
    physReq: Sigil -> bool,
    related: (Sigil, AttachRel) -> seq<Sigil>,
    simLod: Sigil -> SimLod,
    bounds: Sigil -> Option<Aabb>,
    candidates: Aabb -> seq<Sigil>,
    constraints: seq<Joint>,
    broken: Sigil -> bool)

  const SLEEP_AFTER_TICKS: nat := 120
  const MAX_ISLANDS: nat := U16_MAX
  const MAX_ISLAND_SIZE: nat := 256
  const NO_ISLAND: nat := U16_MAX

  function SleepOf(v: View, s: Sigil): nat {
    match v.island(s) case Some(row) => row.1 case None => 0
  }

  predicate Moving(v: View, s: Sigil) {
    match v.vel(s)
    case Some(w) => w.x != 0 || w.y != 0 || w.z != 0 || w.yawRate != 0
    case None => false
  }

  /** Idle `OpaqueClosed` relic: occupancy only. */
  predicate IsIdleScenery(v: View, s: Sigil) {
    v.opaqueClosed(s) && SleepOf(v, s) == 0 && !v.physReq(s) && !Moving(v, s)
  }

  predicate IsAttachNode(v: View, s: Sigil) {
    v.related(s, PilotedBy) != [] || v.related(s, AttachedTo) != []
  }

  predicate IsPhysBody(v: View, s: Sigil) {
    && v.mode(s) != Static
    && match v.kind(s)
       case Some(Actor) => true
       case Some(Relic) =>
         && (v.mode(s) == Dynamic || Moving(v, s)
             || (v.rates(s).Some? && v.rates(s).value != Vec3(0, 0, 0)))
         && (!IsIdleScenery(v, s) || IsAttachNode(v, s))
       case _ => false
  }

  predicate AttachedToAwake(v: View, s: Sigil) {
    || (exists o :: o in v.related(s, PilotedBy) && SleepOf(v, o) < SLEEP_AFTER_TICKS)
    || (exists o :: o in v.related(s, AttachedTo) && SleepOf(v, o) < SLEEP_AFTER_TICKS)
  }

  predicate IsSeed(v: View, s: Sigil) {
    && v.simLod(s) == Full
    && IsPhysBody(v, s)
    && (SleepOf(v, s) < SLEEP_AFTER_TICKS || Moving(v, s) || v.physReq(s) || AttachedToAwake(v, s))
  }

  // ---------------------------------------------------------------------------------------------
  // What an island is.

  predicate IsBody(v: View, s: Sigil) {
    s in v.loci && IsPhysBody(v, s) && v.bounds(s).Some?
  }

  ghost function Bodies(v: View): set<Sigil> {
    set s | s in v.loci && IsBody(v, s)
  }

  ghost function Seeds(v: View): set<Sigil> {
    set s | s in Bodies(v) && IsSeed(v, s)
  }

  /** `t` is offered by the spatial index for the hull of `s`, and the two hulls overlap.  The index
      is queried with one hull only, so this relation is directed. */
  predicate Overlap(v: View, s: Sigil, t: Sigil)
    requires IsBody(v, s) && IsBody(v, t)
  {
    && s != t
    && t in v.candidates(v.bounds(s).value)
    && v.bounds(s).value.Intersects(v.bounds(t).value)
  }

  ghost function Overlaps(v: View): Edges {
    set s, t | s in Bodies(v) && t in Bodies(v) && Overlap(v, s, t) :: (s, t)
  }

  /** Endpoints of the intact joints between bodies. */
  ghost function Joints(v: View): Edges {
    set j | j in v.constraints && !v.broken(j.id) && j.a in Bodies(v) && j.b in Bodies(v)
      :: (j.a, j.b)
  }

  /** What the island result depends on, and nothing else. */
  datatype Scene = Scene(bodies: set<Sigil>, seeds: set<Sigil>, overlaps: Edges, joints: Edges)

  ghost function SceneOf(v: View): Scene {
    Scene(Bodies(v), Seeds(v), Overlaps(v), Joints(v))
  }

  /** The overlap closure of the seeds. */
  ghost function Flooded(c: Scene): set<Sigil> {
    set s | s in c.bodies && Reaches(c.overlaps, c.seeds, s)
  }

  /** The joint closure of the overlap closure.  A body reached only by a joint is not flooded. */
  ghost function Reached(c: Scene): set<Sigil> {
    set s | s in c.bodies && Reaches(Both(c.joints), Flooded(c), s)
  }

  /** The pairs that couple two bodies: overlaps seen from a flooded body, and joints with a reached
      endpoint. */
  ghost function Contacts(c: Scene): Edges {
    (set e | e in c.overlaps && e.0 in Flooded(c)) +
    (set e | e in c.joints && (e.0 in Reached(c) || e.1 in Reached(c)))
  }

  ghost function Group(c: Scene, s: Sigil): set<Sigil> {
    set t | t in Reached(c) && Linked(Contacts(c), s, t)
  }

  ghost function Groups(c: Scene): set<set<Sigil>> {
    set s | s in Reached(c) :: Group(c, s)
  }

  /** `ok` lists the given groups: members ascending, groups by least member. */
  ghost predicate Ranking(ok: seq<seq<Sigil>>, groups: set<set<Sigil>>) {
    && (forall i :: 0 <= i < |ok| ==> ok[i] != [] && Increasing(ok[i]))
    && (forall i, j :: 0 <= i < j < |ok| ==> ok[i][0] < ok[j][0])
    && (forall i :: 0 <= i < |ok| ==> Elements(ok[i]) in groups)
    && (forall g :: g in groups ==> exists i :: 0 <= i < |ok| && Elements(ok[i]) == g)
  }

  datatype Island = Island(id: nat, members: seq<Sigil>)
  datatype Islands = Islands(islands: seq<Island>, omittedTooLarge: nat, omittedTooMany: nat)

  function Numbered(ok: seq<seq<Sigil>>, cap: nat): seq<Island> {
    seq(Min(|ok|, cap), (i: nat) requires i < |ok| => Island(i % (U16_MAX + 1), ok[i]))
  }

  function OverCap(n: nat, cap: nat): nat {
    Min(Max(n - cap, 0), U32_MAX)
  }

  ghost function SmallGroups(c: Scene, maxSize: nat): set<set<Sigil>> {
    set g | g in Groups(c) && |g| <= maxSize
  }

  ghost function LargeGroups(c: Scene, maxSize: nat): set<set<Sigil>> {
    set g | g in Groups(c) && |g| > maxSize
  }

  /** The partition of a scene: small groups ranked by least member and numbered from zero, the
      ranking cut at the island cap, and everything left out counted. */
  ghost predicate IsPartition(c: Scene, maxIslands: nat, maxSize: nat, p: Islands) {
    exists ok :: Ranking(ok, SmallGroups(c, maxSize))
      && p.islands == Numbered(ok, maxIslands)
      && p.omittedTooLarge == Min(|LargeGroups(c, maxSize)|, U32_MAX)
      && p.omittedTooMany == OverCap(|ok|, maxIslands)
  }

  // ---------------------------------------------------------------------------------------------
  // Facts about the specification.

  lemma ReachedFacts(c: Scene)
    ensures c.seeds <= c.bodies ==> c.seeds <= Flooded(c)
    ensures Flooded(c) <= Reached(c) <= c.bodies
  {
    forall s | s in c.seeds && s in c.bodies ensures s in Flooded(c) {
      PathRefl(c.overlaps, s);
    }
    forall s | s in Flooded(c) ensures s in Reached(c) {
      PathRefl(Both(c.joints), s);
    }
  }

  /** Groups are equivalence classes: two members of one group generate the same group. */
  lemma GroupOfMember(c: Scene, s: Sigil, t: Sigil)
    requires s in Reached(c) && t in Group(c, s)
    ensures Group(c, t) == Group(c, s)
  {
    var e := Contacts(c);
    LinkedSym(e, s, t);
    forall x ensures x in Group(c, s) <==> x in Group(c, t) {
      if x in Group(c, s) { LinkedTrans(e, t, s, x); }
      if x in Group(c, t) { LinkedTrans(e, s, t, x); }
    }
  }

  lemma GroupSelf(c: Scene, s: Sigil)
    requires s in Reached(c)
    ensures s in Group(c, s)
  {
    LinkedRefl(Contacts(c), s);
  }

  lemma GroupsMeet(c: Scene, g: set<Sigil>, h: set<Sigil>, x: Sigil)
    requires g in Groups(c) && h in Groups(c) && x in g && x in h
    ensures g == h == Group(c, x)
  {
    var s :| s in Reached(c) && g == Group(c, s);
    var t :| t in Reached(c) && h == Group(c, t);
    GroupOfMember(c, s, x);
    GroupOfMember(c, t, x);
  }

  ghost function Heads(ok: seq<seq<Sigil>>): (h: seq<Sigil>)
    requires forall i :: 0 <= i < |ok| ==> ok[i] != []
    ensures |h| == |ok| && forall i :: 0 <= i < |ok| ==> h[i] == ok[i][0]
  {
    seq(|ok|, (i: nat) requires i < |ok| => ok[i][0])
  }

  lemma Counterpart(a: seq<seq<Sigil>>, b: seq<seq<Sigil>>, groups: set<set<Sigil>>, i: nat)
    returns (j: nat)
    requires Ranking(a, groups) && Ranking(b, groups) && i < |a|
    ensures j < |b| && b[j] == a[i]
  {
    assert Elements(a[i]) in groups;
    j :| 0 <= j < |b| && Elements(b[j]) == Elements(a[i]);
    IncreasingUnique(a[i], b[j]);
  }

  lemma SharedHeads(a: seq<seq<Sigil>>, b: seq<seq<Sigil>>, groups: set<set<Sigil>>)
    requires Ranking(a, groups) && Ranking(b, groups)
    ensures Elements(Heads(a)) <= Elements(Heads(b))
  {
    forall h | h in Elements(Heads(a))
      ensures h in Elements(Heads(b))
    {
      var i :| 0 <= i < |a| && Heads(a)[i] == h;
      var j := Counterpart(a, b, groups, i);
      assert Heads(b)[j] == h;
    }
  }

  lemma HeadsIncreasing(a: seq<seq<Sigil>>, groups: set<set<Sigil>>)
    requires Ranking(a, groups)
    ensures Increasing(Heads(a))
    ensures forall i, j :: 0 <= i < |a| && 0 <= j < |a| && Heads(a)[i] == Heads(a)[j] ==> i == j
  {
  }

  /** A ranking is determined by the groups it ranks. */
  lemma RankingUnique(a: seq<seq<Sigil>>, b: seq<seq<Sigil>>, groups: set<set<Sigil>>)
    requires Ranking(a, groups) && Ranking(b, groups)
    ensures a == b
  {
    SharedHeads(a, b, groups);
    SharedHeads(b, a, groups);
    hide Increasing;
    HeadsIncreasing(a, groups);
    HeadsIncreasing(b, groups);
    IncreasingUnique(Heads(a), Heads(b));
    forall i | 0 <= i < |a|
      ensures a[i] == b[i]
    {
      var j := Counterpart(a, b, groups, i);
      assert Heads(a)[i] == a[i][0] && Heads(b)[j] == b[j][0];
    }
  }

  /** The partition is a function of the scene: no order of loci, of spatial candidates or of
      constraints can change it. */
  lemma PartitionDetermined(c: Scene, maxIslands: nat, maxSize: nat, p: Islands, q: Islands)
    requires IsPartition(c, maxIslands, maxSize, p) && IsPartition(c, maxIslands, maxSize, q)
    ensures p == q
  {
    var a :| Ranking(a, SmallGroups(c, maxSize)) && p.islands == Numbered(a, maxIslands)
      && p.omittedTooMany == OverCap(|a|, maxIslands);
    var b :| Ranking(b, SmallGroups(c, maxSize)) && q.islands == Numbered(b, maxIslands)
      && q.omittedTooMany == OverCap(|b|, maxIslands);
    RankingUnique(a, b, SmallGroups(c, maxSize));
  }

  /** Two views that list the same loci, candidates and joints in any order have one scene. */
  lemma SceneIgnoresOrder(v: View, w: View)
    requires Elements(v.loci) == Elements(w.loci)
    requires Elements(v.constraints) == Elements(w.constraints)
    requires forall box :: Elements(v.candidates(box)) == Elements(w.candidates(box))
    requires w == v.(loci := w.loci, constraints := w.constraints, candidates := w.candidates)
    ensures SceneOf(v) == SceneOf(w)
  {
    forall s ensures IsBody(v, s) == IsBody(w, s) {
      assert s in Elements(v.loci) <==> s in Elements(w.loci);
    }
    assert Bodies(v) == Bodies(w);
    forall s ensures IsSeed(v, s) == IsSeed(w, s) { }
    assert Seeds(v) == Seeds(w);
    forall s, t | s in Bodies(v) && t in Bodies(v)
      ensures Overlap(v, s, t) == Overlap(w, s, t)
    {
      var box := v.bounds(s).value;
      assert t in Elements(v.candidates(box)) <==> t in Elements(w.candidates(box));
    }
    assert Overlaps(v) == Overlaps(w);
    forall j ensures j in v.constraints <==> j in w.constraints {
      assert j in Elements(v.constraints) <==> j in Elements(w.constraints);
    }
    assert Joints(v) == Joints(w);
  }

  /** The published islands do not depend on the order in which loci, spatial candidates or
      constraints were enumerated. */
  lemma PartitionIgnoresOrder(v: View, w: View, maxIslands: nat, maxSize: nat, p: Islands, q: Islands)
    requires Elements(v.loci) == Elements(w.loci)
    requires Elements(v.constraints) == Elements(w.constraints)
    requires forall box :: Elements(v.candidates(box)) == Elements(w.candidates(box))
    requires w == v.(loci := w.loci, constraints := w.constraints, candidates := w.candidates)
    requires IsPartition(SceneOf(v), maxIslands, maxSize, p)
    requires IsPartition(SceneOf(w), maxIslands, maxSize, q)
    ensures p == q
  {
    SceneIgnoresOrder(v, w);
    PartitionDetermined(SceneOf(v), maxIslands, maxSize, p, q);
  }

  /** Island `i` of a partition is the group of each of its members. */
  lemma IslandIsGroup(c: Scene, maxIslands: nat, maxSize: nat, p: Islands, i: nat, s: Sigil)
    requires IsPartition(c, maxIslands, maxSize, p) && maxIslands <= MAX_ISLANDS
    requires i < |p.islands| && s in p.islands[i].members
    ensures p.islands[i].id == i < maxIslands
    ensures s in Reached(c) && Elements(p.islands[i].members) == Group(c, s)
    ensures Increasing(p.islands[i].members) && |p.islands[i].members| <= maxSize
  {
    hide Ranking, SmallGroups, Group, Reached;
    var ok :| Ranking(ok, SmallGroups(c, maxSize)) && p.islands == Numbered(ok, maxIslands);
    assert p.islands[i] == Island(i, ok[i]);
    RankedMember(c, maxSize, ok, i, s);
  }

  lemma RankedMember(c: Scene, maxSize: nat, ok: seq<seq<Sigil>>, i: nat, s: Sigil)
    requires Ranking(ok, SmallGroups(c, maxSize)) && i < |ok| && s in ok[i]
    ensures s in Reached(c) && Elements(ok[i]) == Group(c, s)
    ensures Increasing(ok[i]) && |ok[i]| <= maxSize
  {
    var g := Elements(ok[i]);
    assert g in SmallGroups(c, maxSize);
    DistinctSize(ok[i]);
    hide Ranking, Elements, NoDuplicates;
    var t :| t in Reached(c) && g == Group(c, t);
    assert s in g;
    GroupOfMember(c, t, s);
  }

  /** Two bodies share an island exactly when both are reached, coupled by a chain of contacts, and
      their group is small enough and ranked under the cap. */
  lemma SameIslandIffLinked(c: Scene, maxIslands: nat, maxSize: nat, p: Islands, s: Sigil, t: Sigil)
    requires IsPartition(c, maxIslands, maxSize, p) && maxIslands <= MAX_ISLANDS
    ensures (exists i :: 0 <= i < |p.islands| && s in p.islands[i].members && t in p.islands[i].members)
      <==>
      && s in Reached(c) && t in Reached(c) && Linked(Contacts(c), s, t)
      && |Group(c, s)| <= maxSize
      && exists i :: 0 <= i < |p.islands| && Elements(p.islands[i].members) == Group(c, s)
  {
    if i :| 0 <= i < |p.islands| && s in p.islands[i].members && t in p.islands[i].members {
      IslandIsGroup(c, maxIslands, maxSize, p, i, s);
      DistinctSize(p.islands[i].members);
      assert t in Elements(p.islands[i].members);
    }
    if s in Reached(c) && t in Group(c, s) {
      GroupSelf(c, s);
      if i :| 0 <= i < |p.islands| && Elements(p.islands[i].members) == Group(c, s) {
        assert s in Elements(p.islands[i].members) && t in Elements(p.islands[i].members);
      }
    }
  }

  /** No body is on two islands. */
  lemma IslandsDisjoint(c: Scene, maxIslands: nat, maxSize: nat, p: Islands, i: nat, j: nat, s: Sigil)
    requires IsPartition(c, maxIslands, maxSize, p) && maxIslands <= MAX_ISLANDS
    requires i < |p.islands| && s in p.islands[i].members
    requires j < |p.islands| && s in p.islands[j].members
    ensures i == j
  {
    IslandIsGroup(c, maxIslands, maxSize, p, i, s);
    IslandIsGroup(c, maxIslands, maxSize, p, j, s);
    var a, b := p.islands[i].members, p.islands[j].members;
    IncreasingUnique(a, b);
    var ok :| Ranking(ok, SmallGroups(c, maxSize)) && p.islands == Numbered(ok, maxIslands);
    assert ok[i] == a && ok[j] == b;
  }

  lemma RankingSize(ok: seq<seq<Sigil>>, groups: set<set<Sigil>>)
    requires Ranking(ok, groups)
    ensures |ok| == |groups|
  {
    var sets := seq(|ok|, (i: nat) requires i < |ok| => Elements(ok[i]));
    forall i, j | 0 <= i < j < |ok|
      ensures sets[i] != sets[j]
    {
      if sets[i] == sets[j] {
        IncreasingUnique(ok[i], ok[j]);
      }
    }
    DistinctSize(sets);
    assert Elements(sets) == groups by {
      forall g | g in groups ensures g in sets {
        var i :| 0 <= i < |ok| && Elements(ok[i]) == g;
        assert sets[i] == g;
      }
    }
  }

  /** Every component is an island or is counted as omitted: nothing is split and nothing is lost.
      (The counters saturate at `u32`, which needs more components than there are node indices.) */
  lemma ComponentsAccounted(c: Scene, maxIslands: nat, maxSize: nat, p: Islands)
    requires IsPartition(c, maxIslands, maxSize, p) && |Groups(c)| <= U32_MAX
    ensures |p.islands| + p.omittedTooLarge + p.omittedTooMany == |Groups(c)|
  {
    var ok :| Ranking(ok, SmallGroups(c, maxSize)) && p.islands == Numbered(ok, maxIslands)
      && p.omittedTooLarge == Min(|LargeGroups(c, maxSize)|, U32_MAX)
      && p.omittedTooMany == OverCap(|ok|, maxIslands);
    RankingSize(ok, SmallGroups(c, maxSize));
    assert Groups(c) == SmallGroups(c, maxSize) + LargeGroups(c, maxSize);
    assert SmallGroups(c, maxSize) !! LargeGroups(c, maxSize);
  }
}
