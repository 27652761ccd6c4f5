/** Islands and overlap. */
module OverlapGap {
  // A body coupled by a joint alone pulls in its joint partners, but it is not flooded: the bodies it overlaps stay
  // out.  When islands are closed under overlap, and a view where they are not.

  import opened Prelude
  import opened Space
  import opened Links
  import opened Partition

  /** Overlaps lead from bodies to bodies. */
  ghost predicate Proper(c: Scene) {
    forall e :: e in c.overlaps ==> e.0 in c.bodies && e.1 in c.bodies
  }

  lemma SceneIsProper(v: View)
    ensures Proper(SceneOf(v))
  {
  }

  /** Reached by joints only. */
  ghost predicate JointOnly(c: Scene, s: Sigil) { s in Reached(c) && s !in Flooded(c) }

  ghost predicate ReachedClosed(c: Scene) {
    forall e :: e in c.overlaps && e.0 in Reached(c) ==> e.1 in Reached(c)
  }

  lemma FloodedClosed(c: Scene, e: (Sigil, Sigil))
    requires Proper(c) && e in c.overlaps && e.0 in Flooded(c)
    ensures e.1 in Flooded(c) && e.1 in Reached(c) && e in Contacts(c)
  {
    ReachedFacts(c);
    hide Path, Reached;
    var s :| s in c.seeds && Path(c.overlaps, s, e.0);
    PathStep(c.overlaps, s, e.0, e.1);
  }

  /** The reached bodies are closed under overlap exactly when the joint-only ones overlap nothing new. */
  lemma ReachedClosedIff(v: View)
    ensures var c := SceneOf(v);
      ReachedClosed(c) <==> forall e :: e in c.overlaps && JointOnly(c, e.0) ==> e.1 in Reached(c)
  {
    var c := SceneOf(v);
    SceneIsProper(v);
    hide Flooded, Reached, Proper, Contacts, SceneOf;
    forall e | e in c.overlaps && e.0 in Flooded(c)
      ensures e.1 in Reached(c)
    {
      FloodedClosed(c, e);
    }
  }

  lemma FloodedTogether(c: Scene, e: (Sigil, Sigil))
    requires Proper(c) && e in c.overlaps && e.0 in Flooded(c)
    ensures e.1 in Group(c, e.0)
  {
    FloodedClosed(c, e);
    PathRefl(Both(Contacts(c)), e.0);
    PathStep(Both(Contacts(c)), e.0, e.0, e.1);
  }

  /** Every overlap out of a body on an island stays on it. */
  ghost predicate IslandsClosed(c: Scene, p: Islands) {
    forall i, e :: 0 <= i < |p.islands| && e in c.overlaps && e.0 in p.islands[i].members ==> e.1 in p.islands[i].members
  }

  /** The islands are closed under overlap exactly when each joint-only body on an island overlaps only bodies its
      own joints and floods couple it to. */
  lemma IslandsClosedIff(v: View, maxIslands: nat, maxSize: nat, p: Islands)
    requires IsPartition(SceneOf(v), maxIslands, maxSize, p) && maxIslands <= MAX_ISLANDS
    ensures var c := SceneOf(v);
      IslandsClosed(c, p) <==>
        forall i, e :: 0 <= i < |p.islands| && e in c.overlaps && e.0 in p.islands[i].members && JointOnly(c, e.0) ==>
          Linked(Contacts(c), e.0, e.1) && e.1 in Reached(c)
  {
    var c := SceneOf(v);
    SceneIsProper(v);
    hide SceneOf;
    forall i, e | 0 <= i < |p.islands| && e in c.overlaps && e.0 in p.islands[i].members
      ensures e.1 in p.islands[i].members <==> e.1 in Reached(c) && Linked(Contacts(c), e.0, e.1)
      ensures !JointOnly(c, e.0) ==> e.1 in p.islands[i].members
    {
      IslandIsGroup(c, maxIslands, maxSize, p, i, e.0);
      assert e.1 in p.islands[i].members <==> e.1 in Elements(p.islands[i].members);
      if !JointOnly(c, e.0) {
        FloodedTogether(c, e);
      }
    }
    hide IsPartition, Flooded, Reached, Contacts, Linked, Proper, JointOnly;
  }

  // ---------------------------------------------------------------------------------------------
  // A view.

  function BoxAt(x: int): Aabb { Aabb(Vec3(x, 0, 0), Vec3(x + 1, 1, 1)) }

  /** Three dynamic actors.  Locus 1 is awake and jointed to locus 2, which sleeps against locus 3. */
  const JointedView: View := View(
    [1, 2, 3],
    (s: Sigil) => Some(Actor),
    (s: Sigil) => Dynamic,
    (s: Sigil) => None,
    (s: Sigil) => None,
    (s: Sigil) => false,
    (s: Sigil) => Some((0, if s == 1 then 0 else SLEEP_AFTER_TICKS)),
    (s: Sigil) => false,
    (s: Sigil, r: AttachRel) => [],
    (s: Sigil) => Full,
    (s: Sigil) => Some(BoxAt(Spot(s))),
    (box: Aabb) => [1, 2, 3],
    [Joint(9, 1, 2)],
    (s: Sigil) => false)

  const JointedScene: Scene := Scene({1, 2, 3}, {1}, {(2, 3), (3, 2)}, {(1, 2)})

  lemma JointedBodies()
    ensures Bodies(JointedView) == {1, 2, 3} && Seeds(JointedView) == {1}
  {
    assert forall s :: s in JointedView.loci <==> s == 1 || s == 2 || s == 3;
  }

  function Spot(s: Sigil): int { if s == 1 then 0 else if s == 2 then 10 else 11 }

  lemma JointedOverlap(s: Sigil, t: Sigil)
    requires 1 <= s <= 3 && 1 <= t <= 3
    ensures IsBody(JointedView, s) && IsBody(JointedView, t)
    ensures Overlap(JointedView, s, t) <==> (s == 2 && t == 3) || (s == 3 && t == 2)
  {
    var v := JointedView;
    assert t in [1, 2, 3];
    assert v.bounds(s) == Some(BoxAt(Spot(s))) && v.bounds(t) == Some(BoxAt(Spot(t)));
    assert v.candidates(BoxAt(Spot(s))) == [1, 2, 3];
    assert BoxAt(Spot(s)).Intersects(BoxAt(Spot(t))) <==> Spot(s) <= Spot(t) + 1 && Spot(t) <= Spot(s) + 1;
  }

  lemma JointedEdges()
    ensures Overlaps(JointedView) == {(2, 3), (3, 2)} && Joints(JointedView) == {(1, 2)}
  {
    var v := JointedView;
    JointedBodies();
    forall s, t | 1 <= s <= 3 && 1 <= t <= 3
      ensures IsBody(v, s) && IsBody(v, t) && (Overlap(v, s, t) <==> (s == 2 && t == 3) || (s == 3 && t == 2))
    {
      JointedOverlap(s, t);
    }
    assert v.constraints[0] in v.constraints;
    hide Overlap, IsBody, Bodies;
  }

  /** Its scene: locus 2 is reached and overlaps locus 3, which is not, and no partition of the view puts locus 3
      on any island. */
  lemma JointReachIsNotFlooded(p: Islands)
    requires IsPartition(SceneOf(JointedView), MAX_ISLANDS, MAX_ISLAND_SIZE, p)
    ensures SceneOf(JointedView) == JointedScene
    ensures JointOnly(JointedScene, 2) && (2, 3) in JointedScene.overlaps && 3 !in Reached(JointedScene)
    ensures forall i :: 0 <= i < |p.islands| ==> 3 !in p.islands[i].members
  {
    JointedBodies();
    JointedEdges();
    JointedReach();
    hide IsPartition, Reached, Flooded;
    forall i | 0 <= i < |p.islands|
      ensures 3 !in p.islands[i].members
    {
      if 3 in p.islands[i].members {
        IslandIsGroup(JointedScene, MAX_ISLANDS, MAX_ISLAND_SIZE, p, i, 3);
      }
    }
  }

  lemma JointedReach()
    ensures JointOnly(JointedScene, 2) && 3 !in Reached(JointedScene)
  {
    var c := JointedScene;
    PathRefl(c.overlaps, 1);
    assert 1 in Flooded(c);
    PathRefl(Both(c.joints), 1);
    PathStep(Both(c.joints), 1, 1, 2);
    forall s | s in Flooded(c)
      ensures s == 1
    {
      var r :| r in c.seeds && Path(c.overlaps, r, s);
      ClosedUnderPath(c.overlaps, {1}, r, s);
    }
    if 3 in Reached(c) {
      var s :| s in Flooded(c) && Path(Both(c.joints), s, 3);
      ClosedUnderPath(Both(c.joints), {1, 2}, s, 3);
    }
  }
}
