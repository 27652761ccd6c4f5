/** Island ids and membership. */
module Membership {
  // Publishing a partition to the island column, and the membership check made against it.

  import opened Prelude
  import opened Sorting
  import opened Partition
  import PartitionRun
  import Forest

  const MAX_PHYS_ISLAND_MEMBERS: nat := 256

  /** `(island, sleep)` per locus. */
  type IslandColumn = map<Sigil, (nat, nat)>

  datatype PartitionReject = TooLarge | TooMany

  function Labeled(loci: set<Sigil>, column: IslandColumn, id: nat): set<Sigil> {
    set s | s in loci && s in column && column[s].0 == id
  }

  /** The view reads its island rows from the column. */
  ghost predicate Reads(v: View, column: IslandColumn) {
    forall s :: v.island(s) == if s in column then Some(column[s]) else None
  }

  function SleepAt(column: IslandColumn, s: Sigil): nat { if s in column then column[s].1 else 0 }

  /** Insert the members of one island. */
  method AssignOne(island: Island, homes0: map<Sigil, nat>) returns (homes: map<Sigil, nat>)
    ensures forall s :: s in homes <==> s in homes0 || s in island.members
    ensures forall s :: s in island.members ==> homes[s] == island.id
    ensures forall s :: s in homes0 && s !in island.members ==> homes[s] == homes0[s]
  {
    homes := homes0;
    for k := 0 to |island.members|
      invariant forall s :: s in homes <==> s in homes0 || s in island.members[..k]
      invariant forall s :: s in island.members[..k] ==> homes[s] == island.id
      invariant forall s :: s in homes0 && s !in island.members[..k] ==> homes[s] == homes0[s]
    {
      assert island.members[..k + 1] == island.members[..k] + [island.members[k]];
      homes := homes[island.members[k] := island.id];
    }
    assert island.members[..|island.members|] == island.members;
  }

  ghost predicate Disjoint(islands: seq<Island>) {
    forall i, j, s :: 0 <= i < j < |islands| && s in islands[i].members ==> s !in islands[j].members
  }

  /** Members map to the id of their island, and nobody else maps. */
  ghost predicate Homed(islands: seq<Island>, homes: map<Sigil, nat>) {
    && (forall s :: s in homes <==> exists i :: 0 <= i < |islands| && s in islands[i].members)
    && (forall i, s :: 0 <= i < |islands| && s in islands[i].members ==> s in homes && homes[s] == islands[i].id)
  }

  /** Every locus gets its island, or `NO_ISLAND`, and keeps its sleep count. */
  ghost predicate Written(loci: seq<Sigil>, homes: map<Sigil, nat>, column0: IslandColumn, column: IslandColumn) {
    && (forall s :: s in loci ==>
          s in column && column[s] == (if s in homes then homes[s] else NO_ISLAND, SleepAt(column0, s)))
    && (forall s :: s !in loci ==> (s in column <==> s in column0))
    && (forall s :: s !in loci && s in column0 ==> column[s] == column0[s])
  }

  /** Locus to island id. */
  method Assign(islands: seq<Island>) returns (homes: map<Sigil, nat>)
    requires Disjoint(islands)
    ensures Homed(islands, homes)
  {
    homes := map[];
    for k := 0 to |islands|
      invariant forall s :: s in homes <==> exists i :: 0 <= i < k && s in islands[i].members
      invariant forall i, s :: 0 <= i < k && s in islands[i].members ==> s in homes && homes[s] == islands[i].id
    {
      homes := AssignOne(islands[k], homes);
    }
  }

  /** The write pass. */
  method WriteIslands(loci: seq<Sigil>, homes: map<Sigil, nat>, column0: IslandColumn) returns (column: IslandColumn)
    ensures Written(loci, homes, column0, column)
  {
    column := column0;
    for k := 0 to |loci|
      invariant forall s :: s in loci[..k] ==>
        s in column && column[s] == (if s in homes then homes[s] else NO_ISLAND, SleepAt(column0, s))
      invariant forall s :: s !in loci[..k] ==> (s in column <==> s in column0)
      invariant forall s :: s !in loci[..k] && s in column0 ==> column[s] == column0[s]
    {
      var s := loci[k];
      assert loci[..k + 1] == loci[..k] + [s];
      column := column[s := (if s in homes then homes[s] else NO_ISLAND, SleepAt(column0, s))];
    }
    assert loci[..|loci|] == loci;
  }

  /** `p` is the partition of the view under the program's caps. */
  ghost predicate Whole(v: View, p: Islands) {
    IsPartition(SceneOf(v), MAX_ISLANDS, MAX_ISLAND_SIZE, p)
  }

  /** One reject for each way of being left out that occurred, however many components it took. */
  function RejectsOf(p: Islands): seq<PartitionReject> {
    (if p.omittedTooLarge > 0 then [TooLarge] else []) + (if p.omittedTooMany > 0 then [TooMany] else [])
  }

  ghost predicate Reports(p: Islands, islands: seq<Island>, rejects: seq<PartitionReject>) {
    p.islands == islands && rejects == RejectsOf(p)
  }

  /** `partition_islands` and `CommitKernel::partition`: what is returned is what the column then says,
      island by island and locus by locus. */
  method Repartition(v: View, column0: IslandColumn)
    returns (islands: seq<Island>, column: IslandColumn, rejects: seq<PartitionReject>)
    requires NoDuplicates(v.loci) && |v.loci| <= Forest.MAX_NODES && Reads(v, column0)
    ensures exists p :: Whole(v, p) && Reports(p, islands, rejects)
    ensures forall i :: 0 <= i < |islands| ==> GoodIsland(v, islands[i], i)
    ensures forall i :: 0 <= i < |islands| ==>
      Ascending(Labeled(Elements(v.loci), column, i)) == islands[i].members
    ensures forall s :: s in v.loci ==> s in column && column[s].1 == SleepAt(column0, s)
    ensures forall s :: s in v.loci && (forall i :: 0 <= i < |islands| ==> s !in islands[i].members) ==>
      column[s].0 == NO_ISLAND
  {
    hide IsPartition, SceneOf, GoodIsland, Homed, Written, Labeled, Disjoint;
    var p := PartitionRun.PartitionWithCaps(v, MAX_ISLANDS, MAX_ISLAND_SIZE);
    islands := p.islands;
    rejects := [];
    if p.omittedTooLarge > 0 {
      rejects := rejects + [TooLarge];
    }
    if p.omittedTooMany > 0 {
      rejects := rejects + [TooMany];
    }
    assert Whole(v, p) && Reports(p, islands, rejects);
    IslandFacts(v, p);
    var homes := Assign(islands);
    column := WriteIslands(v.loci, homes, column0);
    forall i | 0 <= i < |islands|
      ensures Ascending(Labeled(Elements(v.loci), column, i)) == islands[i].members
    {
      LabeledIs(v, column0, column, islands, homes, i);
    }
    WrittenRows(v.loci, islands, homes, column0, column);
  }

  lemma WrittenRows(loci: seq<Sigil>, islands: seq<Island>, homes: map<Sigil, nat>, column0: IslandColumn,
                    column: IslandColumn)
    requires Homed(islands, homes) && Written(loci, homes, column0, column)
    ensures forall s :: s in loci ==> s in column && column[s].1 == SleepAt(column0, s)
    ensures forall s :: s in loci && (forall i :: 0 <= i < |islands| ==> s !in islands[i].members) ==>
      column[s].0 == NO_ISLAND
  {
  }

  ghost predicate GoodIsland(v: View, island: Island, i: nat) {
    && island.id == i && i < NO_ISLAND
    && island.members != [] && |island.members| <= MAX_ISLAND_SIZE && Increasing(island.members)
    && forall s :: s in island.members ==> s in v.loci
  }

  lemma IslandGood(v: View, p: Islands, i: nat)
    requires IsPartition(SceneOf(v), MAX_ISLANDS, MAX_ISLAND_SIZE, p) && i < |p.islands|
    ensures GoodIsland(v, p.islands[i], i)
  {
    hide IsPartition, SceneOf, Reached, Group;
    var members := p.islands[i].members;
    MembersExist(SceneOf(v), p, i);
    IslandIsGroup(SceneOf(v), MAX_ISLANDS, MAX_ISLAND_SIZE, p, i, members[0]);
    forall s | s in members
      ensures s in v.loci
    {
      IslandIsGroup(SceneOf(v), MAX_ISLANDS, MAX_ISLAND_SIZE, p, i, s);
      ReachedLoci(v, s);
    }
  }

  /** What the partition guarantees of its lists. */
  lemma IslandFacts(v: View, p: Islands)
    requires IsPartition(SceneOf(v), MAX_ISLANDS, MAX_ISLAND_SIZE, p)
    ensures Disjoint(p.islands)
    ensures forall i :: 0 <= i < |p.islands| ==> GoodIsland(v, p.islands[i], i)
  {
    hide IsPartition, SceneOf, GoodIsland;
    forall i, j, s | 0 <= i < j < |p.islands| && s in p.islands[i].members
      ensures s !in p.islands[j].members
    {
      if s in p.islands[j].members {
        IslandsDisjoint(SceneOf(v), MAX_ISLANDS, MAX_ISLAND_SIZE, p, i, j, s);
      }
    }
    forall i | 0 <= i < |p.islands|
      ensures GoodIsland(v, p.islands[i], i)
    {
      IslandGood(v, p, i);
    }
  }

  lemma MembersExist(c: Scene, p: Islands, i: nat)
    requires IsPartition(c, MAX_ISLANDS, MAX_ISLAND_SIZE, p) && i < |p.islands|
    ensures p.islands[i].members != []
  {
    hide SmallGroups, LargeGroups;
    var ok :| Ranking(ok, SmallGroups(c, MAX_ISLAND_SIZE)) && p.islands == Numbered(ok, MAX_ISLANDS);
    assert p.islands[i].members == ok[i];
  }

  lemma ReachedLoci(v: View, s: Sigil)
    requires s in Reached(SceneOf(v))
    ensures s in v.loci
  {
    ReachedFacts(SceneOf(v));
  }

  /** A homed locus has the id of the island it is on. */
  lemma HomeIs(v: View, islands: seq<Island>, homes: map<Sigil, nat>, s: Sigil)
    requires Homed(islands, homes) && forall k :: 0 <= k < |islands| ==> GoodIsland(v, islands[k], k)
    ensures s in homes ==> homes[s] < |islands| && s in islands[homes[s]].members && homes[s] < NO_ISLAND
  {
    if s in homes {
      var k :| 0 <= k < |islands| && s in islands[k].members;
      assert GoodIsland(v, islands[k], k);
    }
  }

  lemma LabeledIs(v: View, column0: IslandColumn, column: IslandColumn, islands: seq<Island>, homes: map<Sigil, nat>, i: nat)
    requires i < |islands| && forall k :: 0 <= k < |islands| ==> GoodIsland(v, islands[k], k)
    requires Homed(islands, homes) && Written(v.loci, homes, column0, column)
    ensures Ascending(Labeled(Elements(v.loci), column, i)) == islands[i].members
  {
    hide Homed, Written, GoodIsland, Ascending, Labeled, SleepAt;
    var members := islands[i].members;
    var labeled := Labeled(Elements(v.loci), column, i);
    forall s
      ensures s in labeled <==> s in members
    {
      HomeIs(v, islands, homes, s);
      LabeledAt(v, column0, column, islands, homes, i, s);
    }
    assert Elements(members) == labeled;
    GoodMeans(v, islands[i], i);
    IncreasingUnique(Ascending(labeled), members);
  }

  lemma GoodMeans(v: View, island: Island, i: nat)
    requires GoodIsland(v, island, i)
    ensures Increasing(island.members)
  {
  }

  lemma LabeledAt(v: View, column0: IslandColumn, column: IslandColumn, islands: seq<Island>, homes: map<Sigil, nat>,
                  i: nat, s: Sigil)
    requires i < |islands| && GoodIsland(v, islands[i], i)
    requires Homed(islands, homes) && Written(v.loci, homes, column0, column)
    requires s in homes ==> homes[s] < |islands| && s in islands[homes[s]].members && homes[s] < NO_ISLAND
    ensures s in Labeled(Elements(v.loci), column, i) <==> s in islands[i].members
  {
    hide Increasing;
  }

  // ---------------------------------------------------------------------------------------------
  // The check a physical proposal faces.

  /** The header checks on an island id and its member list. */
  predicate MembersAccepted(loci: set<Sigil>, column: IslandColumn, island: nat, members: seq<Sigil>) {
    && |members| <= MAX_PHYS_ISLAND_MEMBERS
    && island != NO_ISLAND && members != []
    && Increasing(members)
    && Ascending(Labeled(loci, column, island)) == members
  }

  /** A proposal that names a list the kernel returned passes the check while the column stands. */
  lemma ReturnedListPasses(v: View, p: Islands, column: IslandColumn, i: nat)
    requires Whole(v, p) && i < |p.islands|
    requires Ascending(Labeled(Elements(v.loci), column, i)) == p.islands[i].members
    ensures MembersAccepted(Elements(v.loci), column, p.islands[i].id, p.islands[i].members)
  {
    hide IsPartition;
    IslandGood(v, p, i);
  }

  /** And only such a list: what passes is, for its id, the one list of all loci the column puts there. */
  lemma PassedListIsUnique(loci: set<Sigil>, column: IslandColumn, island: nat, a: seq<Sigil>, b: seq<Sigil>)
    requires MembersAccepted(loci, column, island, a) && MembersAccepted(loci, column, island, b)
    ensures a == b && forall s :: s in a <==> s in loci && s in column && column[s].0 == island
  {
    forall s
      ensures s in a <==> s in Labeled(loci, column, island)
    {
      assert s in a <==> s in Elements(a);
    }
  }
}
