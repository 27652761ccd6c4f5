/** The kernel as it runs: a queue of proposals, a world that it alone publishes to, and one tick over both,
    with its partition pass. */
module CommitKernel {
  import opened Prelude
  import opened World
  import opened Sorting
  import opened Proposals
  import opened Admission
  import opened Kernel
  import Laws
  import Membership
  import Partition
  import RiteDrive

  /** The tick after `dt` more, at least one. */
  function NextTick(now: Tick, dt: nat): Tick { Min(now + Max(dt, 1), U64_MAX) }

  class CommitKernel {
    const rules: Rules
    var live: Live
    var heap: seq<Item>
    var partitionRejects: seq<Reject>

    constructor (r: Rules, world: Live)
      ensures rules == r && live == world && heap == [] && partitionRejects == []
    {
      rules, live, heap, partitionRejects := r, world, [], [];
    }

    method Ingest(p: Proposal, reg: nat)
      modifies this
      ensures heap == old(heap) + [Item(p, reg)]
      ensures live == old(live) && partitionRejects == old(partitionRejects)
    {
      heap := heap + [Item(p, reg)];
    }

    /** The delta a proposal would publish, on a private copy: the live world is not in the frame. */
    method Speculate(p: Proposal, e: Entry, riteSteps0: nat, predOps0: nat)
      returns (result: Result<Spec, RejectReason>, riteSteps: nat, predOps: nat)
      requires !p.PhysIsland?
      ensures var d := Admission.Speculate(rules, p, e, Ledger(live, {}, riteSteps0, predOps0));
        result == d.result && riteSteps == d.riteSteps && predOps == d.predOps
    {
      hide RiteDrive.Drive;
      riteSteps, predOps := riteSteps0, predOps0;
      if p.SpaceDelta? || p.MotionDelta? {
        result := FromOption(MoveSpec(live, p.move), Budget);
      } else if p.Residency? {
        result := FromOption(rules.placed(live, p), ResidencyFault);
      } else {
        var spec := new SpecDelta(live.proj, live.tick);
        var r;
        r, riteSteps, predOps := RiteDrive.DriveRite(rules.book, RequestOf(e), spec, riteSteps, predOps);
        result := if r.Err? then Err(r.error) else Ok(Spec(spec.proj, spec.events, spec.written, spec.tick));
      }
    }

    /** Replace the projection, append the events, charge the cells. */
    method Commit(spec: Spec, cells: set<Cell>, written0: set<Cell>) returns (written: set<Cell>)
      modifies this`live
      ensures live == Publish(old(live), spec) && written == written0 + cells
    {
      live := live.(proj := spec.proj, trace := live.trace + spec.events);
      written := written0 + cells;
    }

    /** `admit_one` for everything but physical islands. */
    method AdmitGrain(b: Budgets, p: Proposal, riteSteps0: nat, predOps0: nat, written0: set<Cell>)
      returns (r: Outcome, riteSteps: nat, predOps: nat, written: set<Cell>)
      requires !p.PhysIsland?
      modifies this`live
      ensures (r, Ledger(live, written, riteSteps, predOps))
        == Admission.AdmitGrain(rules, b, p, Ledger(old(live), written0, riteSteps0, predOps0))
    {
      hide Preflight, Aim, WriteCells, Admission.Speculate, Laws.AdmitAll, LawCase;
      riteSteps, predOps, written := riteSteps0, predOps0, written0;
      var entry := Preflight(rules, b, live, p);
      if entry.Err? {
        return Err(entry.error), riteSteps, predOps, written;
      }
      var aimed := Aim(rules, b, live, p, entry.value);
      if aimed.Err? {
        return Err(aimed.error), riteSteps, predOps, written;
      }
      var e := aimed.value;
      var cells := WriteCells(p, e.actor, live.proj);
      if exists c :: c in cells && c in written {
        Overlap(cells, written);
        return Err(Conflict), riteSteps, predOps, written;
      }
      NoOverlap(cells, written);
      SpeculateLedger(rules, p, e, live, written0, riteSteps, predOps);
      var spec;
      spec, riteSteps, predOps := Speculate(p, e, riteSteps, predOps);
      if spec.Err? {
        return Err(spec.error), riteSteps, predOps, written;
      }
      var ok;
      ok, predOps := Laws.CheckLaws(LawCase(rules, e, spec.value), rules.laws, predOps);
      if ok.Err? {
        return Err(ok.error), riteSteps, predOps, written;
      }
      written := Commit(spec.value, cells, written);
      r := Ok(Grant(cells, spec.value));
    }

    /** `admit_phys_island`. */
    method AdmitPhys(p: Proposal, riteSteps0: nat, predOps0: nat, written0: set<Cell>)
      returns (r: Outcome, riteSteps: nat, predOps: nat, written: set<Cell>)
      requires p.PhysIsland?
      modifies this`live
      ensures (r, Ledger(live, written, riteSteps, predOps))
        == Admission.AdmitPhys(rules, p, Ledger(old(live), written0, riteSteps0, predOps0))
    {
      hide ValidatePhys, PhysCells, WindowCells, WrittenCells, LociOf, BodyCases, Laws.AdmitDocket, Laws.PhysDocket;
      riteSteps, predOps, written := riteSteps0, predOps0, written0;
      var invalid := ValidatePhys(rules, live, p);
      if invalid.Some? {
        return Err(invalid.value), riteSteps, predOps, written;
      }
      var declared := PhysCells(live.proj, p);
      if declared.Err? {
        return Err(declared.error), riteSteps, predOps, written;
      }
      if declared.value * written != {} {
        return Err(Conflict), riteSteps, predOps, written;
      }
      var contact := rules.contacts(live, p);
      if contact.Some? {
        return Err(contact.value), riteSteps, predOps, written;
      }
      var cells := declared.value + WindowCells(rules, live, p);
      if cells * written != {} {
        return Err(Conflict), riteSteps, predOps, written;
      }
      var posed := rules.solve(live, p);
      if posed.Err? {
        return Err(posed.error), riteSteps, predOps, written;
      }
      var windowed := rules.windows(live, p, posed.value.spec, riteSteps, predOps);
      riteSteps, predOps := Spend(riteSteps, windowed.steps), Spend(predOps, windowed.ops);
      if windowed.result.Err? {
        return Err(windowed.result.error), riteSteps, predOps, written;
      }
      var spec, ok := windowed.result.value, Ok(());
      ok, predOps := Laws.CheckPhysLaws(rules.laws, BodyCases(rules, p.bodies, posed.value, spec), predOps);
      if ok.Err? {
        return Err(ok.error), riteSteps, predOps, written;
      }
      cells := cells + WrittenCells(rules, live, p, spec);
      if |LociOf(cells)| > MAX_PHYS_ISLAND_WRITE_LOCI {
        return Err(IslandTooLarge), riteSteps, predOps, written;
      }
      if cells * written != {} {
        return Err(Conflict), riteSteps, predOps, written;
      }
      written := Commit(spec, cells, written);
      r := Ok(Grant(cells, spec));
    }

    method AdmitOne(b: Budgets, p: Proposal, riteSteps0: nat, predOps0: nat, written0: set<Cell>)
      returns (r: Outcome, riteSteps: nat, predOps: nat, written: set<Cell>)
      modifies this`live
      ensures (r, Ledger(live, written, riteSteps, predOps))
        == Admission.AdmitOne(rules, b, p, Ledger(old(live), written0, riteSteps0, predOps0))
    {
      hide Admission.AdmitPhys, Admission.AdmitGrain;
      if p.PhysIsland? {
        r, riteSteps, predOps, written := AdmitPhys(p, riteSteps0, predOps0, written0);
      } else {
        r, riteSteps, predOps, written := AdmitGrain(b, p, riteSteps0, predOps0, written0);
      }
    }

    /** The loop of `step` over a sorted batch. */
    method Pass(b: Budgets, batch: seq<Item>, rejects0: seq<Reject>)
      returns (events: seq<Event>, rejects: seq<Reject>)
      modifies this`live
      ensures var t := Run(rules, b, batch, Tally(Ledger(old(live), {}, b.riteSteps, b.predOps), [], rejects0, []));
        live == t.ledger.live && events == t.events && rejects == t.rejects
    {
      hide Admission.AdmitOne, Conflicts, Uniform, ClassLength;
      ghost var start := Tally(Ledger(live, {}, b.riteSteps, b.predOps), [], rejects0, []);
      ghost var log: seq<Entered> := [];
      var written: set<Cell> := {};
      var riteSteps, predOps := b.riteSteps, b.predOps;
      events, rejects := [], rejects0;
      var rest := batch;
      while rest != []
        invariant Run(rules, b, rest, Tally(Ledger(live, written, riteSteps, predOps), events, rejects, log))
          == Run(rules, b, batch, start)
        decreases |rest|
      {
        var n := ClassLength(rest);
        var cls := rest[..n];
        ghost var t := Tally(Ledger(live, written, riteSteps, predOps), events, rejects, log);
        assert Run(rules, b, rest, t) == Run(rules, b, rest[n..], Process(rules, b, cls, t));
        rest := rest[n..];
        if !Uniform(cls) {
          rejects := rejects + Conflicts(cls);
          continue;
        }
        var r;
        r, riteSteps, predOps, written := AdmitOne(b, cls[0].p, riteSteps, predOps, written);
        match r {
          case Ok(g) =>
            events := events + g.spec.events;
            log := log + [Entered(cls[0], g)];
          case Err(e) =>
            rejects := rejects + [(KindOf(cls[0].p), e)];
        }
      }
    }

    /** One tick.  Queued proposals and those of the synchronous proposers are admitted in key order;
        pending partition rejects come first. */
    method Step(dt: nat, b: Budgets, sync: seq<Item>) returns (events: seq<Event>, rejects: seq<Reject>)
      modifies this
      ensures var now := old(live).(tick := NextTick(old(live).tick, dt));
        var t := Admitted(rules, b, old(heap) + sync,
                          Tally(Ledger(now, {}, b.riteSteps, b.predOps), [], old(partitionRejects), []));
        live == t.ledger.live && events == t.events && rejects == t.rejects
      ensures heap == [] && partitionRejects == []
    {
      hide Run, Sort;
      live := live.(tick := NextTick(live.tick, dt));
      var batch := heap + sync;
      heap := [];
      var pending := partitionRejects;
      partitionRejects := [];
      events, rejects := Pass(b, Sort(batch, Before), pending);
    }

    /** Rewrite this tick's island column from the live view; remember what was left out. */
    method PartitionIslands(v: Partition.View) returns (islands: seq<Partition.Island>)
      requires NoDuplicates(v.loci) && |v.loci| <= Membership.Forest.MAX_NODES
      requires Elements(v.loci) == live.proj.loci && Membership.Reads(v, live.proj.island)
      modifies this
      ensures live == old(live).(proj := old(live).proj.(island := live.proj.island)) && heap == old(heap)
      ensures exists p :: Membership.Whole(v, p) && p.islands == islands && partitionRejects == OmissionRejects(p)
      ensures forall i :: 0 <= i < |islands| ==>
        Membership.MembersAccepted(live.proj.loci, live.proj.island, islands[i].id, islands[i].members)
    {
      hide Membership.Whole, Membership.MembersAccepted, Membership.Reads;
      var column, left;
      islands, column, left := Membership.Repartition(v, live.proj.island);
      ghost var p :| Membership.Whole(v, p) && Membership.Reports(p, islands, left);
      forall i | 0 <= i < |islands|
        ensures Membership.MembersAccepted(Elements(v.loci), column, islands[i].id, islands[i].members)
      {
        Membership.ReturnedListPasses(v, p, column, i);
      }
      partitionRejects := (if Membership.TooLarge in left then [(PhysKind, IslandTooLarge)] else [])
        + (if Membership.TooMany in left then [(PhysKind, TooManyIslands)] else []);
      live := live.(proj := live.proj.(island := column));
      assert partitionRejects == OmissionRejects(p);
    }
  }

  /** The rejects a partition leaves for the next tick. */
  function OmissionRejects(p: Partition.Islands): seq<Reject> {
    (if p.omittedTooLarge > 0 then [(PhysKind, IslandTooLarge)] else [])
    + (if p.omittedTooMany > 0 then [(PhysKind, TooManyIslands)] else [])
  }

  lemma Overlap(a: set<Cell>, b: set<Cell>)
    requires exists c :: c in a && c in b
    ensures a * b != {}
  {
    var c :| c in a && c in b;
    assert c in a * b;
  }

  lemma NoOverlap(a: set<Cell>, b: set<Cell>)
    requires !exists c :: c in a && c in b
    ensures a * b == {}
  {
  }

  /** Speculation does not look at the ledger of cells. */
  lemma SpeculateLedger(r: Rules, p: Proposal, e: Entry, live: Live, written: set<Cell>, steps: nat, ops: nat)
    requires !p.PhysIsland?
    ensures Admission.Speculate(r, p, e, Ledger(live, written, steps, ops))
      == Admission.Speculate(r, p, e, Ledger(live, {}, steps, ops))
  {
    hide RiteDrive.Drive, MoveSpec;
  }
}
