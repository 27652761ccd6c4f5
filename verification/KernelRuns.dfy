/** Whole runs of the kernel. */
module KernelRuns {
  // Tick after tick, with the island column rewritten in between.

  import opened Prelude
  import opened World
  import opened Proposals
  import opened Admission
  import opened Kernel
  import opened RiteDrive
  import opened Sorting
  import CommitKernel

  /** What one tick is given: time, budgets, the queue, and what the partition left behind. */
  datatype Input = Input(dt: nat, budgets: Budgets, batch: seq<Item>, homes: map<Sigil, (nat, nat)>, pending: seq<Reject>)

  function Opening(live: Live, i: Input): Live {
    live.(tick := CommitKernel.NextTick(live.tick, i.dt), proj := live.proj.(island := i.homes))
  }

  function Start(live: Live, i: Input): Tally {
    Tally(Ledger(Opening(live, i), {}, i.budgets.riteSteps, i.budgets.predOps), [], i.pending, [])
  }

  function TickOf(r: Rules, live: Live, i: Input): Tally { Admitted(r, i.budgets, i.batch, Start(live, i)) }

  /** The world after a run. */
  function After(r: Rules, live: Live, run: seq<Input>): Live {
    if run == [] then live else TickOf(r, After(r, live, run[..|run| - 1]), run[|run| - 1]).ledger.live
  }

  /** The events the ticks of a run returned, in order. */
  function Published(r: Rules, live: Live, run: seq<Input>): seq<Event> {
    if run == [] then []
    else
      Published(r, live, run[..|run| - 1]) + TickOf(r, After(r, live, run[..|run| - 1]), run[|run| - 1]).events
  }

  // ---------------------------------------------------------------------------------------------
  // The trace.

  lemma {:induction false} ReplayedTrace(live: Live, log: seq<Entered>)
    ensures Replayed(live, log).trace == live.trace + EventsOf(log)
    ensures Replayed(live, log).tick == live.tick
  {
    if log != [] {
      ReplayedTrace(live, log[..|log| - 1]);
    } else {
      assert live.trace + [] == live.trace;
    }
  }

  /** The trace is only ever appended to, and holds exactly the events the ticks returned. */
  lemma {:induction false} TraceIsPublished(r: Rules, live: Live, run: seq<Input>)
    ensures After(r, live, run).trace == live.trace + Published(r, live, run)
  {
    hide Admitted, Replayed, EventsOf;
    if run == [] {
      assert live.trace + [] == live.trace;
    } else {
      var init, i := run[..|run| - 1], run[|run| - 1];
      var w := After(r, live, init);
      TraceIsPublished(r, live, init);
      TickBalanced(r, i.budgets, i.batch, Start(w, i).ledger, i.pending);
      ReplayedTrace(Opening(w, i), TickOf(r, w, i).log);
    }
  }

  /** Time never runs back, and moves on in every tick until the counter is full. */
  lemma {:induction false} TimeMovesOn(r: Rules, live: Live, run: seq<Input>)
    requires live.tick + |run| <= U64_MAX
    ensures live.tick + |run| <= After(r, live, run).tick
  {
    hide Admitted, Replayed, EventsOf;
    if run != [] {
      var init, i := run[..|run| - 1], run[|run| - 1];
      var w := After(r, live, init);
      TimeMovesOn(r, live, init);
      TickBalanced(r, i.budgets, i.batch, Start(w, i).ledger, i.pending);
      ReplayedTrace(Opening(w, i), TickOf(r, w, i).log);
    }
  }

  // ---------------------------------------------------------------------------------------------
  // Machine rows.

  /** The parts of admission that are not modelled further, residency, the solver and the motion windows, do not
      corrupt the machine rows. */
  ghost predicate Behaves(r: Rules) {
    && (forall live: Live, p: Proposal :: RowsOk(r.book, live.proj) && r.placed(live, p).Some? ==>
          RowsOk(r.book, r.placed(live, p).value.proj))
    && (forall live: Live, p: Proposal :: RowsOk(r.book, live.proj) && r.solve(live, p).Ok? ==>
          RowsOk(r.book, r.solve(live, p).value.spec.proj))
    && (forall live: Live, p: Proposal, s: Spec, steps: nat, ops: nat ::
          RowsOk(r.book, s.proj) && r.windows(live, p, s, steps, ops).result.Ok? ==>
            RowsOk(r.book, r.windows(live, p, s, steps, ops).result.value.proj))
  }

  lemma SameRitesOk(b: Book, p: Proj, q: Proj)
    requires RowsOk(b, p) && q.loci == p.loci && q.rites == p.rites
    ensures RowsOk(b, q)
  {
    forall actor: Sigil, id: nat
      ensures RowOk(b, q, actor, id)
    {
      assert RowOk(b, p, actor, id);
    }
  }

  lemma MoveKeepsRows(b: Book, live: Live, m: Move)
    requires RowsOk(b, live.proj)
    ensures MoveSpec(live, m).Some? ==> RowsOk(b, MoveSpec(live, m).value.proj)
  {
    if MoveSpec(live, m).Some? {
      SameRitesOk(b, live.proj, MoveSpec(live, m).value.proj);
    }
  }

  lemma SpeculateKeepsRows(r: Rules, p: Proposal, e: Entry, s: Ledger)
    requires !p.PhysIsland? && Checked(r.book) && Behaves(r) && RowsOk(r.book, s.live.proj)
    ensures var d := Speculate(r, p, e, s); d.result.Ok? ==> RowsOk(r.book, d.result.value.proj)
  {
    hide RowsOk, Checked, Drive, PlanOf, MoveSpec, PlanBurst;
    if p.SpaceDelta? || p.MotionDelta? {
      MoveKeepsRows(r.book, s.live, p.move);
    } else if !p.Residency? {
      DriveKeepsRows(r.book, RequestOf(e), Begin(s.live), s.riteSteps, s.predOps);
    }
  }

  lemma AdmitKeepsRows(r: Rules, b: Budgets, p: Proposal, s: Ledger)
    requires Checked(r.book) && Behaves(r) && RowsOk(r.book, s.live.proj)
    ensures RowsOk(r.book, AdmitOne(r, b, p, s).1.live.proj)
  {
    hide RowsOk, Checked, Speculate, Preflight, Aim, ValidatePhys, PhysCells, WindowCells, WrittenCells, WriteCells,
         LociOf, PhysLaws;
    if !p.PhysIsland? {
      var pre := Preflight(r, b, s.live, p);
      if pre.Ok? && Aim(r, b, s.live, p, pre.value).Ok? {
        SpeculateKeepsRows(r, p, Aim(r, b, s.live, p, pre.value).value, s);
      }
    }
  }

  lemma {:induction false} PassKeepsRows(r: Rules, b: Budgets, s: seq<Item>, t: Tally)
    requires Checked(r.book) && Behaves(r) && RowsOk(r.book, t.ledger.live.proj)
    ensures RowsOk(r.book, Run(r, b, s, t).ledger.live.proj)
    decreases |s|
  {
    hide RowsOk, Checked, Behaves, AdmitOne, ClassLength, Uniform, Conflicts;
    if s != [] {
      var n := ClassLength(s);
      AdmitKeepsRows(r, b, s[0].p, t.ledger);
      assert s[..n][0] == s[0];
      PassKeepsRows(r, b, s[n..], Process(r, b, s[..n], t));
    }
  }

  /** In a run of any length, with any queues and budgets, every machine row resumes inside its own rite. */
  lemma {:induction false} RowsStayOk(r: Rules, live: Live, run: seq<Input>)
    requires Checked(r.book) && Behaves(r) && RowsOk(r.book, live.proj)
    ensures RowsOk(r.book, After(r, live, run).proj)
  {
    hide RowsOk, Checked, Behaves, Run, Sort;
    if run != [] {
      var init, i := run[..|run| - 1], run[|run| - 1];
      var w := After(r, live, init);
      RowsStayOk(r, live, init);
      SameRitesOk(r.book, w.proj, Opening(w, i).proj);
      PassKeepsRows(r, i.budgets, Sort(i.batch, Before), Start(w, i));
    }
  }

  /** No rite is ever lost: at any point of any tick of any run, whatever was admitted so far, no burst that a
      request runs, its own or what a hit sets off, is rejected for a missing instruction or successor. */
  lemma NeverLost(r: Rules, live: Live, run: seq<Input>, i: Input, done: seq<Item>, q: Request, steps: nat, ops: nat)
    requires Checked(r.book) && Behaves(r) && RowsOk(r.book, live.proj)
    ensures var w := Run(r, i.budgets, done, Start(After(r, live, run), i)).ledger.live;
      forall o :: o in Drive(r.book, q, Begin(w), steps, ops).bursts ==> Found(o)
  {
    hide RowsOk, Checked, Behaves, Run, Drive;
    var w := After(r, live, run);
    RowsStayOk(r, live, run);
    SameRitesOk(r.book, w.proj, Opening(w, i).proj);
    PassKeepsRows(r, i.budgets, done, Start(w, i));
    DriveKeepsRows(r.book, q, Begin(Run(r, i.budgets, done, Start(w, i)).ledger.live), steps, ops);
  }

  // ---------------------------------------------------------------------------------------------
  // Every tick of every run.

  /** Whatever happened before: in the next tick no two admissions share a write cell, the ledger holds
      exactly their cells, the world is the old one with their deltas in order, and every item of the queue
      is admitted, rejected or a collapsed retry. */
  lemma EveryTickBalanced(r: Rules, live: Live, run: seq<Input>, i: Input)
    ensures var w := After(r, live, run);
      var t := TickOf(r, w, i);
      && CellsDisjoint(t.log) && t.ledger.written == Charged(t.log)
      && t.ledger.live == Replayed(Opening(w, i), t.log) && t.events == EventsOf(t.log)
      && |t.log| + (|t.rejects| - |i.pending|) + Collapsed(Sort(i.batch, Before)) == |i.batch|
  {
    hide Run, Replayed, Charged, CellsDisjoint, EventsOf, Collapsed;
    var w := After(r, live, run);
    TickBalanced(r, i.budgets, i.batch, Start(w, i).ledger, i.pending);
    EveryItemCounted(r, i.budgets, Sort(i.batch, Before), Start(w, i));
    var t := TickOf(r, w, i);
    assert t.ledger.written == {} + Charged(t.log);
  }
}
