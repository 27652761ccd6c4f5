/** What a checked rite cannot do. */
module RiteSafety {
  // In one burst, from any of its pcs, and over its whole life.

  import opened Prelude
  import opened Links
  import opened Rites
  import opened World
  import opened RiteVm

  lemma WalkPrepend(edges: Edges, pc: Pc, w: seq<Pc>)
    requires Walk(edges, w) && (pc, w[0]) in edges
    ensures Walk(edges, [pc] + w)
  {
    var v := [pc] + w;
    forall i | 0 <= i < |v| - 1
      ensures (v[i], v[i + 1]) in edges
    {
      if i > 0 {
        assert v[i] == w[i - 1] && v[i + 1] == w[i];
      }
    }
  }

  /** The pc control is at when the outcome is not an end: where a wait resumes. */
  function Resume(c: Call, o: Outcome): Option<Pc> {
    match RiteRow(o.spec.proj, c.actor, c.rite.id)
    case None => None
    case Some(row) => Some(row.pc)
  }

  /** A burst of a sound rite follows its control flow: the pcs executed, and the pc it stops before,
      form one walk. */
  ghost predicate Follows(c: Call, pc: Pc, o: Outcome, fuel: nat) {
    var flow := Flow(c.rite.instrs);
    && |o.trace| <= fuel
    && (o.trace != [] ==> o.trace[0] == pc && Walk(flow, o.trace))
    && (forall q :: q in o.trace ==> q in Pcs(c.rite.instrs))
    && (o.end.Rejected? ==> o.end.cause != NoInstr && o.end.cause != NoNext)
    && (o.end.OutOfSteps? ==> |o.trace| == fuel)
    && (o.end.OutOfSteps? ==>
          exists q :: q in Pcs(c.rite.instrs) && Walk(flow, o.trace + [q]) && (o.trace + [q])[0] == pc)
    && (o.end.Waiting? ==> o.trace != [] && Resume(c, o).Some?)
    && (o.end.Waiting? ==>
          Resume(c, o).value in Pcs(c.rite.instrs) && Walk(flow, o.trace + [Resume(c, o).value]))
  }

  /** The instruction at `pc` and where it may go. */
  lemma StepFlow(instrs: seq<Instr>, pc: Pc)
    requires NoDuplicates(Pcs(instrs)) && Lands(instrs) && pc in Pcs(instrs)
    ensures OpAt(instrs, pc).Some?
    ensures var op, next := OpAt(instrs, pc).value, NextPc(Pcs(instrs), pc);
      && (FallsThrough(op) ==> next.Some?)
      && (forall q :: q in Jumps(op) || (FallsThrough(op) && next == Some(q)) ==>
            (pc, q) in Flow(instrs) && q in Pcs(instrs))
  {
    var i :| 0 <= i < |instrs| && Pcs(instrs)[i] == pc;
    Located(instrs, i);
    forall q | q in Jumps(instrs[i].op)
      ensures (pc, q) in Flow(instrs)
    {
      assert (pc, q) == (instrs[i].pc, q);
    }
    if i + 1 < |instrs| && FallsThrough(instrs[i].op) {
      assert (instrs[i].pc, instrs[i + 1].pc) in Flow(instrs);
    }
  }

  lemma FollowsOne(c: Call, pc: Pc, o: Outcome, fuel: nat)
    requires fuel > 0 && o.trace == [pc] && pc in Pcs(c.rite.instrs)
    requires o.end.Done? || (o.end.Rejected? && o.end.cause != NoInstr && o.end.cause != NoNext)
    ensures Follows(c, pc, o, fuel)
  {
  }

  lemma FollowsWait(c: Call, pc: Pc, o: Outcome, fuel: nat)
    requires fuel > 0 && o.trace == [pc] && pc in Pcs(c.rite.instrs) && o.end.Waiting?
    requires Resume(c, o).Some? && Resume(c, o).value in Pcs(c.rite.instrs)
    requires (pc, Resume(c, o).value) in Flow(c.rite.instrs)
    ensures Follows(c, pc, o, fuel)
  {
    hide Resume, Flow;
  }

  lemma FollowsPrepend(c: Call, pc: Pc, q: Pc, o: Outcome, fuel: nat)
    requires Follows(c, q, o, fuel) && (pc, q) in Flow(c.rite.instrs) && pc in Pcs(c.rite.instrs)
    requires q in Pcs(c.rite.instrs)
    ensures Follows(c, pc, Prepend(pc, o), fuel + 1)
  {
    hide Resume, Flow;
    var flow := Flow(c.rite.instrs);
    if o.trace != [] {
      WalkPrepend(flow, pc, o.trace);
    }
    if o.end.OutOfSteps? {
      var x :| x in Pcs(c.rite.instrs) && Walk(flow, o.trace + [x]) && (o.trace + [x])[0] == q;
      WalkPrepend(flow, pc, o.trace + [x]);
      assert [pc] + (o.trace + [x]) == Prepend(pc, o).trace + [x];
    }
    if o.end.Waiting? {
      var x := Resume(c, o).value;
      ResumeSame(c, pc, o);
      WalkPrepend(flow, pc, o.trace + [x]);
      assert [pc] + (o.trace + [x]) == Prepend(pc, o).trace + [x];
    }
  }

  lemma ResumeSame(c: Call, pc: Pc, o: Outcome)
    ensures Resume(c, Prepend(pc, o)) == Resume(c, o)
  {
  }

  lemma OutOfFuel(c: Call, pc: Pc, o: Outcome)
    requires o.end.OutOfSteps? && o.trace == [] && pc in Pcs(c.rite.instrs)
    ensures Follows(c, pc, o, 0)
  {
    assert o.trace + [pc] == [pc];
    assert Walk(Flow(c.rite.instrs), o.trace + [pc]);
  }

  lemma {:induction false} BurstFollows(c: Call, pc: Pc, target: Option<Sigil>, spec: Spec, fuel: nat, predOps: nat)
    requires NoDuplicates(Pcs(c.rite.instrs)) && Lands(c.rite.instrs) && pc in Pcs(c.rite.instrs)
    requires c.actor in spec.proj.loci
    ensures Follows(c, pc, Burst(c, pc, target, spec, fuel, predOps), fuel)
    ensures var o := Burst(c, pc, target, spec, fuel, predOps);
      !o.end.Rejected? ==> Keeps(c, spec, o.spec)
    decreases fuel
  {
    hide Follows, Exec, Keeps, Lands, Flow, OpAt, NextPc, Resume, Finish, Jumps, FallsThrough;
    var o := Burst(c, pc, target, spec, fuel, predOps);
    if fuel == 0 {
      OutOfFuel(c, pc, o);
      FinishKeeps(c, FailBudget, spec);
    } else {
      StepFlow(c.rite.instrs, pc);
      var op, next := OpAt(c.rite.instrs, pc).value, NextPc(Pcs(c.rite.instrs), pc);
      var (r, left) := Exec(c, op, pc, next, target, spec, predOps);
      ExecFlow(c, op, pc, next, target, spec, predOps);
      ExecKeeps(c, op, pc, next, target, spec, predOps);
      if r.Goto? {
        KeepsLoci(c, spec, r.spec);
        BurstFollows(c, r.pc, r.target, r.spec, fuel - 1, left);
        var rest := Burst(c, r.pc, r.target, r.spec, fuel - 1, left);
        FollowsPrepend(c, pc, r.pc, rest, fuel - 1);
        if !rest.end.Rejected? {
          KeepsTrans(c, spec, r.spec, rest.spec);
        }
      } else if r.Yielded? {
        WaitRow(c, op, pc, next, target, spec, predOps);
        WaitFalls(op, next);
        ResumeIs(c, o, next.value);
        FollowsWait(c, pc, o, fuel);
      } else {
        FollowsOne(c, pc, o, fuel);
      }
    }
  }

  lemma KeepsLoci(c: Call, x: Spec, y: Spec)
    requires Keeps(c, x, y)
    ensures x.proj.loci <= y.proj.loci
  {
  }

  lemma WaitFalls(op: RiteOp, next: Option<Pc>)
    requires op.Wait?
    ensures FallsThrough(op)
  {
  }

  lemma ResumeIs(c: Call, o: Outcome, q: Pc)
    requires RiteRow(o.spec.proj, c.actor, c.rite.id).Some?
    requires RiteRow(o.spec.proj, c.actor, c.rite.id).value.pc == q
    ensures Resume(c, o) == Some(q)
  {
  }

  lemma FinishKeeps(c: Call, status: RiteEnd, spec: Spec)
    ensures Keeps(c, spec, Finish(c, status, spec))
  {
    KeepsPush(c, spec, RiteEnded(c.actor, c.rite.id, status));
  }

  // ---------------------------------------------------------------------------------------------
  // Acyclic control flow.

  /** No walk through an acyclic graph comes back to a pc. */
  lemma WalkDistinct(edges: Edges, w: seq<Pc>)
    requires Acyclic(edges) && (w == [] || Walk(edges, w))
    ensures NoDuplicates(w)
  {
    forall i, j | 0 <= i < j < |w|
      ensures w[i] != w[j]
    {
      var tail := w[i + 1..j + 1];
      assert Walk(edges, tail) && tail[0] == w[i + 1] && tail[|tail| - 1] == w[j];
      assert (w[i], w[i + 1]) in edges;
    }
  }

  /** Distinct members of a list are no more than its length. */
  lemma DistinctWithin(w: seq<Pc>, order: seq<Pc>)
    requires NoDuplicates(w) && forall q :: q in w ==> q in order
    ensures |w| <= |order|
  {
    DistinctSize(w);
    assert Elements(w) <= Elements(order);
    ElementsAtMost(order);
    SubsetLe(Elements(w), Elements(order));
  }

  lemma {:induction false} ElementsAtMost<T>(s: seq<T>)
    ensures |Elements(s)| <= |s|
  {
    if s != [] {
      ElementsAtMost(s[1..]);
      assert Elements(s) == Elements(s[1..]) + {s[0]};
    }
  }

  /** One burst of a checked rite, from any of its pcs, in any world: no pc runs twice, no instruction or
      successor is missing, and a step budget of at least the instruction count never runs out. */
  lemma BurstSafe(c: Call, pc: Pc, target: Option<Sigil>, spec: Spec, fuel: nat, predOps: nat)
    requires Sound(c.rite.entry, c.rite.instrs) && pc in Pcs(c.rite.instrs) && c.actor in spec.proj.loci
    ensures var o := Burst(c, pc, target, spec, fuel, predOps);
      && NoDuplicates(o.trace) && |o.trace| <= |c.rite.instrs|
      && o.end != Rejected(NoInstr) && o.end != Rejected(NoNext)
      && (fuel >= |c.rite.instrs| ==> o.end != OutOfSteps)
      && (o.end.OutOfSteps? ==> |o.trace| == fuel)
      && (o.end.Waiting? ==> Resume(c, o).Some? && Resume(c, o).value in Pcs(c.rite.instrs))
  {
    var o := Burst(c, pc, target, spec, fuel, predOps);
    BurstFollows(c, pc, target, spec, fuel, predOps);
    hide Burst, Flow, Resume;
    WalkDistinct(Flow(c.rite.instrs), o.trace);
    DistinctWithin(o.trace, Pcs(c.rite.instrs));
    if o.end.OutOfSteps? {
      var q :| q in Pcs(c.rite.instrs) && Walk(Flow(c.rite.instrs), o.trace + [q]);
      WalkDistinct(Flow(c.rite.instrs), o.trace + [q]);
      DistinctWithin(o.trace + [q], Pcs(c.rite.instrs));
    }
  }

  // ---------------------------------------------------------------------------------------------
  // A whole life: a start, then one resume after every wait.

  /** One burst with everything about it: the world it ran in may differ arbitrarily from what the
      burst before left. */
  datatype Leg = Leg(call: Call, target: Option<Sigil>, spec: Spec, fuel: nat, predOps: nat)

  function LegRun(leg: Leg, pc: Pc): Outcome {
    Burst(leg.call, pc, leg.target, leg.spec, leg.fuel, leg.predOps)
  }

  /** `legs` is the history of one rite started at `pc`: every leg but the last waits, and the next
      resumes at the pc its machine row holds. */
  ghost predicate Life(rite: CookedRite, actor: Sigil, pc: Pc, legs: seq<Leg>)
    decreases |legs|
  {
    legs != [] ==>
      && legs[0].call.rite == rite && legs[0].call.actor == actor && actor in legs[0].spec.proj.loci
      && (|legs| > 1 ==>
            var o := LegRun(legs[0], pc);
            o.end.Waiting? && Resume(legs[0].call, o).Some?
            && Life(rite, actor, Resume(legs[0].call, o).value, legs[1..]))
  }

  /** Every pc executed over the life, in order. */
  ghost function LifeTrace(pc: Pc, legs: seq<Leg>): seq<Pc>
    decreases |legs|
  {
    if legs == [] then []
    else
      var o := LegRun(legs[0], pc);
      o.trace + if Resume(legs[0].call, o).Some? then LifeTrace(Resume(legs[0].call, o).value, legs[1..]) else []
  }

  lemma JoinWalks(edges: Edges, a: seq<Pc>, q: Pc, b: seq<Pc>)
    requires Walk(edges, a + [q])
    requires b != [] ==> Walk(edges, b) && b[0] == q
    ensures a + b != [] ==> Walk(edges, a + b)
  {
    var w := a + b;
    forall i | 0 <= i < |w| - 1
      ensures (w[i], w[i + 1]) in edges
    {
      if i < |a| {
        assert (a + [q])[i] == w[i] && (a + [q])[i + 1] == w[i + 1];
      } else {
        assert w[i] == b[i - |a|] && w[i + 1] == b[i + 1 - |a|];
      }
    }
  }

  /** The pcs of a whole life form one walk through the control flow. */
  lemma {:induction false} LifeWalks(rite: CookedRite, actor: Sigil, pc: Pc, legs: seq<Leg>)
    requires Sound(rite.entry, rite.instrs) && pc in Pcs(rite.instrs) && Life(rite, actor, pc, legs)
    requires |legs| > 0
    ensures var w := LifeTrace(pc, legs);
      && (w != [] ==> Walk(Flow(rite.instrs), w) && w[0] == pc)
      && (forall q :: q in w ==> q in Pcs(rite.instrs))
    decreases |legs|
  {
    var leg := legs[0];
    var o := LegRun(leg, pc);
    BurstFollows(leg.call, pc, leg.target, leg.spec, leg.fuel, leg.predOps);
    hide Burst, Flow, Resume;
    var flow := Flow(rite.instrs);
    if |legs| > 1 {
      var q := Resume(leg.call, o).value;
      LifeWalks(rite, actor, q, legs[1..]);
      JoinWalks(flow, o.trace, q, LifeTrace(q, legs[1..]));
    } else {
      assert legs[1..] == [];
      assert LifeTrace(pc, legs) == o.trace + [];
    }
  }

  /** A checked rite executes each pc at most once over its whole life, across all waits and resumes and
      whatever else happens to the world in between. */
  lemma LifeRunsOnce(rite: CookedRite, actor: Sigil, legs: seq<Leg>)
    requires Sound(rite.entry, rite.instrs) && Life(rite, actor, rite.entry, legs) && |legs| > 0
    ensures var w := LifeTrace(rite.entry, legs);
      NoDuplicates(w) && |w| <= |rite.instrs|
  {
    LifeWalks(rite, actor, rite.entry, legs);
    hide Flow, Life, LifeTrace;
    WalkDistinct(Flow(rite.instrs), LifeTrace(rite.entry, legs));
    DistinctWithin(LifeTrace(rite.entry, legs), Pcs(rite.instrs));
  }
}
