/** Dead-node elimination over labeled rites. */
module DeadNodes {
  import opened Prelude
  import opened Links
  import opened Rites
  import opened Distinct
  import opened Cfg
  import opened World
  import opened RiteVm
  import opened Recook

  ghost predicate AllLabeled(nodes: seq<RiteNode>) { forall n :: n in nodes ==> n.Labeled? }

  /** What a pc pushes on the worklist; targets are not checked to exist. */
  function Onto(op: RiteOp, next: Option<Pc>): seq<Pc> {
    match op
    case Halt(_) => []
    case Complete(_) => []
    case Branch(_, yes, no) => [yes, no]
    case Guard(_, fail) => [fail] + Listed(next)
    case Spend(_, _, fail) => [fail] + Listed(next)
    case _ => Listed(next)
  }

  function Listed(next: Option<Pc>): seq<Pc> { if next.Some? then [next.value] else [] }

  ghost function LiveSucc(instrs: seq<Instr>): (succ: Succ)
    ensures forall pc :: pc in succ <==> pc in OpsOf(instrs)
    ensures forall pc :: pc in succ ==> succ[pc] == Onto(OpsOf(instrs)[pc], NextPc(Pcs(instrs), pc))
  {
    map pc | pc in OpsOf(instrs) :: Onto(OpsOf(instrs)[pc], NextPc(Pcs(instrs), pc))
  }

  /** The pcs the worklist finds from `entry`. */
  ghost function Live(instrs: seq<Instr>, entry: Pc): set<Pc> { ReachableSet(LiveSucc(instrs), entry) }

  function Retain(nodes: seq<RiteNode>, seen: set<Pc>): seq<RiteNode> {
    if nodes == [] then []
    else (if nodes[0].Op? || nodes[0].pc in seen then [nodes[0]] else []) + Retain(nodes[1..], seen)
  }

  method RetainLoop(nodes: seq<RiteNode>, seen: set<Pc>) returns (kept: seq<RiteNode>)
    ensures kept == Retain(nodes, seen)
  {
    kept := [];
    for k := 0 to |nodes|
      invariant kept + Retain(nodes[k..], seen) == Retain(nodes, seen)
    {
      assert nodes[k..][0] == nodes[k] && nodes[k..][1..] == nodes[k + 1..];
      if nodes[k].Op? || nodes[k].pc in seen {
        kept := kept + [nodes[k]];
      }
    }
  }

  /** The worklist of the elimination. */
  method FindLive(entry: Pc, instrs: seq<Instr>) returns (seen: set<Pc>)
    ensures seen == Live(instrs, entry)
  {
    hide OpsOf, Searching, IsReachable, Universe, ReachableSet, Onto;
    var order, ops := Pcs(instrs), OpsOf(instrs);
    ghost var succ := LiveSucc(instrs);
    seen := {};
    var stack := [entry];
    SearchStarts(succ, entry);
    while stack != []
      invariant Searching(succ, entry, seen, stack)
      decreases |Universe(succ, entry) - seen|, |stack|
    {
      var pc := stack[|stack| - 1];
      var rest := stack[..|stack| - 1];
      assert stack == rest + [pc];
      stack := rest;
      if pc in seen {
        SearchSkips(succ, entry, seen, rest, pc);
        continue;
      }
      SearchVisits(succ, entry, seen, rest, pc);
      SubsetSize(Universe(succ, entry) - (seen + {pc}), Universe(succ, entry) - seen);
      seen := seen + {pc};
      if pc in ops {
        stack := stack + Onto(ops[pc], NextPc(order, pc));
      } else {
        assert stack == rest + [];
      }
    }
    SearchEnds(succ, entry, seen);
    SameReachable(succ, entry, seen, ReachableSet(succ, entry));
  }

  /** `eliminate_unreachable_labeled`: a graph with an unlabeled node is left alone. */
  method Eliminate(g: RiteGraph) returns (pruned: RiteGraph, removed: nat)
    ensures pruned.entry == g.entry && removed == |g.nodes| - |pruned.nodes|
    ensures pruned.nodes == if AllLabeled(g.nodes) then Retain(g.nodes, Live(Layout(g.nodes), g.entry)) else g.nodes
  {
    if exists n :: n in g.nodes && n.Op? {
      return g, 0;
    }
    var seen := FindLive(g.entry, Layout(g.nodes));
    var kept := RetainLoop(g.nodes, seen);
    RetainShorter(g.nodes, seen);
    return RiteGraph(g.entry, kept), |g.nodes| - |kept|;
  }

  lemma {:induction false} RetainShorter(nodes: seq<RiteNode>, seen: set<Pc>)
    ensures |Retain(nodes, seen)| <= |nodes|
  {
    if nodes != [] {
      RetainShorter(nodes[1..], seen);
    }
  }

  // ---------------------------------------------------------------------------------------------
  // On the layout.

  /** The instructions at live pcs. */
  function Kept(instrs: seq<Instr>, seen: set<Pc>): seq<Instr> {
    if instrs == [] then []
    else (if instrs[0].pc in seen then [instrs[0]] else []) + Kept(instrs[1..], seen)
  }

  lemma {:induction false} RetainLayout(nodes: seq<RiteNode>, seen: set<Pc>)
    requires AllLabeled(nodes)
    ensures Layout(Retain(nodes, seen)) == Kept(Layout(nodes), seen)
    ensures AllLabeled(Retain(nodes, seen))
  {
    if nodes != [] {
      RetainLayout(nodes[1..], seen);
      assert nodes[0] in nodes;
      assert forall n :: n in nodes[1..] ==> n in nodes;
      LabeledLayout(nodes);
      var rest := Retain(nodes[1..], seen);
      if nodes[0].pc in seen {
        assert Retain(nodes, seen) == [nodes[0]] + rest;
        assert ([nodes[0]] + rest)[1..] == rest;
        LabeledLayout([nodes[0]] + rest);
      } else {
        assert Retain(nodes, seen) == rest;
        assert Kept(Layout(nodes), seen) == Kept(Layout(nodes)[1..], seen);
      }
    } else {
      assert Layout(Retain(nodes, seen)) == [];
    }
  }

  /** A labeled layout, head first. */
  lemma LabeledLayout(nodes: seq<RiteNode>)
    requires nodes != [] && nodes[0].Labeled? && forall n :: n in nodes[1..] ==> n.Labeled?
    ensures Layout(nodes) == [Instr(nodes[0].pc, nodes[0].op)] + Layout(nodes[1..])
    ensures Layout(nodes)[1..] == Layout(nodes[1..])
  {
    forall i | 0 < i < |nodes|
      ensures Layout(nodes)[i] == Layout(nodes[1..])[i - 1]
    {
      assert nodes[1..][i - 1] == nodes[i];
      assert nodes[i] in nodes[1..];
    }
  }

  lemma OpAtHead(instrs: seq<Instr>, pc: Pc)
    requires instrs != []
    ensures OpAt(instrs, pc) == if instrs[0].pc == pc then Some(instrs[0].op) else OpAt(instrs[1..], pc)
    ensures NextPc(Pcs(instrs), pc) ==
      if instrs[0].pc == pc then (if |instrs| > 1 then Some(instrs[1].pc) else None)
      else NextPc(Pcs(instrs[1..]), pc)
  {
    assert Pcs(instrs)[1..] == Pcs(instrs[1..]);
  }

  /** Keeping live instructions changes neither what is found at a live pc nor, when control can fall
      through, what follows it. */
  lemma {:induction false} KeptSame(instrs: seq<Instr>, seen: set<Pc>, pc: Pc)
    requires pc in seen
    ensures OpAt(Kept(instrs, seen), pc) == OpAt(instrs, pc)
    ensures (NextPc(Pcs(instrs), pc).Some? ==> NextPc(Pcs(instrs), pc).value in seen) ==>
      NextPc(Pcs(Kept(instrs, seen)), pc) == NextPc(Pcs(instrs), pc)
  {
    hide OpAt, NextPc;
    if instrs == [] {
      assert Kept(instrs, seen) == instrs;
    } else {
      KeptSame(instrs[1..], seen, pc);
      OpAtHead(instrs, pc);
      var rest := Kept(instrs[1..], seen);
      if instrs[0].pc in seen {
        assert Kept(instrs, seen) == [instrs[0]] + rest;
        assert ([instrs[0]] + rest)[1..] == rest;
        OpAtHead([instrs[0]] + rest, pc);
      } else {
        assert Kept(instrs, seen) == rest;
      }
    }
  }

  /** The edges the elimination follows are the control flow. */
  lemma LiveEdgesAreFlow(instrs: seq<Instr>)
    requires NoDuplicates(Pcs(instrs))
    ensures EdgesOf(LiveSucc(instrs)) == Flow(instrs)
  {
    hide LiveSucc, OpsOf, Jumps, FallsThrough, EdgesOf, Flow;
    var succ := LiveSucc(instrs);
    forall i, q | 0 <= i < |instrs|
      ensures q in succ[Pcs(instrs)[i]] <==>
        q in Jumps(instrs[i].op)
        || (FallsThrough(instrs[i].op) && i + 1 < |instrs| && q == instrs[i + 1].pc)
    {
      OntoAt(instrs, i);
    }
    ListedEdges(instrs, succ);
  }

  lemma OntoAt(instrs: seq<Instr>, i: nat)
    requires NoDuplicates(Pcs(instrs)) && i < |instrs|
    ensures instrs[i].pc in LiveSucc(instrs)
    ensures forall q :: q in LiveSucc(instrs)[instrs[i].pc] <==>
      q in Jumps(instrs[i].op) || (FallsThrough(instrs[i].op) && i + 1 < |instrs| && q == instrs[i + 1].pc)
  {
    OpsOfDistinct(instrs);
    Located(instrs, i);
    assert Pcs(instrs)[i] in OpsOf(instrs);
    hide OpsOf, Position, NextPc;
    OntoIs(instrs[i].op, NextPc(Pcs(instrs), instrs[i].pc));
  }

  lemma OntoIs(op: RiteOp, next: Option<Pc>)
    ensures forall q :: q in Onto(op, next) <==> q in Jumps(op) || (FallsThrough(op) && next == Some(q))
  {
    if op.Branch? {
      assert Jumps(op)[0] == op.yes && Jumps(op)[1] == op.no;
    } else if op.Guard? || op.Spend? {
      assert Jumps(op)[0] == op.fail;
    }
  }

  /** The live pcs are exactly those control can come to. */
  lemma LiveIff(instrs: seq<Instr>, entry: Pc)
    requires NoDuplicates(Pcs(instrs))
    ensures forall pc :: pc in Live(instrs, entry) <==> Path(Flow(instrs), entry, pc)
  {
    LiveEdgesAreFlow(instrs);
    hide Flow, Path;
    assert IsReachable(LiveSucc(instrs), entry, Live(instrs, entry));
  }

  // ---------------------------------------------------------------------------------------------
  // Running the pruned rite.

  function WithInstrs(c: Call, instrs: seq<Instr>): Call { c.(rite := c.rite.(instrs := instrs)) }

  /** An instruction does not look at the code around it. */
  lemma ExecBlind(c: Call, instrs: seq<Instr>, op: RiteOp, pc: Pc, next: Option<Pc>, target: Option<Sigil>,
                  spec: Spec, predOps: nat)
    ensures Exec(WithInstrs(c, instrs), op, pc, next, target, spec, predOps)
      == Exec(c, op, pc, next, target, spec, predOps)
  {
    var d := WithInstrs(c, instrs);
    CtxRecooked(c, d, spec.proj, target);
    assert Guarded(d, pc, spec.proj, target, predOps) == Guarded(c, pc, spec.proj, target, predOps);
    hide Exec, Guarded, CtxOf;
    ExecRecooked(c, d, op, pc, next, target, spec, predOps);
  }

  /** Where control cannot fall through, the neighbour does not matter. */
  lemma NextUnused(c: Call, op: RiteOp, pc: Pc, a: Option<Pc>, b: Option<Pc>, target: Option<Sigil>, spec: Spec,
                   predOps: nat)
    requires !FallsThrough(op)
    ensures Exec(c, op, pc, a, target, spec, predOps) == Exec(c, op, pc, b, target, spec, predOps)
  {
    hide Guarded, Finish;
  }

  /** The live pcs are closed under what an instruction at a live pc can do. */
  lemma LiveClosed(instrs: seq<Instr>, entry: Pc, pc: Pc)
    requires NoDuplicates(Pcs(instrs)) && pc in Live(instrs, entry) && OpAt(instrs, pc).Some?
    ensures var op, next := OpAt(instrs, pc).value, NextPc(Pcs(instrs), pc);
      forall q :: q in Jumps(op) || (FallsThrough(op) && next == Some(q)) ==> q in Live(instrs, entry)
  {
    LiveIff(instrs, entry);
    var i := Position(Pcs(instrs), pc).value;
    Located(instrs, i);
    var op, next := OpAt(instrs, pc).value, NextPc(Pcs(instrs), pc);
    hide Live, Position, OpAt, NextPc, Jumps, FallsThrough, Path;
    forall q | q in Jumps(op) || (FallsThrough(op) && next == Some(q))
      ensures q in Live(instrs, entry)
    {
      if q in Jumps(op) {
        assert (instrs[i].pc, q) in Flow(instrs);
      } else {
        assert (instrs[i].pc, instrs[i + 1].pc) in Flow(instrs);
      }
      PathStep(Flow(instrs), entry, pc, q);
    }
  }

  /** Elimination preserves behaviour: from any live pc, in any world, with any budgets, the pruned rite
      runs step for step as the original, whatever the outcome. */
  lemma {:induction false} PrunedRunsSame(c: Call, entry: Pc, pc: Pc, target: Option<Sigil>, spec: Spec,
                                          fuel: nat, predOps: nat)
    requires NoDuplicates(Pcs(c.rite.instrs)) && pc in Live(c.rite.instrs, entry)
    ensures var kept := Kept(c.rite.instrs, Live(c.rite.instrs, entry));
      Burst(WithInstrs(c, kept), pc, target, spec, fuel, predOps) == Burst(c, pc, target, spec, fuel, predOps)
    decreases fuel
  {
    hide Exec, Live, Kept, OpAt, NextPc, Jumps, FallsThrough, Finish;
    var instrs, seen := c.rite.instrs, Live(c.rite.instrs, entry);
    var d := WithInstrs(c, Kept(instrs, seen));
    KeptSame(instrs, seen, pc);
    if fuel == 0 {
      SlotsRecooked(c, d);
    } else if OpAt(instrs, pc).Some? {
      var op, next := OpAt(instrs, pc).value, NextPc(Pcs(instrs), pc);
      var other := NextPc(Pcs(d.rite.instrs), pc);
      LiveClosed(instrs, entry, pc);
      ExecBlind(c, d.rite.instrs, op, pc, other, target, spec, predOps);
      if !FallsThrough(op) {
        NextUnused(c, op, pc, next, other, target, spec, predOps);
      }
      ExecFlow(c, op, pc, next, target, spec, predOps);
      var (r, left) := Exec(c, op, pc, next, target, spec, predOps);
      if r.Goto? {
        PrunedRunsSame(c, entry, r.pc, r.target, r.spec, fuel - 1, left);
      }
    }
  }

  // ---------------------------------------------------------------------------------------------
  // What is left.

  lemma {:induction false} KeptPcs(instrs: seq<Instr>, seen: set<Pc>)
    ensures forall pc :: pc in Pcs(Kept(instrs, seen)) <==> pc in Pcs(instrs) && pc in seen
    ensures NoDuplicates(Pcs(instrs)) ==> NoDuplicates(Pcs(Kept(instrs, seen)))
  {
    if instrs != [] {
      var rest := Kept(instrs[1..], seen);
      KeptPcs(instrs[1..], seen);
      assert Pcs(instrs) == [instrs[0].pc] + Pcs(instrs[1..]);
      if instrs[0].pc in seen {
        assert Kept(instrs, seen) == [instrs[0]] + rest;
        assert Pcs([instrs[0]] + rest) == [instrs[0].pc] + Pcs(rest);
        assert NoDuplicates(Pcs(instrs)) ==> instrs[0].pc !in Pcs(instrs[1..]);
      } else {
        assert Kept(instrs, seen) == rest;
      }
    }
  }

  /** An edge between live pcs survives. */
  lemma EdgeSurvives(instrs: seq<Instr>, entry: Pc, a: Pc, b: Pc)
    requires NoDuplicates(Pcs(instrs)) && (a, b) in Flow(instrs) && a in Live(instrs, entry)
    ensures (a, b) in Flow(Kept(instrs, Live(instrs, entry)))
  {
    var seen := Live(instrs, entry);
    var kept := Kept(instrs, seen);
    FlowAt(instrs, a, b);
    KeptPcs(instrs, seen);
    KeptSame(instrs, seen, a);
    LiveClosed(instrs, entry, a);
    hide Live, Kept, Flow, Jumps, FallsThrough, OpAt, NextPc;
    AtFlow(kept, a, b);
  }

  /** An edge is a jump or a fall-through of the instruction found at its source. */
  lemma FlowAt(instrs: seq<Instr>, a: Pc, b: Pc)
    requires NoDuplicates(Pcs(instrs)) && (a, b) in Flow(instrs)
    ensures a in Pcs(instrs) && OpAt(instrs, a).Some?
    ensures b in Jumps(OpAt(instrs, a).value)
      || (FallsThrough(OpAt(instrs, a).value) && NextPc(Pcs(instrs), a) == Some(b))
  {
    if i, q :| 0 <= i < |instrs| && q in Jumps(instrs[i].op) && (a, b) == (instrs[i].pc, q) {
      Located(instrs, i);
      assert Pcs(instrs)[i] == a;
    } else {
      var i :| 0 <= i < |instrs| - 1 && FallsThrough(instrs[i].op) && (a, b) == (instrs[i].pc, instrs[i + 1].pc);
      Located(instrs, i);
      assert Pcs(instrs)[i] == a;
    }
  }

  lemma AtFlow(instrs: seq<Instr>, a: Pc, b: Pc)
    requires NoDuplicates(Pcs(instrs)) && OpAt(instrs, a).Some?
    requires b in Jumps(OpAt(instrs, a).value)
      || (FallsThrough(OpAt(instrs, a).value) && NextPc(Pcs(instrs), a) == Some(b))
    ensures (a, b) in Flow(instrs)
  {
    var i := Position(Pcs(instrs), a).value;
    Located(instrs, i);
    if b in Jumps(instrs[i].op) {
      assert (a, b) == (instrs[i].pc, b);
    } else {
      assert (a, b) == (instrs[i].pc, instrs[i + 1].pc);
    }
  }

  lemma StaysReachable(instrs: seq<Instr>, entry: Pc, a: Pc, b: Pc)
    requires NoDuplicates(Pcs(instrs)) && (a, b) in Flow(instrs) && Path(Flow(instrs), entry, a)
    requires Path(Flow(Kept(instrs, Live(instrs, entry))), entry, a)
    ensures Path(Flow(instrs), entry, b) && Path(Flow(Kept(instrs, Live(instrs, entry))), entry, b)
  {
    hide Live, Kept, Flow, Pcs, Path;
    LiveIff(instrs, entry);
    EdgeSurvives(instrs, entry, a, b);
    PathStep(Flow(instrs), entry, a, b);
    PathStep(Flow(Kept(instrs, Live(instrs, entry))), entry, a, b);
  }

  /** The pruned graph has no unreachable node: every pc left is reached from the entry inside it. */
  lemma PrunedAllReachable(instrs: seq<Instr>, entry: Pc, pc: Pc)
    requires NoDuplicates(Pcs(instrs)) && pc in Pcs(Kept(instrs, Live(instrs, entry)))
    ensures Path(Flow(Kept(instrs, Live(instrs, entry))), entry, pc)
  {
    hide Live, Kept, Flow, Pcs;
    var flow, kept := Flow(instrs), Kept(instrs, Live(instrs, entry));
    KeptPcs(instrs, Live(instrs, entry));
    LiveIff(instrs, entry);
    var p :| Walk(flow, p) && p[0] == entry && p[|p| - 1] == pc;
    PathRefl(flow, entry);
    PathRefl(Flow(kept), entry);
    var i := 0;
    while i < |p| - 1
      invariant 0 <= i < |p| && Path(flow, entry, p[i]) && Path(Flow(kept), entry, p[i])
    {
      assert (p[i], p[i + 1]) in flow;
      StaysReachable(instrs, entry, p[i], p[i + 1]);
      i := i + 1;
    }
  }

  /** Nothing is removed from a graph the control-flow check accepts. */
  lemma CheckedUntouched(g: RiteGraph)
    requires Verdict(g).Ok? && Fits(g.nodes) && AllLabeled(g.nodes)
    ensures Retain(g.nodes, Live(Layout(g.nodes), g.entry)) == g.nodes
  {
    hide Verdict, Layout, AnyLabeled, AnyOp, Fits, Live, Flow, Path, Acyclic, Lands;
    AcceptedIffSound(g);
    LiveIff(Layout(g.nodes), g.entry);
    RetainAll(g.nodes, Live(Layout(g.nodes), g.entry));
  }

  lemma {:induction false} RetainAll(nodes: seq<RiteNode>, seen: set<Pc>)
    requires AllLabeled(nodes) && forall pc :: pc in Pcs(Layout(nodes)) ==> pc in seen
    ensures Retain(nodes, seen) == nodes
  {
    if nodes != [] {
      assert nodes[0] in nodes;
      assert forall n :: n in nodes[1..] ==> n in nodes;
      LabeledLayout(nodes);
      assert Pcs(Layout(nodes)) == [nodes[0].pc] + Pcs(Layout(nodes[1..]));
      assert Pcs(Layout(nodes))[0] == nodes[0].pc;
      RetainAll(nodes[1..], seen);
    }
  }
}
