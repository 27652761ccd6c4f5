/** The control-flow check past `u16`. */
module CfgOverlong {
  // Unlabeled nodes take their index as pc, cut to 16 bits.  Of several nodes with one pc the check looks at the last,
  // the machine runs the first.

  import opened Prelude
  import opened Links
  import opened Rites
  import opened Distinct
  import opened Cfg

  const NODES: nat := U16_MAX + 1

  /** An unlabeled graph with more nodes than pcs. */
  ghost predicate Overlong(nodes: seq<RiteNode>) { !AnyLabeled(nodes) && |nodes| > NODES }

  /** The last of `n` nodes whose index is `pc` after the cut. */
  function LastAt(n: nat, pc: Pc): (i: nat)
    requires pc < NODES < n
    ensures i < n && i % NODES == pc && n - NODES <= i
  {
    var k := (n - 1 - pc) / NODES;
    LastIndex(n, pc, k);
    pc + k * NODES
  }

  lemma LastIndex(n: nat, pc: Pc, k: nat)
    requires pc < NODES < n && k == (n - 1 - pc) / NODES
    ensures n - NODES <= pc + k * NODES < n && (pc + k * NODES) % NODES == pc
  {
  }

  /** The nodes as the check sees them: one for each pc, the last writer's. */
  function Wrapped(nodes: seq<RiteNode>): (w: seq<RiteOp>)
    requires |nodes| > NODES
    ensures |w| == NODES && forall pc: Pc :: pc < NODES ==> w[pc] == nodes[LastAt(|nodes|, pc)].op
  {
    seq(NODES, pc requires 0 <= pc < NODES => nodes[LastAt(|nodes|, pc)].op)
  }

  function NextRound(pc: Pc): Pc { if pc == U16_MAX then 0 else pc + 1 }

  /** Their control flow: after the last pc comes the first again. */
  ghost function Ring(w: seq<RiteOp>): Edges {
    (set pc: Pc, q | 0 <= pc < |w| && q in Jumps(w[pc]) :: (pc, q))
    + (set pc: Pc | 0 <= pc < |w| && FallsThrough(w[pc]) :: (pc, NextRound(pc)))
  }

  ghost predicate JumpsFit(w: seq<RiteOp>) {
    forall pc: Pc, q :: pc < |w| && q in Jumps(w[pc]) ==> q < NODES
  }

  /** What the check asks of an overlong graph.  (Entry and jumps are 16 bit wide in the program, so that they fit
      is no condition there.) */
  ghost predicate WrappedPasses(g: RiteGraph)
    requires |g.nodes| > NODES
  {
    var w := Wrapped(g.nodes);
    && g.entry < NODES && JumpsFit(w)
    && (forall pc: Pc :: pc < NODES ==> Path(Ring(w), g.entry, pc))
    && Acyclic(Ring(w))
  }

  // ---------------------------------------------------------------------------------------------
  // The tables of the check.

  lemma {:induction false} OpsOfLast(instrs: seq<Instr>, i: nat)
    requires i < |instrs| && forall j :: i < j < |instrs| ==> instrs[j].pc != instrs[i].pc
    ensures instrs[i].pc in OpsOf(instrs) && OpsOf(instrs)[instrs[i].pc] == instrs[i].op
  {
    var init := instrs[..|instrs| - 1];
    if i < |init| {
      OpsOfLast(init, i);
    }
  }

  lemma {:induction false} PositionFirst(order: seq<Pc>, i: nat)
    requires i < |order| && order[i] !in order[..i]
    ensures Position(order, order[i]) == Some(i)
  {
    if i > 0 {
      assert order[0] in order[..i];
      assert order[..i] == [order[0]] + order[1..][..i - 1];
      PositionFirst(order[1..], i - 1);
    }
  }

  lemma PcsCut(nodes: seq<RiteNode>)
    requires Overlong(nodes)
    ensures forall i :: 0 <= i < |nodes| ==> Pcs(Layout(nodes))[i] == i % NODES
    ensures forall pc: Pc :: pc in Pcs(Layout(nodes)) <==> pc < NODES
  {
    var order := Pcs(Layout(nodes));
    forall i | 0 <= i < |nodes|
      ensures order[i] == i % NODES
    {
      assert nodes[i] in nodes;
    }
    forall pc: Pc | pc < NODES
      ensures pc in order
    {
      assert pc % NODES == pc && order[pc] == pc;
    }
  }

  lemma SameCut(i: nat, j: nat)
    requires i < j < i + NODES
    ensures i % NODES != j % NODES
  {
  }

  lemma OpAtLast(nodes: seq<RiteNode>, pc: Pc)
    requires Overlong(nodes) && pc < NODES
    ensures pc in OpsOf(Layout(nodes)) && OpsOf(Layout(nodes))[pc] == Wrapped(nodes)[pc]
  {
    var instrs, i := Layout(nodes), LastAt(|nodes|, pc);
    PcsCut(nodes);
    hide Layout, LastAt;
    assert Pcs(instrs)[i] == pc;
    forall j | i < j < |instrs|
      ensures instrs[j].pc != instrs[i].pc
    {
      SameCut(i, j);
      assert Pcs(instrs)[j] == j % NODES;
    }
    OpsOfLast(instrs, i);
    hide OpsOf, Wrapped;
  }

  lemma NextAround(nodes: seq<RiteNode>, pc: Pc)
    requires Overlong(nodes) && pc < NODES
    ensures NextPc(Pcs(Layout(nodes)), pc) == Some(NextRound(pc))
  {
    var order := Pcs(Layout(nodes));
    PcsCut(nodes);
    hide Layout, Position, Pcs, Overlong, NoDuplicates;
    SmallCut(pc);
    assert order[pc] == pc;
    forall j | 0 <= j < pc
      ensures order[j] != pc
    {
      SmallCut(j);
    }
    PositionFirst(order, pc);
    assert order[pc + 1] == NextRound(pc);
  }

  lemma SmallCut(i: nat)
    requires i < NODES
    ensures i % NODES == i && (i + 1) % NODES == NextRound(i)
  {
  }

  lemma EdgesAround(nodes: seq<RiteNode>, pc: Pc)
    requires Overlong(nodes) && pc < NODES
    ensures pc in OpsOf(Layout(nodes))
    ensures var op, r := Wrapped(nodes)[pc], EdgesFrom(pc, Pcs(Layout(nodes)), OpsOf(Layout(nodes)));
      && (r.Ok? <==> forall q :: q in Jumps(op) ==> q < NODES)
      && (r.Ok? ==> forall q :: q in r.value <==> q in Jumps(op) || (FallsThrough(op) && q == NextRound(pc)))
  {
    OpAtLast(nodes, pc);
    NextAround(nodes, pc);
    PcsCut(nodes);
    hide Layout, Wrapped, OpsOf, NextPc, Jumps, FallsThrough, Overlong;
    SuccessorsOk(pc, Wrapped(nodes)[pc], Some(NextRound(pc)), OpsOf(Layout(nodes)));
    hide Successors;
  }

  lemma EdgesOkAround(nodes: seq<RiteNode>)
    requires Overlong(nodes)
    ensures EdgesOk(Layout(nodes)) <==> JumpsFit(Wrapped(nodes))
  {
    PcsCut(nodes);
    hide Layout, Wrapped, OpsOf, EdgesFrom, Jumps, Overlong;
    forall pc: Pc | pc < NODES
      ensures pc in OpsOf(Layout(nodes))
      ensures EdgesFrom(pc, Pcs(Layout(nodes)), OpsOf(Layout(nodes))).Ok? <==>
        forall q :: q in Jumps(Wrapped(nodes)[pc]) ==> q < NODES
    {
      EdgesAround(nodes, pc);
    }
  }

  /** `succ` lists for every pc its jumps and the pc after it. */
  ghost predicate ListsRing(w: seq<RiteOp>, succ: Succ) {
    && |w| == NODES
    && (forall pc: Pc :: pc in succ <==> pc < NODES)
    && (forall pc: Pc, q: Pc :: pc < NODES ==>
          (q in succ[pc] <==> q in Jumps(w[pc]) || (FallsThrough(w[pc]) && q == NextRound(pc))))
  }

  lemma RingFrom(w: seq<RiteOp>, succ: Succ)
    requires ListsRing(w, succ)
    ensures forall e :: e in EdgesOf(succ) ==> e in Ring(w)
  {
    hide Jumps, FallsThrough;
  }

  lemma RingTo(w: seq<RiteOp>, succ: Succ)
    requires ListsRing(w, succ)
    ensures forall e :: e in Ring(w) ==> e in EdgesOf(succ)
  {
    hide Jumps, FallsThrough;
  }

  lemma RingIs(nodes: seq<RiteNode>)
    requires Overlong(nodes) && EdgesOk(Layout(nodes))
    ensures EdgesOf(SuccOf(Pcs(Layout(nodes)), OpsOf(Layout(nodes)))) == Ring(Wrapped(nodes))
  {
    var order, ops, w := Pcs(Layout(nodes)), OpsOf(Layout(nodes)), Wrapped(nodes);
    PcsCut(nodes);
    hide Layout, Wrapped, OpsOf, EdgesFrom, Jumps, FallsThrough, EdgesOf, Ring, Overlong, Pcs;
    var succ := SuccOf(order, ops);
    forall pc: Pc, q: Pc | pc < NODES
      ensures q in succ[pc] <==> q in Jumps(w[pc]) || (FallsThrough(w[pc]) && q == NextRound(pc))
    {
      EdgesAround(nodes, pc);
    }
    hide SuccOf;
    assert ListsRing(w, succ);
    RingFrom(w, succ);
    RingTo(w, succ);
  }

  // ---------------------------------------------------------------------------------------------
  // The verdict.

  /** An overlong graph is accepted exactly when every pc is reachable and no cycle exists in the wrapped view. */
  lemma OverlongAccepted(g: RiteGraph)
    requires Overlong(g.nodes)
    ensures Verdict(g).Ok? <==> WrappedPasses(g)
  {
    var instrs := Layout(g.nodes);
    VerdictOk(g);
    PcsCut(g.nodes);
    EdgesOkAround(g.nodes);
    hide Verdict, Layout, Wrapped, Ring, Path, Acyclic, EdgesOf, SuccOf, OpsOf, ReachableSet, HasCycle, FirstOutside, EdgesOk,
         JumpsFit;
    if EdgesOk(instrs) {
      RingIs(g.nodes);
      Searched(instrs, g.entry, Ring(Wrapped(g.nodes)));
    }
  }

  lemma OverlongUnsound(g: RiteGraph)
    requires Overlong(g.nodes)
    ensures !Sound(g.entry, Layout(g.nodes))
  {
    PcsCut(g.nodes);
    SoundDistinct(g.entry, Layout(g.nodes));
    hide Sound, Layout;
    assert Pcs(Layout(g.nodes))[0] == Pcs(Layout(g.nodes))[NODES];
  }

  /** For every graph: the verdict says whether the graph is sound exactly when its pcs fit or the wrapped view is
      refused. */
  lemma VerdictRightIff(g: RiteGraph)
    ensures (Verdict(g).Ok? <==> !(AnyLabeled(g.nodes) && AnyOp(g.nodes)) && Sound(g.entry, Layout(g.nodes)))
      <==> (Fits(g.nodes) || !WrappedPasses(g))
  {
    hide Verdict, Sound, WrappedPasses, Layout;
    if Fits(g.nodes) {
      AcceptedIffSound(g);
    } else {
      OverlongAccepted(g);
      OverlongUnsound(g);
    }
  }

  // ---------------------------------------------------------------------------------------------
  // A graph that escapes.

  /** 65537 unlabeled nodes: node 0 is `first`, and the last node's pc wraps to 0 as well. */
  function Escaping(first: RiteOp): (nodes: seq<RiteNode>)
    ensures |nodes| == NODES + 1
    ensures forall i :: 0 <= i <= NODES ==>
      nodes[i] == Op(if i == 0 then first else if i == U16_MAX then Complete(Success) else Bind(BindTarget))
  {
    seq(NODES + 1, i => Op(if i == 0 then first else if i == U16_MAX then Complete(Success) else Bind(BindTarget)))
  }

  lemma EscapingWrapped(first: RiteOp, pc: Pc)
    requires pc < NODES
    ensures Wrapped(Escaping(first))[pc] == if pc == U16_MAX then Complete(Success) else Bind(BindTarget)
  {
    var i := LastAt(NODES + 1, pc);
    hide LastAt;
    if pc > 0 {
      assert i < NODES ==> i % NODES == i;
      assert i != NODES;
    } else {
      assert i != 0;
    }
  }

  /** The wrapped view: 0 to 1 to 2 and so on. */
  ghost predicate Chain(w: seq<RiteOp>) {
    |w| == NODES && forall pc: Pc :: pc < NODES ==> w[pc] == if pc == U16_MAX then Complete(Success) else Bind(BindTarget)
  }

  lemma {:induction false} ChainReached(w: seq<RiteOp>, pc: Pc)
    requires Chain(w) && pc < NODES
    ensures Path(Ring(w), 0, pc)
    decreases pc
  {
    if pc == 0 {
      PathRefl(Ring(w), 0);
    } else {
      ChainReached(w, pc - 1);
      assert FallsThrough(w[pc - 1]) && NextRound(pc - 1) == pc;
      assert (pc - 1, pc) in Ring(w);
      PathStep(Ring(w), 0, pc - 1, pc);
    }
  }

  lemma ChainAcyclic(w: seq<RiteOp>)
    requires Chain(w)
    ensures Acyclic(Ring(w))
  {
    RankedAcyclic(Ring(w), map pc: Pc | 0 <= pc < |w| && (w[pc].Bind? || w[pc].Complete?) :: U16_MAX - pc);
  }

  /** Whatever `first` is, a self loop or a jump to nowhere included, the graph is accepted and the machine starts
      with `first`. */
  lemma OverlongEscapes(first: RiteOp)
    ensures Verdict(RiteGraph(0, Escaping(first))).Ok?
    ensures OpAt(Layout(Escaping(first)), 0) == Some(first)
    ensures !Sound(0, Layout(Escaping(first)))
  {
    var g := RiteGraph(0, Escaping(first));
    assert forall n :: n in g.nodes ==> n.Op?;
    assert Layout(g.nodes)[0] == Instr(0, first);
    PositionFirst(Pcs(Layout(g.nodes)), 0);
    EscapingPasses(first);
    hide Escaping, Layout, WrappedPasses, Verdict;
    OverlongAccepted(g);
    OverlongUnsound(g);
  }

  lemma EscapingPasses(first: RiteOp)
    ensures WrappedPasses(RiteGraph(0, Escaping(first)))
  {
    var w := Wrapped(Escaping(first));
    forall pc: Pc | pc < NODES
      ensures w[pc] == if pc == U16_MAX then Complete(Success) else Bind(BindTarget)
    {
      EscapingWrapped(first, pc);
    }
    hide Wrapped, Escaping, Ring;
    assert Chain(w);
    forall pc: Pc | pc < NODES
      ensures Path(Ring(w), 0, pc)
    {
      ChainReached(w, pc);
    }
    ChainAcyclic(w);
    assert JumpsFit(w);
  }
}
