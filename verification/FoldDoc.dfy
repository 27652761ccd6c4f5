/** Folding a whole document. */
module FoldDoc {
  // Before the optimized cook: nothing a Rite or a Law does changes, except that it may afford more.

  import opened Prelude
  import opened Pred
  import opened Rites
  import opened Cfg
  import opened Fold
  import Contradict

  type Law = Contradict.Law

  /** The parts of a Canon document that hold predicates. */
  datatype Diff =
    | AddLaw(law: Law)
    | AddAffordance(name: Name, needs: seq<Pred>, conflicts: seq<Name>)
    | AddRite(name: Name, graph: RiteGraph)
    | OtherDiff

  // ---------------------------------------------------------------------------------------------
  // What the fold makes of a document.

  function FoldOp(op: RiteOp): RiteOp {
    match op
    case Guard(p, fail) => Guard(Simplify(p), fail)
    case Branch(p, yes, no) => Branch(Simplify(p), yes, no)
    case _ => op
  }

  function FoldNode(n: RiteNode): RiteNode {
    match n
    case Op(op) => Op(FoldOp(op))
    case Labeled(pc, op) => Labeled(pc, FoldOp(op))
  }

  function FoldNodes(nodes: seq<RiteNode>): (r: seq<RiteNode>)
    ensures |r| == |nodes| && forall i :: 0 <= i < |nodes| ==> r[i] == FoldNode(nodes[i])
  {
    seq(|nodes|, i requires 0 <= i < |nodes| => FoldNode(nodes[i]))
  }

  function FoldInstrs(instrs: seq<Instr>): (r: seq<Instr>)
    ensures |r| == |instrs| && forall i :: 0 <= i < |instrs| ==> r[i] == Instr(instrs[i].pc, FoldOp(instrs[i].op))
  {
    seq(|instrs|, i requires 0 <= i < |instrs| => Instr(instrs[i].pc, FoldOp(instrs[i].op)))
  }

  function FoldPreds(ps: seq<Pred>): (r: seq<Pred>)
    ensures |r| == |ps| && forall i :: 0 <= i < |ps| ==> r[i] == Simplify(ps[i])
  {
    seq(|ps|, i requires 0 <= i < |ps| => Simplify(ps[i]))
  }

  /** A predicate law folds both its predicates, a cap law its `when` and its mark, any other law its
      `when` alone. */
  function FoldLaw(l: Law): Law {
    var m := l.(when := Simplify(l.when));
    match l.body
    case PredLaw(must, ought) => m.(body := Contradict.PredLaw(Simplify(must), ought))
    case CapLaw(mark, n, require) => m.(body := Contradict.CapLaw(Simplify(mark), n, require))
    case _ => m
  }

  function FoldDiff(d: Diff): Diff {
    match d
    case AddLaw(law) => AddLaw(FoldLaw(law))
    case AddAffordance(name, needs, conflicts) => AddAffordance(name, FoldPreds(needs), conflicts)
    case AddRite(name, g) => AddRite(name, g.(nodes := FoldNodes(g.nodes)))
    case OtherDiff => d
  }

  function FoldDiffs(ds: seq<Diff>): (r: seq<Diff>)
    ensures |r| == |ds| && forall i :: 0 <= i < |ds| ==> r[i] == FoldDiff(ds[i])
  {
    seq(|ds|, i requires 0 <= i < |ds| => FoldDiff(ds[i]))
  }

  // ---------------------------------------------------------------------------------------------
  // The predicates a document holds.

  function PredsOfOp(op: RiteOp): seq<Pred> { if HasPred(op) then [op.pred] else [] }

  function PredsOfNodes(nodes: seq<RiteNode>): seq<Pred> {
    if nodes == [] then [] else PredsOfNodes(nodes[..|nodes| - 1]) + PredsOfOp(nodes[|nodes| - 1].op)
  }

  function PredsOfLaw(l: Law): seq<Pred> {
    match l.body
    case PredLaw(must, _) => [l.when, must]
    case CapLaw(mark, _, _) => [l.when, mark]
    case _ => [l.when]
  }

  function PredsOf(d: Diff): seq<Pred> {
    match d
    case AddLaw(law) => PredsOfLaw(law)
    case AddAffordance(_, needs, _) => needs
    case AddRite(_, g) => PredsOfNodes(g.nodes)
    case OtherDiff => []
  }

  function AllPreds(ds: seq<Diff>): seq<Pred> {
    if ds == [] then [] else AllPreds(ds[..|ds| - 1]) + PredsOf(ds[|ds| - 1])
  }

  /** Rewrites over a list of predicates. */
  function Changes(ps: seq<Pred>): nat {
    if ps == [] then 0 else Changes(ps[..|ps| - 1]) + FoldPred(ps[|ps| - 1]).changed
  }

  lemma {:induction false} ChangesConcat(a: seq<Pred>, b: seq<Pred>)
    ensures Changes(a + b) == Changes(a) + Changes(b)
  {
    if b == [] {
      assert a + b == a;
    } else {
      var init := b[..|b| - 1];
      assert (a + b)[..|a + b| - 1] == a + init && (a + b)[|a + b| - 1] == b[|b| - 1];
      ChangesConcat(a, init);
    }
  }

  lemma {:induction false} ChangesNone(ps: seq<Pred>)
    ensures Changes(ps) == 0 <==> forall i :: 0 <= i < |ps| ==> Normal(ps[i])
  {
    if ps != [] {
      ChangesNone(ps[..|ps| - 1]);
      FoldChanged(ps[|ps| - 1]);
      hide FoldPred, Normal;
    }
  }

  // ---------------------------------------------------------------------------------------------
  // The fold as it runs.

  /** A place that holds one predicate. */
  class PredCell {
    var pred: Pred

    constructor (p: Pred)
      ensures pred == p
    {
      pred := p;
    }

    /** `fold_pred`: rewrites the predicate where it stands and counts the rewrites. */
    method Fold() returns (changed: nat)
      modifies this
      ensures pred == Simplify(old(pred)) && changed == FoldPred(old(pred)).changed
      decreases pred
    {
      if pred.And? || pred.Or? {
        var a := new PredCell(pred.left);
        var b := new PredCell(pred.right);
        var ca := a.Fold();
        var cb := b.Fold();
        changed := ca + cb;
        if a.pred == b.pred {
          pred := a.pred;
          changed := changed + 1;
        } else {
          pred := pred.(left := a.pred, right := b.pred);
        }
      } else if pred.Not? {
        var inner := new PredCell(pred.inner);
        changed := inner.Fold();
        if inner.pred.Not? {
          pred := inner.pred.inner;
          changed := changed + 1;
        } else {
          pred := Not(inner.pred);
        }
      } else if pred.ExistsRelated? || pred.CountRelated? {
        var body := new PredCell(pred.body);
        changed := body.Fold();
        pred := pred.(body := body.pred);
      } else {
        changed := 0;
      }
    }
  }

  method FoldOne(p: Pred) returns (q: Pred, changed: nat)
    ensures q == Simplify(p) && changed == Changes([p])
  {
    var cell := new PredCell(p);
    changed := cell.Fold();
    q := cell.pred;
    assert Changes([p][..0]) == 0;
  }

  method FoldLawInPlace(l: Law) returns (m: Law, changed: nat)
    ensures m == FoldLaw(l) && changed == Changes(PredsOfLaw(l))
  {
    hide Simplify, FoldPred, Changes;
    var when, c := FoldOne(l.when);
    m, changed := l.(when := when), c;
    if l.body.PredLaw? {
      var must, k := FoldOne(l.body.must);
      m, changed := m.(body := Contradict.PredLaw(must, l.body.ought)), c + k;
      ChangesConcat([l.when], [l.body.must]);
      assert PredsOfLaw(l) == [l.when] + [l.body.must];
    } else if l.body.CapLaw? {
      var mark, k := FoldOne(l.body.mark);
      m, changed := m.(body := Contradict.CapLaw(mark, l.body.n, l.body.require)), c + k;
      ChangesConcat([l.when], [l.body.mark]);
      assert PredsOfLaw(l) == [l.when] + [l.body.mark];
    }
  }

  method FoldNeeds(ps: seq<Pred>) returns (qs: seq<Pred>, changed: nat)
    ensures qs == FoldPreds(ps) && changed == Changes(ps)
  {
    hide Simplify, FoldPred, Changes;
    qs, changed := ps, 0;
    ChangesEmpty();
    for i := 0 to |ps|
      invariant |qs| == |ps| && qs[i..] == ps[i..] && changed == Changes(ps[..i])
      invariant forall j :: 0 <= j < i ==> qs[j] == Simplify(ps[j])
    {
      var q, c := FoldOne(qs[i]);
      assert qs[i] == ps[i];
      ChangesConcat(ps[..i], [ps[i]]);
      assert ps[..i] + [ps[i]] == ps[..i + 1];
      qs, changed := qs[i := q], changed + c;
    }
    assert ps[..|ps|] == ps;
  }

  lemma ChangesEmpty()
    ensures Changes([]) == 0
  {
  }

  lemma NodesUpTo(nodes: seq<RiteNode>, i: nat)
    requires i < |nodes|
    ensures PredsOfNodes(nodes[..i + 1]) == PredsOfNodes(nodes[..i]) + PredsOfOp(nodes[i].op)
  {
    assert nodes[..i + 1][..i] == nodes[..i];
  }

  method FoldRiteNodes(nodes: seq<RiteNode>) returns (out: seq<RiteNode>, changed: nat)
    ensures out == FoldNodes(nodes) && changed == Changes(PredsOfNodes(nodes))
  {
    hide Simplify, FoldPred, Changes, PredsOfNodes;
    out, changed := nodes, 0;
    ChangesEmpty();
    NodesNone();
    for i := 0 to |nodes|
      invariant |out| == |nodes| && out[i..] == nodes[i..] && changed == Changes(PredsOfNodes(nodes[..i]))
      invariant forall j :: 0 <= j < i ==> out[j] == FoldNode(nodes[j])
    {
      assert out[i] == nodes[i];
      var op := nodes[i].op;
      NodesUpTo(nodes, i);
      ChangesConcat(PredsOfNodes(nodes[..i]), PredsOfOp(op));
      ChangesEmpty();
      if HasPred(op) {
        var q, c := FoldOne(op.pred);
        out, changed := out[i := nodes[i].(op := op.(pred := q))], changed + c;
      }
    }
    assert nodes[..|nodes|] == nodes;
  }

  lemma NodesNone()
    ensures PredsOfNodes([]) == []
  {
  }

  method FoldOneDiff(d: Diff) returns (e: Diff, changed: nat)
    ensures e == FoldDiff(d) && changed == Changes(PredsOf(d))
  {
    hide FoldLaw, FoldNodes, Changes, PredsOfNodes, PredsOfLaw;
    e, changed := d, 0;
    match d {
      case AddLaw(law) =>
        var l, c := FoldLawInPlace(law);
        e, changed := AddLaw(l), c;
      case AddAffordance(name, needs, conflicts) =>
        var qs, c := FoldNeeds(needs);
        e, changed := AddAffordance(name, qs, conflicts), c;
      case AddRite(name, g) =>
        var nodes, c := FoldRiteNodes(g.nodes);
        e, changed := AddRite(name, g.(nodes := nodes)), c;
      case OtherDiff =>
        ChangesEmpty();
    }
  }

  lemma PredsUpTo(ds: seq<Diff>, i: nat)
    requires i < |ds|
    ensures AllPreds(ds[..i + 1]) == AllPreds(ds[..i]) + PredsOf(ds[i])
  {
    assert ds[..i + 1][..i] == ds[..i];
  }

  lemma PredsNone()
    ensures AllPreds([]) == []
  {
  }

  class IntentDoc {
    var diffs: seq<Diff>

    /** `fold_doc_predicates`. */
    method FoldPredicates() returns (changed: nat)
      modifies this
      ensures diffs == FoldDiffs(old(diffs)) && changed == Changes(AllPreds(old(diffs)))
    {
      hide FoldDiff, Changes, AllPreds, PredsOf;
      ghost var was := diffs;
      changed := 0;
      ChangesEmpty();
      PredsNone();
      for i := 0 to |diffs|
        invariant |diffs| == |was| && diffs[i..] == was[i..] && changed == Changes(AllPreds(was[..i]))
        invariant forall j :: 0 <= j < i ==> diffs[j] == FoldDiff(was[j])
      {
        assert diffs[i] == was[i];
        var e, c := FoldOneDiff(diffs[i]);
        PredsUpTo(was, i);
        ChangesConcat(AllPreds(was[..i]), PredsOf(was[i]));
        diffs, changed := diffs[i := e], changed + c;
      }
      assert was[..|was|] == was;
    }
  }

  // ---------------------------------------------------------------------------------------------
  // A second fold does nothing.

  lemma FoldDiffTwice(d: Diff)
    ensures FoldDiff(FoldDiff(d)) == FoldDiff(d)
  {
    forall p ensures Simplify(Simplify(p)) == Simplify(p) {
      FoldIdempotent(p);
    }
    hide Simplify;
    if d.AddRite? {
      assert FoldNodes(FoldNodes(d.graph.nodes)) == FoldNodes(d.graph.nodes);
    } else if d.AddAffordance? {
      assert FoldPreds(FoldPreds(d.needs)) == FoldPreds(d.needs);
    }
  }

  lemma {:induction false} NodesNormal(nodes: seq<RiteNode>)
    ensures forall p :: p in PredsOfNodes(FoldNodes(nodes)) ==> Normal(p)
  {
    if nodes != [] {
      var init, last := nodes[..|nodes| - 1], nodes[|nodes| - 1];
      NodesNormal(init);
      assert FoldNodes(nodes)[..|nodes| - 1] == FoldNodes(init);
      if HasPred(last.op) {
        FoldNormal(last.op.pred);
      }
      hide Simplify, Normal;
    }
  }

  lemma DiffNormal(d: Diff)
    ensures forall p :: p in PredsOf(FoldDiff(d)) ==> Normal(p)
  {
    forall p ensures Normal(Simplify(p)) {
      FoldNormal(p);
    }
    hide Simplify, Normal;
    if d.AddRite? {
      NodesNormal(d.graph.nodes);
    }
  }

  lemma {:induction false} AllNormal(ds: seq<Diff>)
    ensures forall p :: p in AllPreds(FoldDiffs(ds)) ==> Normal(p)
  {
    if ds != [] {
      var init := ds[..|ds| - 1];
      AllNormal(init);
      DiffNormal(ds[|ds| - 1]);
      hide FoldDiff, PredsOf, Normal;
      assert FoldDiffs(ds)[..|ds| - 1] == FoldDiffs(init);
    }
  }

  /** Folding a folded document changes nothing and reports nothing. */
  lemma FoldDocIdempotent(ds: seq<Diff>)
    ensures FoldDiffs(FoldDiffs(ds)) == FoldDiffs(ds)
    ensures Changes(AllPreds(FoldDiffs(ds))) == 0
  {
    AllNormal(ds);
    var ps := AllPreds(FoldDiffs(ds));
    hide FoldDiff, AllPreds, Normal, Changes;
    forall i | 0 <= i < |ps| ensures Normal(ps[i]) {
      assert ps[i] in ps;
    }
    ChangesNone(ps);
    forall i | 0 <= i < |ds| ensures FoldDiffs(FoldDiffs(ds))[i] == FoldDiffs(ds)[i] {
      FoldDiffTwice(ds[i]);
    }
  }

  // ---------------------------------------------------------------------------------------------
  // Control flow.

  lemma LayoutFolded(nodes: seq<RiteNode>)
    ensures Layout(FoldNodes(nodes)) == FoldInstrs(Layout(nodes))
    ensures AnyLabeled(FoldNodes(nodes)) <==> AnyLabeled(nodes)
    ensures AnyOp(FoldNodes(nodes)) <==> AnyOp(nodes)
  {
    var r := FoldNodes(nodes);
    hide FoldOp;
    forall i | 0 <= i < |nodes| ensures r[i] in r && nodes[i] in nodes && r[i].Op? == nodes[i].Op? {
    }
    if AnyLabeled(nodes) {
      var i :| 0 <= i < |nodes| && nodes[i].Labeled?;
      assert r[i].Labeled?;
    }
    if AnyOp(nodes) {
      var i :| 0 <= i < |nodes| && nodes[i].Op?;
      assert r[i].Op?;
    }
  }

  lemma PcsFolded(instrs: seq<Instr>)
    ensures Pcs(FoldInstrs(instrs)) == Pcs(instrs)
  {
    hide FoldOp;
  }

  lemma {:induction false} OpsFolded(instrs: seq<Instr>)
    ensures forall pc :: pc in OpsOf(instrs) ==>
      pc in OpsOf(FoldInstrs(instrs)) && OpsOf(FoldInstrs(instrs))[pc] == FoldOp(OpsOf(instrs)[pc])
    ensures forall pc :: pc in OpsOf(FoldInstrs(instrs)) <==> pc in OpsOf(instrs)
  {
    hide FoldOp;
    PcsFolded(instrs);
    if instrs != [] {
      var init := instrs[..|instrs| - 1];
      OpsFolded(init);
      assert FoldInstrs(instrs)[..|instrs| - 1] == FoldInstrs(init);
    }
  }

  lemma EdgesFolded(pc: Pc, order: seq<Pc>, ops: Ops, folded: Ops)
    requires pc in ops && pc in folded && folded[pc] == FoldOp(ops[pc])
    requires forall q :: q in folded <==> q in ops
    ensures EdgesFrom(pc, order, folded) == EdgesFrom(pc, order, ops)
  {
    hide Simplify, NextPc;
  }

  lemma {:induction false} FirstErrorFolded(pcs: seq<Pc>, order: seq<Pc>, ops: Ops, folded: Ops)
    requires forall pc :: pc in pcs ==> pc in ops
    requires forall pc :: pc in ops ==> pc in folded && folded[pc] == FoldOp(ops[pc])
    requires forall q :: q in folded <==> q in ops
    ensures FirstEdgeError(pcs, order, folded) == FirstEdgeError(pcs, order, ops)
  {
    hide EdgesFrom, FoldOp;
    if pcs != [] {
      EdgesFolded(pcs[0], order, ops, folded);
      FirstErrorFolded(pcs[1..], order, ops, folded);
    }
  }

  lemma SuccFolded(order: seq<Pc>, ops: Ops, folded: Ops)
    requires forall pc :: pc in order ==> pc in ops && EdgesFrom(pc, order, ops).Ok?
    requires forall pc :: pc in ops ==> pc in folded && folded[pc] == FoldOp(ops[pc])
    requires forall q :: q in folded <==> q in ops
    ensures forall pc :: pc in order ==> EdgesFrom(pc, order, folded).Ok?
    ensures SuccOf(order, folded) == SuccOf(order, ops)
  {
    forall pc | pc in order ensures EdgesFrom(pc, order, folded) == EdgesFrom(pc, order, ops) {
      EdgesFolded(pc, order, ops, folded);
    }
    hide EdgesFrom, FoldOp;
  }

  /** The control-flow check answers the same on a folded graph, down to the error it reports. */
  lemma FoldKeepsVerdict(g: RiteGraph)
    ensures var folded := Verdict(g.(nodes := FoldNodes(g.nodes)));
      && (folded.Ok? <==> Verdict(g).Ok?)
      && (folded.Err? ==> folded.error == Verdict(g).error)
  {
    var instrs := Layout(g.nodes);
    LayoutFolded(g.nodes);
    PcsFolded(instrs);
    OpsFolded(instrs);
    var order, ops, folded := Pcs(instrs), OpsOf(instrs), OpsOf(FoldInstrs(instrs));
    hide Layout, FoldNodes, FoldInstrs, OpsOf, FoldOp, EdgesFrom, SuccOf, FirstOutside, ReachableSet, HasCycle, EdgesOf,
         AnyLabeled, AnyOp, FirstRepeat;
    FirstErrorFolded(order, order, ops, folded);
    if FirstEdgeError(order, order, ops).None? {
      SuccFolded(order, ops, folded);
    }
  }
}
