/** The control-flow check. */
module Cfg {
  // Every rite passes it before it is cooked.

  import opened Prelude
  import opened Links
  import opened Rites
  import opened Distinct

  datatype CfgError =
    | MixedLabeling
    | DuplicatePc(pc: Pc)
    | MissingEntry(pc: Pc)
    | MissingTarget(from: Pc, to: Pc)
    | FallOff(pc: Pc)
    | Unreachable(pc: Pc)
    | Cycle

  datatype RiteGraph = RiteGraph(entry: Pc, nodes: seq<RiteNode>)

  type Ops = map<Pc, RiteOp>
  type Succ = map<Pc, seq<Pc>>

  ghost predicate AnyLabeled(nodes: seq<RiteNode>) { exists n :: n in nodes && n.Labeled? }
  ghost predicate AnyOp(nodes: seq<RiteNode>) { exists n :: n in nodes && n.Op? }

  // ---------------------------------------------------------------------------------------------
  // Assigning pcs.

  /** Where two instructions share a pc the map keeps the later one. */
  function OpsOf(instrs: seq<Instr>): (ops: Ops)
    ensures forall pc :: pc in ops <==> pc in Pcs(instrs)
  {
    if instrs == [] then map[]
    else
      var init, last := instrs[..|instrs| - 1], instrs[|instrs| - 1];
      assert Pcs(instrs) == Pcs(init) + [last.pc];
      OpsOf(init)[last.pc := last.op]
  }

  lemma OpsOfNone()
    ensures OpsOf([]) == map[]
  {
  }

  /** Index of the first pc that already occurred. */
  ghost function FirstRepeat(order: seq<Pc>): (i: nat)
    ensures i <= |order|
    ensures NoDuplicates(order[..i])
    ensures i < |order| ==> order[i] in order[..i]
    ensures i == |order| <==> NoDuplicates(order)
  {
    if order == [] then 0
    else
      var init := order[..|order| - 1];
      var i := FirstRepeat(init);
      assert order[..|order| - 1] == init;
      if i < |init| then
        assert order[..i] == init[..i];
        assert order[i] == init[i];
        i
      else if order[|order| - 1] in init then |init|
      else
        assert order[..|order|] == order;
        |order|
  }

  lemma FirstRepeatAt(order: seq<Pc>, i: nat)
    requires i < |order| && NoDuplicates(order[..i]) && order[i] in order[..i]
    ensures FirstRepeat(order) == i
  {
    var j := FirstRepeat(order);
    if j < i {
      RepeatSeen(order, j, i);
    } else if i < j {
      RepeatSeen(order, i, j);
    }
  }

  lemma RepeatSeen(order: seq<Pc>, j: nat, end: nat)
    requires j < end <= |order| && order[j] in order[..j]
    ensures !NoDuplicates(order[..end])
  {
    var k :| 0 <= k < j && order[k] == order[j];
    assert order[..end][k] == order[..end][j];
  }

  lemma LayoutStep(nodes: seq<RiteNode>, k: nat)
    requires k < |nodes|
    ensures var instrs := Layout(nodes);
      && Pcs(instrs[..k + 1]) == Pcs(instrs[..k]) + [PcAt(nodes, k)]
      && OpsOf(instrs[..k + 1]) == OpsOf(instrs[..k])[PcAt(nodes, k) := nodes[k].op]
      && Pcs(instrs)[..k] == Pcs(instrs[..k])
  {
    var instrs := Layout(nodes);
    assert instrs[..k + 1][..k] == instrs[..k];
  }

  method AssignPcs(nodes: seq<RiteNode>) returns (r: Result<(seq<Pc>, Ops), CfgError>)
    ensures AnyLabeled(nodes) && AnyOp(nodes) ==> r == Err(MixedLabeling)
    ensures !(AnyLabeled(nodes) && AnyOp(nodes)) ==>
      var order := Pcs(Layout(nodes));
      r == if AnyLabeled(nodes) && !NoDuplicates(order) then Err(DuplicatePc(order[FirstRepeat(order)]))
           else Ok((order, OpsOf(Layout(nodes))))
  {
    var anyLabeled := exists n :: n in nodes && n.Labeled?;
    var anyOp := exists n :: n in nodes && n.Op?;
    if anyLabeled && anyOp {
      return Err(MixedLabeling);
    }
    hide OpsOf;
    ghost var instrs := Layout(nodes);
    OpsOfNone();
    var order: seq<Pc> := [];
    var ops: Ops := map[];
    assert instrs[..|nodes|] == instrs;
    if anyLabeled {
      for k := 0 to |nodes|
        invariant order == Pcs(instrs[..k]) && ops == OpsOf(instrs[..k]) && NoDuplicates(order)
      {
        assert nodes[k].Labeled?;
        var pc := nodes[k].pc;
        LayoutStep(nodes, k);
        if pc in ops {
          FirstRepeatAt(Pcs(instrs), k);
          return Err(DuplicatePc(pc));
        }
        ops := ops[pc := nodes[k].op];
        order := order + [pc];
      }
    } else {
      for k := 0 to |nodes|
        invariant order == Pcs(instrs[..k]) && ops == OpsOf(instrs[..k])
      {
        assert nodes[k].Op?;
        var pc := k % (U16_MAX + 1);
        LayoutStep(nodes, k);
        ops := ops[pc := nodes[k].op];
        order := order + [pc];
      }
    }
    return Ok((order, ops));
  }

  // ---------------------------------------------------------------------------------------------
  // Successors.

  function Successors(pc: Pc, op: RiteOp, next: Option<Pc>, ops: Ops): Result<seq<Pc>, CfgError> {
    match op
    case Halt(_) => Ok([])
    case Complete(_) => Ok([])
    case Branch(_, yes, no) =>
      if yes !in ops then Err(MissingTarget(pc, yes))
      else if no !in ops then Err(MissingTarget(pc, no))
      else Ok([yes, no])
    case Guard(_, fail) => WithFail(pc, fail, next, ops)
    case Spend(_, _, fail) => WithFail(pc, fail, next, ops)
    case _ => if next.None? then Err(FallOff(pc)) else Ok([next.value])
  }

  function WithFail(pc: Pc, fail: Pc, next: Option<Pc>, ops: Ops): Result<seq<Pc>, CfgError> {
    if fail !in ops then Err(MissingTarget(pc, fail))
    else if next.None? then Err(FallOff(pc))
    else Ok([next.value, fail])
  }

  function EdgesFrom(pc: Pc, order: seq<Pc>, ops: Ops): Result<seq<Pc>, CfgError>
    requires pc in ops
  {
    Successors(pc, ops[pc], NextPc(order, pc), ops)
  }

  /** The first error met walking the pcs in order, if any. */
  function FirstEdgeError(pcs: seq<Pc>, order: seq<Pc>, ops: Ops): (e: Option<CfgError>)
    requires forall pc :: pc in pcs ==> pc in ops
    ensures e.None? <==> forall pc :: pc in pcs ==> EdgesFrom(pc, order, ops).Ok?
  {
    if pcs == [] then None
    else
      var r := EdgesFrom(pcs[0], order, ops);
      if r.Err? then Some(r.error) else FirstEdgeError(pcs[1..], order, ops)
  }

  /** The successor table of a graph without edge errors. */
  function SuccOf(order: seq<Pc>, ops: Ops): (succ: Succ)
    requires forall pc :: pc in order ==> pc in ops && EdgesFrom(pc, order, ops).Ok?
    ensures forall pc :: pc in succ <==> pc in order
    ensures forall pc :: pc in order ==> succ[pc] == EdgesFrom(pc, order, ops).value
  {
    map pc | pc in order :: EdgesFrom(pc, order, ops).value
  }

  ghost function EdgesOf(succ: Succ): Edges {
    set a, b | a in succ && b in succ[a] :: (a, b)
  }

  // ---------------------------------------------------------------------------------------------
  // Reachability.

  ghost predicate IsReachable(succ: Succ, entry: Pc, seen: set<Pc>) {
    forall pc :: pc in seen <==> Path(EdgesOf(succ), entry, pc)
  }

  ghost function Universe(succ: Succ, entry: Pc): set<Pc> {
    (set e | e in EdgesOf(succ) :: e.1) + {entry}
  }

  /** Everything seen or waiting is reachable, and everything seen has its successors seen or waiting. */
  ghost predicate Searching(succ: Succ, entry: Pc, seen: set<Pc>, stack: seq<Pc>) {
    && seen <= Universe(succ, entry)
    && (forall pc :: pc in stack ==> pc in Universe(succ, entry))
    && (forall pc :: pc in seen || pc in stack ==> Path(EdgesOf(succ), entry, pc))
    && (entry in seen || entry in stack)
    && (forall e :: e in EdgesOf(succ) && e.0 in seen ==> e.1 in seen || e.1 in stack)
  }

  lemma SearchStarts(succ: Succ, entry: Pc)
    ensures Searching(succ, entry, {}, [entry])
  {
    PathRefl(EdgesOf(succ), entry);
  }

  lemma SearchSkips(succ: Succ, entry: Pc, seen: set<Pc>, rest: seq<Pc>, pc: Pc)
    requires Searching(succ, entry, seen, rest + [pc]) && pc in seen
    ensures Searching(succ, entry, seen, rest)
  {
    hide EdgesOf, Universe, Path;
    forall x | x in rest + [pc]
      ensures x in rest || x in seen
    {
    }
    forall x | x in rest ensures x in rest + [pc] {
    }
  }

  /** What a successor of a reachable pc is. */
  lemma SuccessorFacts(succ: Succ, entry: Pc, pc: Pc, q: Pc)
    requires pc in succ && q in succ[pc] && Path(EdgesOf(succ), entry, pc)
    ensures q in Universe(succ, entry) && Path(EdgesOf(succ), entry, q)
  {
    assert (pc, q) in EdgesOf(succ);
    PathStep(EdgesOf(succ), entry, pc, q);
  }

  lemma SearchVisits(succ: Succ, entry: Pc, seen: set<Pc>, rest: seq<Pc>, pc: Pc)
    requires Searching(succ, entry, seen, rest + [pc])
    ensures Searching(succ, entry, seen + {pc}, rest + if pc in succ then succ[pc] else [])
    ensures pc in Universe(succ, entry)
  {
    hide Universe, Path;
    var more := if pc in succ then succ[pc] else [];
    assert pc in rest + [pc];
    forall q | q in more
      ensures q in Universe(succ, entry) && Path(EdgesOf(succ), entry, q)
    {
      SuccessorFacts(succ, entry, pc, q);
    }
    forall x | x in rest
      ensures x in rest + [pc]
    {
    }
    forall e | e in EdgesOf(succ) && e.0 in seen + {pc}
      ensures e.1 in seen + {pc} || e.1 in rest + more
    {
      if e.0 != pc {
        assert e.1 in seen || e.1 in rest + [pc];
      }
    }
  }

  lemma SearchEnds(succ: Succ, entry: Pc, seen: set<Pc>)
    requires Searching(succ, entry, seen, [])
    ensures IsReachable(succ, entry, seen)
  {
    forall pc | Path(EdgesOf(succ), entry, pc)
      ensures pc in seen
    {
      ClosedUnderPath(EdgesOf(succ), seen, entry, pc);
    }
  }

  /** The worklist.  `seen` is exactly what `entry` reaches. */
  method Bfs(entry: Pc, succ: Succ) returns (seen: set<Pc>)
    ensures IsReachable(succ, entry, seen)
  {
    hide IsReachable, Searching, Universe;
    seen := {};
    var stack := [entry];
    SearchStarts(succ, entry);
    while stack != []
      invariant Searching(succ, entry, seen, stack)
      decreases |Universe(succ, entry) - seen|, |stack|
    {
      var pc := stack[|stack| - 1];
      var rest := stack[..|stack| - 1];
      assert stack == rest + [pc];
      stack := rest;
      if pc in seen {
        SearchSkips(succ, entry, seen, rest, pc);
        continue;
      }
      SearchVisits(succ, entry, seen, rest, pc);
      SubsetSize(Universe(succ, entry) - (seen + {pc}), Universe(succ, entry) - seen);
      seen := seen + {pc};
      if pc in succ {
        stack := stack + succ[pc];
      } else {
        assert stack == rest + [];
      }
    }
    SearchEnds(succ, entry, seen);
  }

  // ---------------------------------------------------------------------------------------------
  // Three-colour search.

  datatype Color = White | Gray | Black

  type Paint = map<Pc, Color>

  function ColorOf(color: Paint, pc: Pc): Color {
    if pc in color then color[pc] else White
  }

  ghost predicate HasCycle(edges: Edges) {
    exists e :: e in edges && Path(edges, e.1, e.0)
  }

  /** The gray pcs are the members of the walk being explored. */
  ghost predicate GrayWalk(edges: Edges, walk: seq<Pc>, color: Paint) {
    && (walk != [] ==> Walk(edges, walk))
    && (forall pc :: ColorOf(color, pc) == Gray <==> pc in walk)
  }

  /** Black pcs are finished: they are ranked above everything they lead to. */
  ghost predicate Finished(edges: Edges, color: Paint, rank: map<Pc, nat>) {
    && (forall pc :: ColorOf(color, pc) == Black <==> pc in rank)
    && (forall e :: e in edges && e.0 in rank ==> e.1 in rank && rank[e.1] < rank[e.0])
  }

  ghost function Whites(all: set<Pc>, color: Paint): set<Pc> {
    set pc | pc in all && ColorOf(color, pc) == White
  }

  /** Nothing black changes. */
  ghost predicate Extends(rank: map<Pc, nat>, more: map<Pc, nat>) {
    forall pc :: pc in rank ==> pc in more && more[pc] == rank[pc]
  }

  /** The last edge of the walk closes a cycle. */
  lemma ClosesCycle(edges: Edges, walk: seq<Pc>, q: Pc)
    requires Walk(edges, walk) && q in walk && (walk[|walk| - 1], q) in edges
    ensures HasCycle(edges)
  {
    var i :| 0 <= i < |walk| && walk[i] == q;
    var tail := walk[i..];
    assert Walk(edges, tail) && tail[0] == q && tail[|tail| - 1] == walk[|walk| - 1];
    var e := (walk[|walk| - 1], q);
    assert e in edges && Path(edges, e.1, e.0);
  }

  /** A rank that drops along every edge leaves no cycle. */
  lemma RankedAcyclic(edges: Edges, rank: map<Pc, nat>)
    requires forall e :: e in edges ==> e.0 in rank && e.1 in rank && rank[e.1] < rank[e.0]
    ensures !HasCycle(edges)
  {
    forall e | e in edges && Path(edges, e.1, e.0)
      ensures false
    {
      var p :| Walk(edges, p) && p[0] == e.1 && p[|p| - 1] == e.0;
      var i := 0;
      while i < |p| - 1
        invariant 0 <= i < |p| && p[i] in rank && rank[p[i]] <= rank[e.1]
      {
        assert (p[i], p[i + 1]) in edges;
        i := i + 1;
      }
    }
  }

  /** State of the search: gray pcs form the current walk, black pcs are ranked. */
  ghost predicate Exploring(edges: Edges, walk: seq<Pc>, color: Paint, rank: map<Pc, nat>) {
    GrayWalk(edges, walk, color) && Finished(edges, color, rank)
  }

  ghost predicate Extensible(edges: Edges, walk: seq<Pc>, pc: Pc) {
    walk != [] ==> (walk[|walk| - 1], pc) in edges
  }

  function Above(qs: seq<Pc>, rank: map<Pc, nat>): (r: nat)
    requires forall q :: q in qs ==> q in rank
    ensures forall q :: q in qs ==> rank[q] < r
  {
    if qs == [] then 0
    else
      var r := Above(qs[1..], rank);
      if rank[qs[0]] < r then r else rank[qs[0]] + 1
  }

  lemma Enter(edges: Edges, walk: seq<Pc>, color: Paint, rank: map<Pc, nat>, pc: Pc)
    requires Exploring(edges, walk, color, rank) && Extensible(edges, walk, pc)
    requires ColorOf(color, pc) == White
    ensures Exploring(edges, walk + [pc], color[pc := Gray], rank) && pc !in walk
  {
    assert Walk(edges, walk + [pc]);
  }

  lemma Leave(succ: Succ, walk: seq<Pc>, color: Paint, rank: map<Pc, nat>, pc: Pc)
    requires Exploring(EdgesOf(succ), walk + [pc], color, rank) && pc !in walk
    requires pc in succ ==> forall q :: q in succ[pc] ==> q in rank
    ensures var r := if pc in succ then Above(succ[pc], rank) else 0;
      Exploring(EdgesOf(succ), walk, color[pc := Black], rank[pc := r])
    ensures pc !in rank
  {
    var edges := EdgesOf(succ);
    assert pc in walk + [pc];
    if walk != [] {
      forall i | 0 <= i < |walk| - 1
        ensures (walk[i], walk[i + 1]) in edges
      {
        assert ((walk + [pc])[i], (walk + [pc])[i + 1]) in edges;
      }
    }
    forall x
      ensures ColorOf(color[pc := Black], x) == Gray <==> x in walk
    {
      assert x in walk + [pc] <==> x in walk || x == pc;
    }
  }

  lemma WhitesShrink(all: set<Pc>, color: Paint, pc: Pc)
    requires pc in all && ColorOf(color, pc) == White
    ensures Whites(all, color[pc := Gray]) < Whites(all, color)
    ensures |Whites(all, color[pc := Gray])| < |Whites(all, color)|
  {
    assert pc in Whites(all, color) && pc !in Whites(all, color[pc := Gray]);
    SubsetSize(Whites(all, color[pc := Gray]), Whites(all, color));
  }

  /** `visit`: colours `pc` gray, explores what it leads to and colours it black, or stops at a cycle. */
  method Visit(pc: Pc, color0: Paint, succ: Succ, ghost all: set<Pc>, ghost walk: seq<Pc>,
               ghost rank0: map<Pc, nat>)
    returns (found: bool, color: Paint, ghost rank: map<Pc, nat>)
    requires ColorOf(color0, pc) == White && pc in all
    requires forall e :: e in EdgesOf(succ) ==> e.1 in all
    requires Exploring(EdgesOf(succ), walk, color0, rank0) && Extensible(EdgesOf(succ), walk, pc)
    ensures found ==> HasCycle(EdgesOf(succ))
    ensures !found ==> Exploring(EdgesOf(succ), walk, color, rank) && Extends(rank0, rank) && pc in rank
    ensures !found ==> Whites(all, color) <= Whites(all, color0)
    decreases |Whites(all, color0)|
  {
    hide Exploring, HasCycle, Whites;
    ghost var edges := EdgesOf(succ);
    Enter(edges, walk, color0, rank0, pc);
    WhitesShrink(all, color0, pc);
    color, rank := color0[pc := Gray], rank0;
    if pc in succ {
      var qs := succ[pc];
      for k := 0 to |qs|
        invariant Exploring(edges, walk + [pc], color, rank) && Extends(rank0, rank)
        invariant forall j :: 0 <= j < k ==> qs[j] in rank
        invariant Whites(all, color) <= Whites(all, color0[pc := Gray])
      {
        var q := qs[k];
        assert (pc, q) in edges;
        Painted(edges, walk + [pc], color, rank, q);
        match ColorOf(color, q) {
          case Gray =>
            ClosesCycle(edges, walk + [pc], q);
            return true, color, rank;
          case White =>
            SubsetLe(Whites(all, color), Whites(all, color0[pc := Gray]));
            ghost var before := rank;
            found, color, rank := Visit(q, color, succ, all, walk + [pc], rank);
            if found {
              return;
            }
            assert forall j :: 0 <= j < k ==> qs[j] in before;
          case Black =>
        }
      }
    }
    Leave(succ, walk, color, rank, pc);
    WhitesRest(all, color, pc);
    rank := rank[pc := if pc in succ then Above(succ[pc], rank) else 0];
    color := color[pc := Black];
    found := false;
  }

  lemma Painted(edges: Edges, walk: seq<Pc>, color: Paint, rank: map<Pc, nat>, q: Pc)
    requires Exploring(edges, walk, color, rank) && walk != []
    ensures Walk(edges, walk)
    ensures ColorOf(color, q) == Gray <==> q in walk
    ensures ColorOf(color, q) == Black <==> q in rank
  {
  }

  lemma WhitesRest(all: set<Pc>, color: Paint, pc: Pc)
    ensures Whites(all, color[pc := Black]) <= Whites(all, color)
  {
  }

  /** `has_cycle`. */
  method FindCycle(order: seq<Pc>, succ: Succ) returns (found: bool)
    requires forall pc :: pc in succ ==> pc in order
    ensures found <==> HasCycle(EdgesOf(succ))
  {
    ghost var edges := EdgesOf(succ);
    ghost var all := (set e | e in edges :: e.1) + Elements(order);
    var color: Paint := map[];
    for k := 0 to |order|
      invariant forall pc :: pc in color ==> color[pc] == White
    {
      color := color[order[k] := White];
    }
    ghost var rank: map<Pc, nat> := map[];
    assert Exploring(edges, [], color, rank);
    hide Exploring, HasCycle, Whites, EdgesOf;
    for k := 0 to |order|
      invariant Exploring(edges, [], color, rank)
      invariant forall j :: 0 <= j < k ==> order[j] in rank
    {
      if ColorOf(color, order[k]) == White {
        ghost var before := rank;
        found, color, rank := Visit(order[k], color, succ, all, [], rank);
        if found {
          return true;
        }
        assert forall j :: 0 <= j < k ==> order[j] in before;
      } else {
        NoneGray(edges, color, rank, order[k]);
      }
    }
    AllRanked(order, succ, color, rank);
    return false;
  }

  lemma NoneGray(edges: Edges, color: Paint, rank: map<Pc, nat>, pc: Pc)
    requires Exploring(edges, [], color, rank) && ColorOf(color, pc) != White
    ensures pc in rank
  {
    assert pc !in [];
  }

  lemma AllRanked(order: seq<Pc>, succ: Succ, color: Paint, rank: map<Pc, nat>)
    requires Exploring(EdgesOf(succ), [], color, rank)
    requires forall pc :: pc in succ ==> pc in order
    requires forall pc :: pc in order ==> pc in rank
    ensures !HasCycle(EdgesOf(succ))
  {
    RankedAcyclic(EdgesOf(succ), rank);
  }

  // ---------------------------------------------------------------------------------------------
  // The check.

  /** The first pc of `order` outside `seen`. */
  function FirstOutside(order: seq<Pc>, seen: set<Pc>): (pc: Option<Pc>)
    ensures pc.None? <==> forall x :: x in order ==> x in seen
  {
    if order == [] then None
    else if order[0] !in seen then Some(order[0])
    else FirstOutside(order[1..], seen)
  }

  ghost function ReachableSet(succ: Succ, entry: Pc): (seen: set<Pc>)
    ensures IsReachable(succ, entry, seen)
  {
    ReachableSubset(succ, entry);
    set pc | pc in Universe(succ, entry) && Path(EdgesOf(succ), entry, pc)
  }

  lemma ReachableSubset(succ: Succ, entry: Pc)
    ensures forall pc :: Path(EdgesOf(succ), entry, pc) ==> pc in Universe(succ, entry)
  {
    forall pc | Path(EdgesOf(succ), entry, pc)
      ensures pc in Universe(succ, entry)
    {
      ClosedUnderPath(EdgesOf(succ), Universe(succ, entry), entry, pc);
    }
  }

  /** What the check answers, error cases in the order they are looked for. */
  ghost function Verdict(g: RiteGraph): Result<Ops, CfgError> {
    var instrs := Layout(g.nodes);
    var order, ops := Pcs(instrs), OpsOf(instrs);
    if AnyLabeled(g.nodes) && AnyOp(g.nodes) then Err(MixedLabeling)
    else if AnyLabeled(g.nodes) && !NoDuplicates(order) then Err(DuplicatePc(order[FirstRepeat(order)]))
    else if g.entry !in ops then Err(MissingEntry(g.entry))
    else if FirstEdgeError(order, order, ops).Some? then Err(FirstEdgeError(order, order, ops).value)
    else
      var succ := SuccOf(order, ops);
      var lost := FirstOutside(order, ReachableSet(succ, g.entry));
      if lost.Some? then Err(Unreachable(lost.value))
      else if HasCycle(EdgesOf(succ)) then Err(Cycle)
      else Ok(ops)
  }

  method BuildSucc(order: seq<Pc>, ops: Ops) returns (r: Result<Succ, CfgError>)
    requires forall pc :: pc in order ==> pc in ops
    ensures r == if FirstEdgeError(order, order, ops).Some? then Err(FirstEdgeError(order, order, ops).value)
                 else Ok(SuccOf(order, ops))
  {
    hide EdgesFrom;
    var succ: Succ := map[];
    for k := 0 to |order|
      invariant FirstEdgeError(order[k..], order, ops) == FirstEdgeError(order, order, ops)
      invariant forall pc :: pc in succ <==> pc in order[..k]
      invariant forall pc :: pc in succ ==> pc in ops && EdgesFrom(pc, order, ops) == Ok(succ[pc])
    {
      var pc := order[k];
      assert order[k..][0] == pc && order[k..][1..] == order[k + 1..];
      assert order[..k + 1] == order[..k] + [pc];
      var edges := EdgesFrom(pc, order, ops);
      if edges.Err? {
        return Err(edges.error);
      }
      succ := succ[pc := edges.value];
    }
    assert order[..|order|] == order;
    assert succ == SuccOf(order, ops);
    return Ok(succ);
  }

  method Lost(order: seq<Pc>, seen: set<Pc>) returns (pc: Option<Pc>)
    ensures pc == FirstOutside(order, seen)
  {
    for k := 0 to |order|
      invariant FirstOutside(order[k..], seen) == FirstOutside(order, seen)
    {
      assert order[k..][0] == order[k] && order[k..][1..] == order[k + 1..];
      if order[k] !in seen {
        return Some(order[k]);
      }
    }
    return None;
  }

  /** `check_rite_cfg`. */
  method CheckRiteCfg(g: RiteGraph) returns (r: Result<Ops, CfgError>)
    ensures r == Verdict(g)
  {
    hide OpsOf, HasCycle, EdgesOf, IsReachable, FirstRepeat, Layout, FirstOutside, FirstEdgeError, SuccOf,
         ReachableSet, AnyLabeled, AnyOp;
    var laid := AssignPcs(g.nodes);
    if laid.Err? {
      return Err(laid.error);
    }
    var (order, ops) := laid.value;
    if g.entry !in ops {
      return Err(MissingEntry(g.entry));
    }
    var built := BuildSucc(order, ops);
    if built.Err? {
      return Err(built.error);
    }
    var succ := built.value;
    var seen := Bfs(g.entry, succ);
    SameReachable(succ, g.entry, seen, ReachableSet(succ, g.entry));
    var lost := Lost(order, seen);
    if lost.Some? {
      return Err(Unreachable(lost.value));
    }
    var cyclic := FindCycle(order, succ);
    return if cyclic then Err(Cycle) else Ok(ops);
  }

  lemma SameReachable(succ: Succ, entry: Pc, a: set<Pc>, b: set<Pc>)
    requires IsReachable(succ, entry, a) && IsReachable(succ, entry, b)
    ensures a == b
  {
  }

  // ---------------------------------------------------------------------------------------------
  // What the verdict means.

  /** With distinct pcs the successor table is the control flow of the layout. */
  lemma {:induction false} OpsOfDistinct(instrs: seq<Instr>)
    requires NoDuplicates(Pcs(instrs))
    ensures forall i :: 0 <= i < |instrs| ==> OpsOf(instrs)[instrs[i].pc] == instrs[i].op
  {
    if instrs != [] {
      var init, last := instrs[..|instrs| - 1], instrs[|instrs| - 1];
      assert Pcs(init) == Pcs(instrs)[..|init|];
      OpsOfDistinct(init);
      forall i | 0 <= i < |instrs|
        ensures OpsOf(instrs)[instrs[i].pc] == instrs[i].op
      {
        if i < |init| {
          assert init[i] == instrs[i] && Pcs(instrs)[i] != last.pc;
        }
      }
    }
  }

  lemma SuccessorsOk(pc: Pc, op: RiteOp, next: Option<Pc>, ops: Ops)
    ensures var r := Successors(pc, op, next, ops);
      && (r.Ok? <==> (forall q :: q in Jumps(op) ==> q in ops) && (FallsThrough(op) ==> next.Some?))
      && (r.Ok? ==> forall q :: q in r.value <==> q in Jumps(op) || (FallsThrough(op) && next == Some(q)))
  {
    if op.Branch? {
      assert Jumps(op)[0] == op.yes && Jumps(op)[1] == op.no;
    } else if op.Guard? || op.Spend? {
      assert Jumps(op)[0] == op.fail;
    }
  }

  /** The pcs are pairwise distinct for every labeled graph that passes, and for every unlabeled graph
      short enough for `u16`. */
  ghost predicate Fits(nodes: seq<RiteNode>) { AnyLabeled(nodes) || |nodes| <= U16_MAX + 1 }

  lemma UnlabeledDistinct(nodes: seq<RiteNode>)
    requires !AnyLabeled(nodes) && |nodes| <= U16_MAX + 1
    ensures NoDuplicates(Pcs(Layout(nodes)))
  {
    forall i | 0 <= i < |nodes|
      ensures Pcs(Layout(nodes))[i] == i
    {
      assert nodes[i] in nodes;
    }
  }

  ghost predicate EdgesOk(instrs: seq<Instr>) {
    forall pc :: pc in Pcs(instrs) ==> EdgesFrom(pc, Pcs(instrs), OpsOf(instrs)).Ok?
  }

  /** Where pcs are distinct, the checks on single edges are those of the layout. */
  lemma EdgesOkIffLands(instrs: seq<Instr>)
    requires NoDuplicates(Pcs(instrs))
    ensures EdgesOk(instrs) <==> Lands(instrs)
  {
    var order, ops := Pcs(instrs), OpsOf(instrs);
    forall i | 0 <= i < |instrs|
      ensures EdgesFrom(order[i], order, ops).Ok? <==>
        (forall q :: q in Jumps(instrs[i].op) ==> q in order)
        && (FallsThrough(instrs[i].op) ==> i + 1 < |instrs|)
    {
      EdgesAt(instrs, i);
    }
    hide EdgesFrom, OpsOf, Jumps, FallsThrough;
  }

  lemma EdgesAt(instrs: seq<Instr>, i: nat)
    requires NoDuplicates(Pcs(instrs)) && i < |instrs|
    ensures var order, ops := Pcs(instrs), OpsOf(instrs);
      var r := EdgesFrom(instrs[i].pc, order, ops);
      && (r.Ok? <==> (forall q :: q in Jumps(instrs[i].op) ==> q in order)
                     && (FallsThrough(instrs[i].op) ==> i + 1 < |instrs|))
      && (r.Ok? ==> forall q :: q in r.value <==>
           q in Jumps(instrs[i].op)
           || (FallsThrough(instrs[i].op) && i + 1 < |instrs| && q == instrs[i + 1].pc))
  {
    OpsOfDistinct(instrs);
    Located(instrs, i);
    hide OpsOf, Position, NextPc;
    SuccessorsOk(instrs[i].pc, instrs[i].op, NextPc(Pcs(instrs), instrs[i].pc), OpsOf(instrs));
  }

  /** `succ` lists, for every instruction, its jumps and its fall-through. */
  ghost predicate ListsFlow(instrs: seq<Instr>, succ: Succ) {
    && (forall pc :: pc in succ <==> pc in Pcs(instrs))
    && (forall i, q :: 0 <= i < |instrs| ==>
          (q in succ[Pcs(instrs)[i]] <==>
             q in Jumps(instrs[i].op)
             || (FallsThrough(instrs[i].op) && i + 1 < |instrs| && q == instrs[i + 1].pc)))
  }

  lemma FlowFrom(instrs: seq<Instr>, succ: Succ)
    requires ListsFlow(instrs, succ)
    ensures forall e :: e in EdgesOf(succ) ==> e in Flow(instrs)
  {
    forall e | e in EdgesOf(succ)
      ensures e in Flow(instrs)
    {
      var i :| 0 <= i < |instrs| && Pcs(instrs)[i] == e.0;
      assert e == (instrs[i].pc, e.1);
    }
  }

  lemma FlowTo(instrs: seq<Instr>, succ: Succ)
    requires ListsFlow(instrs, succ)
    ensures forall e :: e in Flow(instrs) ==> e in EdgesOf(succ)
  {
    forall e | e in Flow(instrs)
      ensures e in EdgesOf(succ)
    {
      if i, q :| 0 <= i < |instrs| && q in Jumps(instrs[i].op) && e == (instrs[i].pc, q) {
        assert Pcs(instrs)[i] in succ;
      } else {
        var i :| 0 <= i < |instrs| - 1 && FallsThrough(instrs[i].op)
          && e == (instrs[i].pc, instrs[i + 1].pc);
        assert Pcs(instrs)[i] in succ;
      }
    }
  }

  lemma ListedEdges(instrs: seq<Instr>, succ: Succ)
    requires ListsFlow(instrs, succ)
    ensures EdgesOf(succ) == Flow(instrs)
  {
    FlowFrom(instrs, succ);
    FlowTo(instrs, succ);
    hide EdgesOf, Flow, ListsFlow;
  }

  lemma SameEdges(instrs: seq<Instr>)
    requires NoDuplicates(Pcs(instrs)) && EdgesOk(instrs)
    ensures EdgesOf(SuccOf(Pcs(instrs), OpsOf(instrs))) == Flow(instrs)
  {
    hide EdgesFrom, OpsOf, Jumps, FallsThrough, EdgesOf, Flow;
    var succ := SuccOf(Pcs(instrs), OpsOf(instrs));
    forall i, q | 0 <= i < |instrs|
      ensures q in succ[Pcs(instrs)[i]] <==>
        q in Jumps(instrs[i].op)
        || (FallsThrough(instrs[i].op) && i + 1 < |instrs| && q == instrs[i + 1].pc)
    {
      EdgesAt(instrs, i);
    }
    ListedEdges(instrs, succ);
  }

  /** A graph is accepted exactly when its labeling is uniform, its pcs are distinct, its entry and
      every jump and fall-through target exist, every node is reachable from the entry, and its control
      flow has no cycle.  The one side condition is that unlabeled nodes do not outnumber `u16`. */
  lemma AcceptedIffSound(g: RiteGraph)
    requires Fits(g.nodes)
    ensures Verdict(g).Ok? <==> !(AnyLabeled(g.nodes) && AnyOp(g.nodes)) && Sound(g.entry, Layout(g.nodes))
    ensures Verdict(g).Ok? ==> Verdict(g).value == OpsOf(Layout(g.nodes))
  {
    var instrs := Layout(g.nodes);
    if !AnyLabeled(g.nodes) {
      UnlabeledDistinct(g.nodes);
    }
    VerdictOk(g);
    hide *;
    if NoDuplicates(Pcs(instrs)) {
      PassesIffSound(g.entry, instrs);
    }
    SoundDistinct(g.entry, instrs);
  }

  lemma SoundDistinct(entry: Pc, instrs: seq<Instr>)
    ensures Sound(entry, instrs) ==> NoDuplicates(Pcs(instrs))
  {
  }

  /** The checks made once pcs are assigned. */
  ghost predicate Passes(entry: Pc, instrs: seq<Instr>) {
    var order, ops := Pcs(instrs), OpsOf(instrs);
    && entry in order
    && EdgesOk(instrs)
    && FirstOutside(order, ReachableSet(SuccOf(order, ops), entry)).None?
    && !HasCycle(EdgesOf(SuccOf(order, ops)))
  }

  lemma VerdictOk(g: RiteGraph)
    ensures var instrs := Layout(g.nodes);
      Verdict(g).Ok? <==>
        && !(AnyLabeled(g.nodes) && AnyOp(g.nodes))
        && (AnyLabeled(g.nodes) ==> NoDuplicates(Pcs(instrs)))
        && Passes(g.entry, instrs)
    ensures Verdict(g).Ok? ==> Verdict(g).value == OpsOf(Layout(g.nodes))
  {
    hide AnyLabeled, AnyOp, EdgesFrom, SuccOf, EdgesOf, ReachableSet, HasCycle, FirstRepeat, FirstOutside, Layout;
  }

  lemma PassesIffSound(entry: Pc, instrs: seq<Instr>)
    requires NoDuplicates(Pcs(instrs))
    ensures Passes(entry, instrs) <==> Sound(entry, instrs)
  {
    hide EdgesOk, SuccOf, EdgesOf, ReachableSet, HasCycle, FirstOutside, Lands, Path, Flow, Acyclic;
    EdgesOkIffLands(instrs);
    if EdgesOk(instrs) {
      SameEdges(instrs);
      Searched(instrs, entry, Flow(instrs));
    }
  }

  /** The two searches decide reachability and acyclicity of the graph they walk. */
  lemma Searched(instrs: seq<Instr>, entry: Pc, flow: Edges)
    requires EdgesOk(instrs) && EdgesOf(SuccOf(Pcs(instrs), OpsOf(instrs))) == flow
    ensures var succ := SuccOf(Pcs(instrs), OpsOf(instrs));
      && (FirstOutside(Pcs(instrs), ReachableSet(succ, entry)).None? <==>
            forall pc :: pc in Pcs(instrs) ==> Path(flow, entry, pc))
      && (HasCycle(EdgesOf(succ)) <==> !Acyclic(flow))
  {
    hide OpsOf, EdgesOf, Flow, Path, ReachableSet, SuccOf, EdgesFrom;
    var succ := SuccOf(Pcs(instrs), OpsOf(instrs));
    assert IsReachable(succ, entry, ReachableSet(succ, entry));
  }
}
