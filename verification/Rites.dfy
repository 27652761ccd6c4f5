/** Rite graphs as authored and as laid out for the machine. */
module Rites {
  import opened Prelude
  import opened Pred
  import opened Space
  import opened Links
  import opened Distinct

  type Pc = nat

  datatype Status = Success | Fail

  datatype BindSrc = BindTarget | BindThis | BindRelated(rel: Rel)

  datatype RiteOp =
    | Halt(status: Status)
    | Complete(status: Status)
    | Guard(pred: Pred, fail: Pc)
    | Spend(res: Name, amount: int, fail: Pc)
    | Branch(pred: Pred, yes: Pc, no: Pc)
    | Wait(ticks: nat, channel: Option<Channel>)
    | Emit(kind: Name)
    | Bind(src: BindSrc)
    | Setq(slot: Slot, res: Name, amount: int)
    | RelAdd(a: Slot, rel: Rel, b: Slot)
    | RelDel(a: Slot, rel: Rel, b: Slot)
    | Awake(slot: Slot)
    | Spawn(template: Name)
    | PhysReq(lin: Vec3, ang: Vec3)

  datatype RiteNode = Op(op: RiteOp) | Labeled(pc: Pc, op: RiteOp)

  /** One laid-out instruction. */
  datatype Instr = Instr(pc: Pc, op: RiteOp)

  /** `i as u16` for an unlabeled node. */
  function PcAt(nodes: seq<RiteNode>, i: nat): Pc
    requires i < |nodes|
  {
    if nodes[i].Labeled? then nodes[i].pc else i % (U16_MAX + 1)
  }

  function Layout(nodes: seq<RiteNode>): (instrs: seq<Instr>)
    ensures |instrs| == |nodes|
    ensures forall i :: 0 <= i < |nodes| ==> instrs[i] == Instr(PcAt(nodes, i), nodes[i].op)
  {
    seq(|nodes|, i requires 0 <= i < |nodes| => Instr(PcAt(nodes, i), nodes[i].op))
  }

  function Pcs(instrs: seq<Instr>): (order: seq<Pc>)
    ensures |order| == |instrs|
    ensures forall i :: 0 <= i < |instrs| ==> order[i] == instrs[i].pc
  {
    seq(|instrs|, i requires 0 <= i < |instrs| => instrs[i].pc)
  }

  /** The op ends the rite. */
  predicate Ends(op: RiteOp) { op.Halt? || op.Complete? }

  /** The op evaluates a predicate. */
  predicate HasPred(op: RiteOp) { op.Guard? || op.Branch? }

  /** The op can continue with the next instruction in layout order. */
  predicate FallsThrough(op: RiteOp) { !Ends(op) && !op.Branch? }

  /** The pcs the op names, in the order the checker looks at them. */
  function Jumps(op: RiteOp): seq<Pc> {
    match op
    case Guard(_, fail) => [fail]
    case Spend(_, _, fail) => [fail]
    case Branch(_, yes, no) => [yes, no]
    case _ => []
  }

  /** Control flow: a jump from instruction `i`, or the step to its neighbour in layout order. */
  ghost function Flow(instrs: seq<Instr>): Edges {
    (set i, q | 0 <= i < |instrs| && q in Jumps(instrs[i].op) :: (instrs[i].pc, q))
    + (set i | 0 <= i < |instrs| - 1 && FallsThrough(instrs[i].op) :: (instrs[i].pc, instrs[i + 1].pc))
  }

  ghost predicate Acyclic(edges: Edges) {
    forall e :: e in edges ==> !Path(edges, e.1, e.0)
  }

  /** Every jump lands on an instruction, and the last one does not fall off the end. */
  ghost predicate Lands(instrs: seq<Instr>) {
    && (forall i, q :: 0 <= i < |instrs| && q in Jumps(instrs[i].op) ==> q in Pcs(instrs))
    && (forall i :: 0 <= i < |instrs| && FallsThrough(instrs[i].op) ==> i + 1 < |instrs|)
  }

  /** What a laid-out rite must satisfy to be run. */
  ghost predicate Sound(entry: Pc, instrs: seq<Instr>) {
    && NoDuplicates(Pcs(instrs))
    && entry in Pcs(instrs)
    && Lands(instrs)
    && (forall pc :: pc in Pcs(instrs) ==> Path(Flow(instrs), entry, pc))
    && Acyclic(Flow(instrs))
  }

  /** The pc after the first instruction at `pc`. */
  function NextPc(order: seq<Pc>, pc: Pc): Option<Pc> {
    match Position(order, pc)
    case None => None
    case Some(i) => if i + 1 < |order| then Some(order[i + 1]) else None
  }

  /** The first instruction at `pc`: what the machine runs. */
  function OpAt(instrs: seq<Instr>, pc: Pc): Option<RiteOp> {
    match Position(Pcs(instrs), pc)
    case None => None
    case Some(i) => Some(instrs[i].op)
  }

  lemma PositionUnique(order: seq<Pc>, i: nat)
    requires NoDuplicates(order) && i < |order|
    ensures Position(order, order[i]) == Some(i)
  {
    var j := Position(order, order[i]).value;
    assert order[j] == order[i];
  }

  /** With distinct pcs an instruction is found where it stands, and so is its neighbour. */
  lemma Located(instrs: seq<Instr>, i: nat)
    requires NoDuplicates(Pcs(instrs)) && i < |instrs|
    ensures OpAt(instrs, instrs[i].pc) == Some(instrs[i].op)
    ensures NextPc(Pcs(instrs), instrs[i].pc) == if i + 1 < |instrs| then Some(instrs[i + 1].pc) else None
  {
    PositionUnique(Pcs(instrs), i);
  }
}
