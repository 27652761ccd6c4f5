/** The stack interpreter for predicate bytecode, with its two op budgets. */
module Eval {
  import opened Prelude
  import opened Atoms
  import opened Compile

  /** Remaining ops this tick and this evaluation. */
  datatype Meter = Meter(tick: nat, eval: nat)

  type Verdict = Result<bool, RejectReason>

  datatype Run = Run(verdict: Verdict, scanPc: nat, meter: Meter)

  predicate Spent(m: Meter) { m.tick == 0 || m.eval == 0 }

  function Charge(m: Meter): Meter
    requires !Spent(m)
  {
    Meter(m.tick - 1, m.eval - 1)
  }

  function Top(stack: seq<bool>): bool {
    if stack == [] then false else stack[|stack| - 1]
  }

  function Rest(stack: seq<bool>): seq<bool> {
    if stack == [] then [] else stack[..|stack| - 1]
  }

  function PushOp(op: Op, stack: seq<bool>, prog: Program, ctx: Ctx, other: Option<Sigil>): seq<bool>
    requires op.PushAtom? || op.AndOp? || op.OrOp? || op.NotOp?
  {
    match op
    case PushAtom(i) =>
      stack + [if i < |prog.atoms| then EvalAtom(prog.atoms[i], ctx, other) else false]
    case AndOp => Rest(Rest(stack)) + [Top(Rest(stack)) && Top(stack)]
    case OrOp => Rest(Rest(stack)) + [Top(Rest(stack)) || Top(stack)]
    case NotOp => Rest(stack) + [!Top(stack)]
  }

  function Truncated(neigh: seq<Sigil>): seq<Sigil> {
    if |neigh| > RELATED_SCAN_CAP then neigh[..RELATED_SCAN_CAP] else neigh
  }

  function Counted(scan: Scan, hits: int): bool {
    match scan.count
    case None => hits > 0
    case Some((cmp, n)) => Compare(hits, cmp, n)
  }

  /** Run `ops` from the given stack. */
  function RunOps(ops: seq<Op>, stack: seq<bool>, prog: Program, ctx: Ctx, other: Option<Sigil>,
                  scanPc: nat, m: Meter): (run: Run)
    ensures run.meter.eval <= m.eval && run.meter.tick <= m.tick
    decreases m.eval, 0, |ops|
  {
    if ops == [] then Run(Ok(Top(stack)), scanPc, m)
    else if Spent(m) then Run(Err(Budget), scanPc, m)
    else
      var c := Charge(m);
      match ops[0]
      case Halt => Run(Ok(Top(stack)), scanPc, c)
      case ExistsOp => RunScanOp(ops[1..], stack, prog, ctx, other, scanPc, c)
      case CountOp => RunScanOp(ops[1..], stack, prog, ctx, other, scanPc, c)
      case op => RunOps(ops[1..], PushOp(op, stack, prog, ctx, other), prog, ctx, other, scanPc, c)
  }

  /** A scan op consumes the next payload; without one it pushes false. */
  function RunScanOp(rest: seq<Op>, stack: seq<bool>, prog: Program, ctx: Ctx, other: Option<Sigil>,
                     scanPc: nat, m: Meter): (run: Run)
    ensures run.meter.eval <= m.eval && run.meter.tick <= m.tick
    decreases m.eval, 3, 0
  {
    if scanPc >= |prog.scans| then
      RunOps(rest, stack + [false], prog, ctx, other, scanPc, m)
    else
      var s := RunScan(prog.scans[scanPc], prog, ctx, other, m);
      match s.verdict
      case Err(e) => Run(Err(e), scanPc + 1, s.meter)
      case Ok(b) => RunOps(rest, stack + [b], prog, ctx, other, scanPc + 1, s.meter)
  }

  function RunScan(scan: Scan, prog: Program, ctx: Ctx, other: Option<Sigil>, m: Meter): (run: Run)
    ensures run.meter.eval <= m.eval && run.meter.tick <= m.tick
    decreases m.eval, 2, 0
  {
    match Resolve(scan.of, ctx, other)
    case None => Run(Ok(false), 0, m)
    case Some(of) =>
      RunNeighbors(scan, Truncated(ctx.store.related(of, scan.rel)), 0, prog, ctx, m)
  }

  /** Evaluate the nested chunk for each neighbour, each time from a fresh scan counter. */
  function RunNeighbors(scan: Scan, neigh: seq<Sigil>, hits: int, prog: Program, ctx: Ctx, m: Meter)
    : (run: Run)
    ensures run.meter.eval <= m.eval && run.meter.tick <= m.tick
    decreases m.eval, 1, |neigh|
  {
    if neigh == [] then Run(Ok(Counted(scan, hits)), 0, m)
    else
      var s := RunOps(scan.chunk, [], prog, ctx, Some(neigh[0]), 0, m);
      match s.verdict
      case Err(e) => Run(Err(e), 0, s.meter)
      case Ok(b) =>
        RunNeighbors(scan, neigh[1..], if b then ClampI32(hits + 1) else hits, prog, ctx, s.meter)
  }

  /** One evaluation: a fresh per-evaluation cap against the remaining tick budget. */
  function RunPred(prog: Program, ctx: Ctx, tick: nat): (Verdict, nat) {
    var run := RunOps(prog.ops, [], prog, ctx, None, 0, Meter(tick, PRED_OPS_PER_EVAL));
    (run.verdict, run.meter.tick)
  }

  // ---------------------------------------------------------------------------------------------
  // The interpreter's loops.

  /** `eval_chunk`. */
  method EvalChunk(ops: seq<Op>, prog: Program, ctx: Ctx, other: Option<Sigil>, scanPc0: nat, m0: Meter)
    returns (verdict: Verdict, scanPc: nat, m: Meter)
    ensures Run(verdict, scanPc, m) == RunOps(ops, [], prog, ctx, other, scanPc0, m0)
    decreases m0.eval, 0
  {
    var stack: seq<bool> := [];
    scanPc, m := scanPc0, m0;
    for i := 0 to |ops|
      invariant m.eval <= m0.eval
      invariant RunOps(ops[i..], stack, prog, ctx, other, scanPc, m)
        == RunOps(ops, [], prog, ctx, other, scanPc0, m0)
    {
      assert ops[i..][0] == ops[i] && ops[i..][1..] == ops[i + 1..];
      if m.tick == 0 || m.eval == 0 {
        return Err(Budget), scanPc, m;
      }
      m := Meter(m.tick - 1, m.eval - 1);
      var op := ops[i];
      if op.Halt? {
        return Ok(Top(stack)), scanPc, m;
      } else if op.ExistsOp? || op.CountOp? {
        if scanPc >= |prog.scans| {
          stack := stack + [false];
          continue;
        }
        var scan := prog.scans[scanPc];
        scanPc := scanPc + 1;
        verdict, m := EvalScan(scan, prog, ctx, other, m);
        if verdict.Err? {
          return verdict, scanPc, m;
        }
        stack := stack + [verdict.value];
      } else {
        stack := PushOp(op, stack, prog, ctx, other);
      }
    }
    return Ok(Top(stack)), scanPc, m;
  }

  /** `eval_scan`. */
  method EvalScan(scan: Scan, prog: Program, ctx: Ctx, other: Option<Sigil>, m0: Meter)
    returns (verdict: Verdict, m: Meter)
    ensures verdict == RunScan(scan, prog, ctx, other, m0).verdict
    ensures m == RunScan(scan, prog, ctx, other, m0).meter
    decreases m0.eval, 1
  {
    m := m0;
    var of := Resolve(scan.of, ctx, other);
    if of.None? {
      return Ok(false), m;
    }
    var neigh := ctx.store.related(of.value, scan.rel);
    if |neigh| > RELATED_SCAN_CAP {
      neigh := neigh[..RELATED_SCAN_CAP];
    }
    var hits := 0;
    for k := 0 to |neigh|
      invariant m.eval <= m0.eval
      invariant RunNeighbors(scan, neigh[k..], hits, prog, ctx, m)
        == RunNeighbors(scan, neigh, 0, prog, ctx, m0)
    {
      assert neigh[k..][0] == neigh[k] && neigh[k..][1..] == neigh[k + 1..];
      var nested;
      verdict, nested, m := EvalChunk(scan.chunk, prog, ctx, Some(neigh[k]), 0, m);
      if verdict.Err? {
        return verdict, m;
      }
      if verdict.value {
        hits := ClampI32(hits + 1);
      }
    }
    return Ok(Counted(scan, hits)), m;
  }

  /** `eval_pred`. */
  method EvalPred(prog: Program, ctx: Ctx, tick0: nat) returns (verdict: Verdict, tick: nat)
    ensures (verdict, tick) == RunPred(prog, ctx, tick0)
  {
    var scanPc, m;
    verdict, scanPc, m := EvalChunk(prog.ops, prog, ctx, None, 0, Meter(tick0, PRED_OPS_PER_EVAL));
    tick := m.tick;
  }
}
