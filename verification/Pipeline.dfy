/** Compiler correctness. */
module Pipeline {
  // Compiled bytecode computes the rewired predicate and charges exactly its price; that is the authored meaning and
  // cost exactly when the wiring says so.

  import opened Prelude
  import opened Pred
  import opened Atoms
  import opened Compile
  import opened Eval
  import opened Meaning
  import opened Wiring

  predicate Affords(m: Meter, cost: nat) { cost <= m.tick && cost <= m.eval }

  function Less(m: Meter, cost: nat): Meter
    requires Affords(m, cost)
  {
    Meter(m.tick - cost, m.eval - cost)
  }

  /** What is left once the scarcer budget has run out. */
  function Drained(m: Meter): Meter {
    if m.tick <= m.eval then Meter(0, m.eval - m.tick) else Meter(m.tick - m.eval, 0)
  }

  /** `program` holds the atoms of `p` in a table small enough for `u16` indices. */
  ghost predicate Loaded(p: Pred, t: Tables, prog: Program) {
    && |prog.atoms| <= U16_MAX + 1
    && forall a :: a in AtomsMet(p, t) ==> a in prog.atoms
  }

  lemma {:induction false} AtomPush(p: Pred, t: Tables, prog: Program, stack: seq<bool>, ctx: Ctx, other: Option<Sigil>)
    requires IsAtom(p) && Loaded(p, t, prog)
    ensures PushOp(PushAtom(AtomIx(prog.atoms, AtomOf(p, t))), stack, prog, ctx, other)
      == stack + [Holds(p, t, ctx, other)]
  {
    assert AtomOf(p, t) in AtomsMet(p, t);
  }

  /** Straight-line code: `ops` pushes `b` for `cost` ops, or runs a budget dry. */
  ghost predicate Pushes(ops: seq<Op>, b: bool, cost: nat, scans: nat, stack: seq<bool>, rest: seq<Op>,
                         prog: Program, ctx: Ctx, other: Option<Sigil>, scanPc: nat, m: Meter)
  {
    var run := RunOps(ops + rest, stack, prog, ctx, other, scanPc, m);
    if Affords(m, cost) then
      run == RunOps(rest, stack + [b], prog, ctx, other, scanPc + scans, Less(m, cost))
    else
      run.verdict == Err(Budget) && run.meter == Drained(m)
  }

  lemma {:induction false} PushesOne(op: Op, b: bool, stack: seq<bool>, rest: seq<Op>, prog: Program, ctx: Ctx,
                  other: Option<Sigil>, scanPc: nat, m: Meter)
    requires op.PushAtom? || op.AndOp? || op.OrOp? || op.NotOp?
    requires PushOp(op, stack, prog, ctx, other) == stack + [b]
    ensures Pushes([op], b, 1, 0, stack, rest, prog, ctx, other, scanPc, m)
  {
    assert ([op] + rest)[0] == op && ([op] + rest)[1..] == rest;
  }

  /** One connective over the two values on top. */
  lemma BinaryOp(op: Op, a: bool, b: bool, stack: seq<bool>, prog: Program, ctx: Ctx, other: Option<Sigil>)
    requires op.AndOp? || op.OrOp?
    ensures PushOp(op, stack + [a] + [b], prog, ctx, other) == stack + [if op.AndOp? then a && b else a || b]
  {
    var full := stack + [a] + [b];
    assert Rest(full) == stack + [a] && Rest(Rest(full)) == stack;
  }

  lemma PushesTwo(x: seq<Op>, y: seq<Op>, a: bool, b: bool, ca: nat, cb: nat, sa: nat, sb: nat,
                  stack: seq<bool>, rest: seq<Op>, prog: Program, ctx: Ctx, other: Option<Sigil>,
                  scanPc: nat, m: Meter)
    requires Pushes(x, a, ca, sa, stack, y + rest, prog, ctx, other, scanPc, m)
    requires Affords(m, ca) ==>
      Pushes(y, b, cb, sb, stack + [a], rest, prog, ctx, other, scanPc + sa, Less(m, ca))
    ensures var run := RunOps(x + y + rest, stack, prog, ctx, other, scanPc, m);
      if Affords(m, ca + cb) then
        run == RunOps(rest, stack + [a] + [b], prog, ctx, other, scanPc + (sa + sb), Less(m, ca + cb))
      else
        run.verdict == Err(Budget) && run.meter == Drained(m)
  {
    hide RunOps;
    assert x + y + rest == x + (y + rest);
  }

  lemma {:induction false} PushesBinary(op: Op, x: seq<Op>, y: seq<Op>, a: bool, b: bool, ca: nat, cb: nat, sa: nat,
                     sb: nat, stack: seq<bool>, rest: seq<Op>, prog: Program, ctx: Ctx,
                     other: Option<Sigil>, scanPc: nat, m: Meter)
    requires op.AndOp? || op.OrOp?
    requires Pushes(x, a, ca, sa, stack, y + ([op] + rest), prog, ctx, other, scanPc, m)
    requires Affords(m, ca) ==>
      Pushes(y, b, cb, sb, stack + [a], [op] + rest, prog, ctx, other, scanPc + sa, Less(m, ca))
    ensures Pushes(x + y + [op], if op.AndOp? then a && b else a || b, ca + cb + 1, sa + sb, stack, rest,
                   prog, ctx, other, scanPc, m)
  {
    hide RunOps, PushOp;
    assert x + y + [op] + rest == x + y + ([op] + rest);
    PushesTwo(x, y, a, b, ca, cb, sa, sb, stack, [op] + rest, prog, ctx, other, scanPc, m);
    BinaryOp(op, a, b, stack, prog, ctx, other);
    if Affords(m, ca + cb) {
      StraightStep(op, stack + [a] + [b], rest, prog, ctx, other, scanPc + (sa + sb), Less(m, ca + cb));
    }
  }

  lemma StraightStep(op: Op, stack: seq<bool>, rest: seq<Op>, prog: Program, ctx: Ctx,
                     other: Option<Sigil>, scanPc: nat, m: Meter)
    requires op.PushAtom? || op.AndOp? || op.OrOp? || op.NotOp?
    ensures RunOps([op] + rest, stack, prog, ctx, other, scanPc, m) ==
      if Spent(m) then Run(Err(Budget), scanPc, m)
      else RunOps(rest, PushOp(op, stack, prog, ctx, other), prog, ctx, other, scanPc, Charge(m))
  {
    assert ([op] + rest)[0] == op && ([op] + rest)[1..] == rest;
    hide PushOp;
  }

  lemma {:induction false} PushesNot(x: seq<Op>, a: bool, ca: nat, sa: nat, stack: seq<bool>, rest: seq<Op>,
                  prog: Program, ctx: Ctx, other: Option<Sigil>, scanPc: nat, m: Meter)
    requires Pushes(x, a, ca, sa, stack, [NotOp] + rest, prog, ctx, other, scanPc, m)
    ensures Pushes(x + [NotOp], !a, ca + 1, sa, stack, rest, prog, ctx, other, scanPc, m)
  {
    assert x + [NotOp] + rest == x + ([NotOp] + rest);
    assert Rest(stack + [a]) == stack;
    assert ([NotOp] + rest)[0] == NotOp && ([NotOp] + rest)[1..] == rest;
    assert PushOp(NotOp, stack + [a], prog, ctx, other) == stack + [!a];
  }

  lemma {:induction false} AtomRuns(p: Pred, t: Tables, stack: seq<bool>, rest: seq<Op>, prog: Program,
                                    ctx: Ctx, other: Option<Sigil>, scanPc: nat, m: Meter)
    requires IsAtom(p) && Loaded(p, t, prog)
    ensures Pushes(Postfix(p, t, prog.atoms), Holds(p, t, ctx, other), 1, 0, stack, rest,
                   prog, ctx, other, scanPc, m)
  {
    hide Pushes;
    AtomPush(p, t, prog, stack, ctx, other);
    PushesOne(PushAtom(AtomIx(prog.atoms, AtomOf(p, t))), Holds(p, t, ctx, other), stack, rest, prog,
              ctx, other, scanPc, m);
  }

  lemma LoadedParts(p: Pred, t: Tables, prog: Program)
    requires Loaded(p, t, prog)
    ensures p.And? || p.Or? ==> Loaded(p.left, t, prog) && Loaded(p.right, t, prog)
    ensures p.Not? ==> Loaded(p.inner, t, prog)
  {
  }

  /** A run that costs `cost`, or drains a budget. */
  ghost predicate Costs(run: Run, verdict: bool, cost: nat, m: Meter) {
    if Affords(m, cost) then run.verdict == Ok(verdict) && run.meter == Less(m, cost)
    else run.verdict == Err(Budget) && run.meter == Drained(m)
  }

  /** Code that pushes `b`, then `Halt`. */
  lemma PushesThenHalt(ops: seq<Op>, b: bool, cost: nat, scans: nat, prog: Program, ctx: Ctx,
                       other: Option<Sigil>, m: Meter)
    requires Pushes(ops, b, cost, scans, [], [Halt], prog, ctx, other, 0, m)
    ensures Costs(RunOps(ops + [Halt], [], prog, ctx, other, 0, m), b, cost + 1, m)
  {
    if Affords(m, cost) {
      assert [] + [b] == [b];
      assert [Halt][0] == Halt;
    }
  }

  /** One neighbour, then the rest. */
  lemma NeighborStep(scan: Scan, first: Sigil, others: seq<Sigil>, hits: nat, b: bool, c: nat,
                     prog: Program, ctx: Ctx, m: Meter)
    requires Costs(RunOps(scan.chunk, [], prog, ctx, Some(first), 0, m), b, c, m)
    requires hits < I32_MAX
    ensures var run := RunNeighbors(scan, [first] + others, hits, prog, ctx, m);
      if Affords(m, c) then
        var next := RunNeighbors(scan, others, if b then hits + 1 else hits, prog, ctx, Less(m, c));
        run.verdict == next.verdict && run.meter == next.meter
      else run.verdict == Err(Budget) && run.meter == Drained(m)
  {
    hide RunOps;
    var neigh := [first] + others;
    assert neigh[0] == first && neigh[1..] == others;
  }

  lemma {:induction false} NeighborsRun(scan: Scan, q: Quantifier, t: Tables, tops: seq<Quantifier>, neigh: seq<Sigil>,
                                        hits: nat, prog: Program, ctx: Ctx, m: Meter, depth: nat)
    requires Ready(q.body, t, prog) && Wired(tops, t, prog)
    requires scan.chunk == Postfix(q.body, t, prog.atoms) + [Halt]
    requires hits + |neigh| <= I32_MAX && m.eval <= depth <= PRED_OPS_PER_EVAL
    ensures Costs(RunNeighbors(scan, neigh, hits, prog, ctx, m),
                  Counted(scan, hits + HoldCount(Rewired(q.body, 0, tops, depth), t, ctx, neigh)),
                  ListPrice(q.body, tops, t, ctx, neigh, depth), m)
    decreases depth, 2, |neigh|
  {
    hide RunOps, Holds, Postfix, Ready, Wired, Counted, Costs, Rewired, Price;
    if neigh != [] {
      var body := Rewired(q.body, 0, tops, depth);
      var c := Price(q.body, 0, tops, t, ctx, Some(neigh[0]), depth) + 1;
      var b := Holds(body, t, ctx, Some(neigh[0]));
      var next := if b then hits + 1 else hits;
      var more := ListPrice(q.body, tops, t, ctx, neigh[1..], depth);
      assert neigh == [neigh[0]] + neigh[1..];
      ChunkRuns(q.body, t, tops, prog, ctx, Some(neigh[0]), m, depth);
      NeighborStep(scan, neigh[0], neigh[1..], hits, b, c, prog, ctx, m);
      assert HoldCount(body, t, ctx, neigh) == (if b then 1 else 0) + HoldCount(body, t, ctx, neigh[1..]);
      assert ListPrice(q.body, tops, t, ctx, neigh, depth) == c + more;
      hide RunNeighbors, HoldCount, ListPrice;
      if Affords(m, c) {
        NeighborsRun(scan, q, t, tops, neigh[1..], next, prog, ctx, Less(m, c), depth);
        CostsAfter(RunNeighbors(scan, neigh, hits, prog, ctx, m),
                   RunNeighbors(scan, neigh[1..], next, prog, ctx, Less(m, c)),
                   Counted(scan, next + HoldCount(body, t, ctx, neigh[1..])), c, more, m);
      } else {
        CostsDrained(RunNeighbors(scan, neigh, hits, prog, ctx, m),
                     Counted(scan, hits + HoldCount(body, t, ctx, neigh)), c, more, m);
      }
    } else {
      NoNeighbors(scan, hits, prog, ctx, m);
    }
  }

  /** A scan body: its code from scan counter 0, then `Halt`. */
  lemma {:induction false} ChunkRuns(p: Pred, t: Tables, tops: seq<Quantifier>, prog: Program, ctx: Ctx,
                                     other: Option<Sigil>, m: Meter, depth: nat)
    requires Ready(p, t, prog) && Wired(tops, t, prog) && m.eval <= depth <= PRED_OPS_PER_EVAL
    ensures Costs(RunOps(Postfix(p, t, prog.atoms) + [Halt], [], prog, ctx, other, 0, m),
                  Holds(Rewired(p, 0, tops, depth), t, ctx, other), Price(p, 0, tops, t, ctx, other, depth) + 1, m)
    decreases depth, 1, p, 1
  {
    hide RunOps, Postfix, Holds, Ready, Wired, Pushes, Rewired, Price;
    WiredRuns(p, 0, t, tops, [], [Halt], prog, ctx, other, m, depth);
    PushesThenHalt(Postfix(p, t, prog.atoms), Holds(Rewired(p, 0, tops, depth), t, ctx, other),
                   Price(p, 0, tops, t, ctx, other, depth), At(|TopScans(p)|, tops) - At(0, tops), prog, ctx, other, m);
  }

  lemma NoNeighbors(scan: Scan, hits: nat, prog: Program, ctx: Ctx, m: Meter)
    ensures Costs(RunNeighbors(scan, [], hits, prog, ctx, m), Counted(scan, hits), 0, m)
  {
  }

  lemma CostsAfter(run: Run, next: Run, v: bool, c: nat, more: nat, m: Meter)
    requires Affords(m, c) && Costs(next, v, more, Less(m, c))
    requires run.verdict == next.verdict && run.meter == next.meter
    ensures Costs(run, v, c + more, m)
  {
  }

  lemma CostsDrained(run: Run, v: bool, c: nat, more: nat, m: Meter)
    requires !Affords(m, c) && run.verdict == Err(Budget) && run.meter == Drained(m)
    ensures Costs(run, v, c + more, m)
  {
  }

  /** The scan cap is never observable: a list long enough to be cut cannot be paid for, cut or not, because
      every neighbour costs at least two of the 64 ops. */
  lemma {:induction false} TruncationUnobservable(neigh: seq<Sigil>, body: Pred, tops: seq<Quantifier>, t: Tables,
                                                  ctx: Ctx, m: Meter, depth: nat)
    requires |neigh| > RELATED_SCAN_CAP && m.eval <= PRED_OPS_PER_EVAL
    ensures !Affords(m, ListPrice(body, tops, t, ctx, neigh, depth))
    ensures !Affords(m, ListPrice(body, tops, t, ctx, Truncated(neigh), depth))
  {
    hide ListPrice;
    TwoEach(body, tops, t, ctx, neigh, depth);
    TwoEach(body, tops, t, ctx, Truncated(neigh), depth);
  }

  lemma {:induction false} TwoEach(body: Pred, tops: seq<Quantifier>, t: Tables, ctx: Ctx, neigh: seq<Sigil>, depth: nat)
    ensures ListPrice(body, tops, t, ctx, neigh, depth) >= 2 * |neigh|
    decreases |neigh|
  {
    hide Price;
    if neigh != [] {
      PriceParts(body, 0, tops, t, ctx, Some(neigh[0]), depth);
      TwoEach(body, tops, t, ctx, neigh[1..], depth);
    }
  }

  /** The comparison a payload ends with is the meaning of its quantifier. */
  lemma CountedHolds(p: Quantifier, scan: Scan, t: Tables, ctx: Ctx, other: Option<Sigil>)
    requires scan.count == if p.ExistsRelated? then None else Some((p.cmp, p.v))
    ensures var x := Resolve(SlotOf(p.of, t), ctx, other);
      Holds(p, t, ctx, other) ==
        (x.Some? && Counted(scan, HoldCount(p.body, t, ctx, ctx.store.related(x.value, p.rel))))
  {
    hide Holds, HoldCount, Resolve, SlotOf;
    if p.ExistsRelated? {
      ExistsAsCount(p.of, p.rel, p.body, t, ctx, other);
    } else {
      CountAsCount(p.of, p.rel, p.body, p.cmp, p.v, t, ctx, other);
    }
  }

  /** A list that was cut drains a budget either way. */
  lemma CutDrains(run: Run, v: bool, w: bool, neigh: seq<Sigil>, body: Pred, tops: seq<Quantifier>, t: Tables, ctx: Ctx,
                  m: Meter, depth: nat)
    requires |neigh| > RELATED_SCAN_CAP && m.eval <= PRED_OPS_PER_EVAL
    requires Costs(run, v, ListPrice(body, tops, t, ctx, Truncated(neigh), depth), m)
    ensures Costs(run, w, ListPrice(body, tops, t, ctx, neigh, depth), m)
  {
    hide ListPrice, Truncated;
    TruncationUnobservable(neigh, body, tops, t, ctx, m, depth);
  }

  lemma RunScanIs(scan: Scan, prog: Program, ctx: Ctx, other: Option<Sigil>, m: Meter)
    ensures var x := Resolve(scan.of, ctx, other);
      RunScan(scan, prog, ctx, other, m) ==
        if x.None? then Run(Ok(false), 0, m)
        else RunNeighbors(scan, Truncated(ctx.store.related(x.value, scan.rel)), 0, prog, ctx, m)
  {
    hide RunNeighbors, Resolve, Truncated;
  }

  /** The payload at counter `k` against the quantifier it is. */
  lemma {:induction false} ScanRuns(k: nat, t: Tables, tops: seq<Quantifier>, prog: Program, ctx: Ctx,
                                    other: Option<Sigil>, m: Meter, depth: nat)
    requires Wired(tops, t, prog) && k < |tops|
    requires m.eval < depth <= PRED_OPS_PER_EVAL
    ensures |prog.scans| == |tops|
    ensures Costs(RunScan(prog.scans[k], prog, ctx, other, m), Holds(RewiredScan(k, tops, depth), t, ctx, other),
                  ScanPrice(k, tops, t, ctx, other, depth), m)
    decreases depth, 0, 0
  {
    hide *;
    WiredAt(k, t, tops, prog);
    ScanPriceIs(k, tops, t, ctx, other, depth);
    RewiredScanIs(k, tops, depth);
    var q, scan := tops[k], prog.scans[k];
    var p := WithBody(q, Rewired(q.body, 0, tops, depth - 1));
    WithBodyIs(q, Rewired(q.body, 0, tops, depth - 1));
    CountedHolds(p, scan, t, ctx, other);
    RunScanIs(scan, prog, ctx, other, m);
    var x := Resolve(SlotOf(q.of, t), ctx, other);
    if x.Some? {
      var neigh := ctx.store.related(x.value, q.rel);
      var seen := Truncated(neigh);
      var run := RunNeighbors(scan, seen, 0, prog, ctx, m);
      TruncatedLength(neigh);
      NeighborsRun(scan, q, t, tops, seen, 0, prog, ctx, m, depth - 1);
      if |neigh| > RELATED_SCAN_CAP {
        CutDrains(run, Counted(scan, HoldCount(p.body, t, ctx, seen)), Holds(p, t, ctx, other), neigh, q.body, tops, t,
                  ctx, m, depth - 1);
      }
    } else {
      FreeOfCharge(RunScan(scan, prog, ctx, other, m), m);
    }
  }

  lemma WithBodyIs(q: Quantifier, body: Pred)
    ensures var p := WithBody(q, body);
      && p.of == q.of && p.rel == q.rel && p.body == body && p.ExistsRelated? == q.ExistsRelated?
      && (!p.ExistsRelated? ==> p.cmp == q.cmp && p.v == q.v)
  {
  }

  lemma RewiredScanIs(k: nat, tops: seq<Quantifier>, depth: nat)
    requires k < |tops| && depth > 0
    ensures RewiredScan(k, tops, depth) == WithBody(tops[k], Rewired(tops[k].body, 0, tops, depth - 1))
  {
    hide Rewired, WithBody;
  }

  lemma ScanPriceIs(k: nat, tops: seq<Quantifier>, t: Tables, ctx: Ctx, other: Option<Sigil>, depth: nat)
    requires k < |tops| && depth > 0
    ensures var x := Resolve(SlotOf(tops[k].of, t), ctx, other);
      ScanPrice(k, tops, t, ctx, other, depth) ==
        if x.None? then 0
        else ListPrice(tops[k].body, tops, t, ctx, ctx.store.related(x.value, tops[k].rel), depth - 1)
  {
    hide Price, SlotOf, Resolve;
  }

  lemma TruncatedLength(neigh: seq<Sigil>)
    ensures |Truncated(neigh)| <= RELATED_SCAN_CAP <= I32_MAX
    ensures |neigh| <= RELATED_SCAN_CAP ==> Truncated(neigh) == neigh
  {
  }

  lemma FreeOfCharge(run: Run, m: Meter)
    requires run.verdict == Ok(false) && run.meter == m
    ensures Costs(run, false, 0, m)
  {
  }

  lemma {:induction false} RunsScanOp(op: Op, stack: seq<bool>, rest: seq<Op>, prog: Program, ctx: Ctx,
                   other: Option<Sigil>, scanPc: nat, m: Meter)
    requires op.ExistsOp? || op.CountOp?
    ensures RunOps([op] + rest, stack, prog, ctx, other, scanPc, m) ==
      if Spent(m) then Run(Err(Budget), scanPc, m)
      else RunScanOp(rest, stack, prog, ctx, other, scanPc, Charge(m))
  {
    assert ([op] + rest)[0] == op && ([op] + rest)[1..] == rest;
  }

  /** A scan op and its payload's run, put together. */
  lemma {:induction false} PushesScanOp(op: Op, b: bool, cost: nat, stack: seq<bool>, rest: seq<Op>,
                                        prog: Program, ctx: Ctx, other: Option<Sigil>, scanPc: nat, m: Meter)
    requires (op.ExistsOp? || op.CountOp?) && scanPc < |prog.scans|
    requires !Spent(m) ==>
      Costs(RunScan(prog.scans[scanPc], prog, ctx, other, Charge(m)), b, cost, Charge(m))
    ensures Pushes([op], b, cost + 1, 1, stack, rest, prog, ctx, other, scanPc, m)
  {
    RunsScanOp(op, stack, rest, prog, ctx, other, scanPc, m);
    hide RunOps, RunScan;
  }

  lemma {:induction false} PushesScan(p: Quantifier, k: nat, t: Tables, tops: seq<Quantifier>, stack: seq<bool>,
                                      rest: seq<Op>, prog: Program, ctx: Ctx, other: Option<Sigil>, m: Meter, depth: nat)
    requires Wired(tops, t, prog) && m.eval <= depth <= PRED_OPS_PER_EVAL
    ensures Pushes(Postfix(p, t, prog.atoms), Holds(RewiredScan(k, tops, depth), t, ctx, other),
                   ScanPrice(k, tops, t, ctx, other, depth) + 1, At(k + 1, tops) - At(k, tops), stack, rest, prog, ctx,
                   other, At(k, tops), m)
    decreases depth, 0, 1
  {
    hide *;
    var op := if p.ExistsRelated? then ExistsOp else CountOp;
    CodeParts(p, t, prog.atoms);
    WiredLength(t, tops, prog);
    AtIs(k, tops);
    if k >= |tops| {
      NothingLeft(k, tops, t, ctx, other, depth);
      PushesNothing(op, stack, rest, prog, ctx, other, At(k, tops), m);
    } else {
      SpentOrNot(m);
      if !Spent(m) {
        ScanRuns(k, t, tops, prog, ctx, other, Charge(m), depth);
      }
      PushesScanOp(op, Holds(RewiredScan(k, tops, depth), t, ctx, other), ScanPrice(k, tops, t, ctx, other, depth), stack,
                   rest, prog, ctx, other, k, m);
    }
  }

  lemma AtIs(k: nat, tops: seq<Quantifier>)
    ensures At(k, tops) == if k < |tops| then k else |tops|
    ensures At(k + 1, tops) == if k < |tops| then k + 1 else |tops|
  {
  }

  lemma SpentOrNot(m: Meter)
    ensures Spent(m) <==> m.tick == 0 || m.eval == 0
    ensures !Spent(m) ==> Charge(m).eval == m.eval - 1
  {
  }

  lemma NothingLeft(k: nat, tops: seq<Quantifier>, t: Tables, ctx: Ctx, other: Option<Sigil>, depth: nat)
    requires k >= |tops|
    ensures !Holds(RewiredScan(k, tops, depth), t, ctx, other) && ScanPrice(k, tops, t, ctx, other, depth) == 0
  {
    NeverHolds(t, ctx, other);
    hide Holds, Rewired;
  }

  /** A scan op without a payload left. */
  lemma {:induction false} PushesNothing(op: Op, stack: seq<bool>, rest: seq<Op>, prog: Program, ctx: Ctx,
                                         other: Option<Sigil>, scanPc: nat, m: Meter)
    requires (op.ExistsOp? || op.CountOp?) && scanPc >= |prog.scans|
    ensures Pushes([op], false, 1, 0, stack, rest, prog, ctx, other, scanPc, m)
  {
    RunsScanOp(op, stack, rest, prog, ctx, other, scanPc, m);
    hide RunOps, RunScan;
  }

  // ---------------------------------------------------------------------------------------------
  // Programs and the quantifiers behind their payloads.

  /** The scan counter after `k` scan ops: it stops where the payloads end. */
  function At(k: nat, tops: seq<Quantifier>): nat { if k < |tops| then k else |tops| }

  ghost predicate Ready(p: Pred, t: Tables, prog: Program) { SugarFree(p) && Loaded(p, t, prog) }

  ghost predicate Payload(q: Quantifier, scan: Scan, t: Tables, table: seq<Atom>) {
    && scan.of == SlotOf(q.of, t) && scan.rel == q.rel
    && scan.chunk == Postfix(q.body, t, table) + [Halt]
    && scan.count == if q.ExistsRelated? then None else Some((q.cmp, q.v))
  }

  /** The payloads of `prog` are those of `tops`. */
  ghost predicate Wired(tops: seq<Quantifier>, t: Tables, prog: Program) {
    && |prog.scans| == |tops|
    && forall i :: 0 <= i < |tops| ==>
         Payload(tops[i], prog.scans[i], t, prog.atoms) && Ready(tops[i].body, t, prog)
  }

  lemma WiredLength(t: Tables, tops: seq<Quantifier>, prog: Program)
    requires Wired(tops, t, prog)
    ensures |prog.scans| == |tops|
  {
  }

  lemma WiredAt(k: nat, t: Tables, tops: seq<Quantifier>, prog: Program)
    requires Wired(tops, t, prog) && k < |tops|
    ensures |prog.scans| == |tops| && Ready(tops[k].body, t, prog)
    ensures var scan := prog.scans[k];
      && scan.of == SlotOf(tops[k].of, t) && scan.rel == tops[k].rel
      && scan.chunk == Postfix(tops[k].body, t, prog.atoms) + [Halt]
      && scan.count == if tops[k].ExistsRelated? then None else Some((tops[k].cmp, tops[k].v))
  {
    hide Ready, Postfix, SlotOf;
  }

  lemma ReadyParts(p: Pred, t: Tables, prog: Program)
    requires Ready(p, t, prog)
    ensures p.And? || p.Or? ==> Ready(p.left, t, prog) && Ready(p.right, t, prog)
    ensures p.Not? ==> Ready(p.inner, t, prog)
    ensures p.ExistsRelated? || p.CountRelated? ==> Ready(p.body, t, prog)
    ensures !IsCombinator(p) ==> IsAtom(p) && Loaded(p, t, prog)
  {
    LoadedParts(p, t, prog);
  }

  lemma CombinatorKinds(p: Pred)
    ensures IsCombinator(p) <==> p.And? || p.Or? || p.Not? || p.ExistsRelated? || p.CountRelated?
  {
  }

  lemma AffordsLess(m: Meter)
    ensures forall c: nat :: Affords(m, c) ==> Less(m, c).eval <= m.eval
  {
  }

  lemma CodeParts(p: Pred, t: Tables, table: seq<Atom>)
    ensures p.And? || p.Or? ==>
      Postfix(p, t, table) == Postfix(p.left, t, table) + Postfix(p.right, t, table) + [if p.And? then AndOp else OrOp]
    ensures p.Not? ==> Postfix(p, t, table) == Postfix(p.inner, t, table) + [NotOp]
    ensures p.ExistsRelated? || p.CountRelated? ==> Postfix(p, t, table) == [if p.ExistsRelated? then ExistsOp else CountOp]
  {
  }

  lemma AtMoves(k: nat, a: nat, b: nat, tops: seq<Quantifier>)
    ensures At(k, tops) <= At(k + a, tops) <= At(k + (a + b), tops) && At(k + a + b, tops) == At(k + (a + b), tops)
  {
  }

  /** Code from scan counter `k` pushes its rewired meaning for its price. */
  lemma {:induction false} WiredRuns(p: Pred, k: nat, t: Tables, tops: seq<Quantifier>, stack: seq<bool>, rest: seq<Op>,
                                     prog: Program, ctx: Ctx, other: Option<Sigil>, m: Meter, depth: nat)
    requires Ready(p, t, prog) && Wired(tops, t, prog) && m.eval <= depth <= PRED_OPS_PER_EVAL
    ensures At(k, tops) <= At(k + |TopScans(p)|, tops)
    ensures Pushes(Postfix(p, t, prog.atoms), Holds(Rewired(p, k, tops, depth), t, ctx, other),
                   Price(p, k, tops, t, ctx, other, depth), At(k + |TopScans(p)|, tops) - At(k, tops), stack, rest, prog,
                   ctx, other, At(k, tops), m)
    decreases depth, 1, p, 0
  {
    hide *;
    ReadyParts(p, t, prog);
    CombinatorKinds(p);
    AffordsLess(m);
    TopParts(p);
    CodeParts(p, t, prog.atoms);
    RewiredParts(p, k, tops, depth);
    PriceParts(p, k, tops, t, ctx, other, depth);
    HoldsParts(Rewired(p, k, tops, depth), t, ctx, other);
    if p.And? || p.Or? {
      var op := if p.And? then AndOp else OrOp;
      var sa, sb := |TopScans(p.left)|, |TopScans(p.right)|;
      var a, b := Rewired(p.left, k, tops, depth), Rewired(p.right, k + sa, tops, depth);
      var ca, cb := Price(p.left, k, tops, t, ctx, other, depth), Price(p.right, k + sa, tops, t, ctx, other, depth);
      var x, y := Postfix(p.left, t, prog.atoms), Postfix(p.right, t, prog.atoms);
      AtMoves(k, sa, sb, tops);
      WiredRuns(p.left, k, t, tops, stack, y + ([op] + rest), prog, ctx, other, m, depth);
      if Affords(m, ca) {
        WiredRuns(p.right, k + sa, t, tops, stack + [Holds(a, t, ctx, other)], [op] + rest, prog, ctx, other, Less(m, ca),
                  depth);
      }
      PushesBinary(op, x, y, Holds(a, t, ctx, other), Holds(b, t, ctx, other), ca, cb, At(k + sa, tops) - At(k, tops),
                   At(k + sa + sb, tops) - At(k + sa, tops), stack, rest, prog, ctx, other, At(k, tops), m);
    } else if p.Not? {
      var inner := Rewired(p.inner, k, tops, depth);
      WiredRuns(p.inner, k, t, tops, stack, [NotOp] + rest, prog, ctx, other, m, depth);
      PushesNot(Postfix(p.inner, t, prog.atoms), Holds(inner, t, ctx, other), Price(p.inner, k, tops, t, ctx, other, depth),
                At(k + |TopScans(p.inner)|, tops) - At(k, tops), stack, rest, prog, ctx, other, At(k, tops), m);
    } else if p.ExistsRelated? || p.CountRelated? {
      AtMoves(k, 1, 0, tops);
      PushesScan(p, k, t, tops, stack, rest, prog, ctx, other, m, depth);
    } else {
      AtMoves(k, 0, 0, tops);
      AtomRuns(p, t, stack, rest, prog, ctx, other, At(k, tops), m);
    }
  }

  // ---------------------------------------------------------------------------------------------
  // Atom indices.

  /** A desugared scan body of a validated predicate holds no more atoms than ops: a hidden scan has one. */
  lemma {:induction false} BodyAtomsBounded(p: Pred, t: Tables)
    requires ValidatorAccepts(p, true)
    ensures |AtomsMet(Desugar(p), t)| <= OpCount(Desugar(p))
    decreases p
  {
    if p.And? || p.Or? {
      BodyAtomsBounded(p.left, t);
      BodyAtomsBounded(p.right, t);
    } else if p.Not? {
      BodyAtomsBounded(p.inner, t);
    } else if p.OpaqueClosed? {
      OpaqueAtoms(p.s, t);
    }
  }

  lemma OpaqueAtoms(s: Slot, t: Tables)
    ensures |AtomsMet(Desugar(OpaqueClosed(s)), t)| == 2 && OpCount(Desugar(OpaqueClosed(s))) == 3
  {
    var scan := ExistsRelated(s, LockedBy, OtherIs(Other));
    assert AtomsMet(OtherIs(Other), t) == [AtomOf(OtherIs(Other), t)];
    assert |AtomsMet(scan, t)| == 1 && OpCount(scan) == 1;
    assert |AtomsMet(Affordance(s, OPAQUE), t)| == 1 && OpCount(Affordance(s, OPAQUE)) == 1;
  }

  lemma {:induction false} AtomsBounded(p: Pred, t: Tables)
    requires ValidatorAccepts(p, false) && BodiesFit(Desugar(p))
    ensures |AtomsMet(Desugar(p), t)| <= OpCount(Desugar(p)) * PRED_OPS_PER_EVAL
    decreases p
  {
    if p.And? || p.Or? {
      AtomsBounded(p.left, t);
      AtomsBounded(p.right, t);
    } else if p.Not? {
      AtomsBounded(p.inner, t);
    } else if p.ExistsRelated? || p.CountRelated? {
      BodyAtomsBounded(p.body, t);
    } else if p.OpaqueClosed? {
      OpaqueAtoms(p.s, t);
    }
  }

  /** The atom table fits its indices. */
  predicate SmallTable(prog: Program) { |prog.atoms| <= U16_MAX + 1 }

  /** No atom index of a validated and accepted predicate wraps in `u16`. */
  lemma {:induction false} NoIndexWraps(p: Pred, t: Tables, prog: Program, u: Tables)
    requires Compiled(p, t) == Ok((prog, u)) && ValidatorAccepts(p, false)
    ensures |prog.atoms| <= (PRED_OPS_PER_EVAL - 1) * PRED_OPS_PER_EVAL
    ensures Loaded(Desugar(p), u, prog)
  {
    var d := Desugar(p);
    DesugarSugarFree(p);
    NamesStep(d, t);
    AtomsBounded(p, u);
    AddAtomsFacts([], AtomsMet(d, u));
  }

  // ---------------------------------------------------------------------------------------------
  // Whole programs.

  /** What an evaluation costing `cost` must return, and the tick budget it must leave. */
  function Outcome(b: bool, cost: nat, tick: nat): (Verdict, nat) {
    if cost <= Min(tick, PRED_OPS_PER_EVAL) then (Ok(b), tick - cost)
    else (Err(Budget), tick - Min(tick, PRED_OPS_PER_EVAL))
  }

  /** What every compiled program computes, nested quantifiers or not.  For every later state `w` of the intern
      tables, every context and every tick budget: the interpreter decides the rewired predicate and consumes
      exactly its price, or, when the price exceeds the smaller budget, rejects and consumes exactly that
      budget.  The one condition is that the atom table fits its indices, as it does for validated predicates. */
  lemma {:induction false} CompilerExact(p: Pred, t: Tables, prog: Program, u: Tables, w: Tables, ctx: Ctx, tick: nat)
    requires Compiled(p, t) == Ok((prog, u)) && SmallTable(prog) && Grows(u, w)
    ensures RunPred(prog, ctx, tick) == Outcome(Means(p, w, ctx), TotalCost(p, w, ctx), tick)
  {
    hide *;
    var d := Desugar(p);
    var tops := TopScans(d);
    MeansIs(p, w, ctx);
    CompiledLater(p, t, prog, u, w);
    ScansWired(d, w, prog);
    ChunkRuns(d, w, tops, prog, ctx, None, Meter(tick, PRED_OPS_PER_EVAL), PRED_OPS_PER_EVAL);
    CostsOutcome(prog, Means(p, w, ctx), TotalCost(p, w, ctx), ctx, tick);
  }

  lemma MeansIs(p: Pred, w: Tables, ctx: Ctx)
    ensures var d := Desugar(p);
      && Means(p, w, ctx) == Holds(Rewired(d, 0, TopScans(d), PRED_OPS_PER_EVAL), w, ctx, None)
      && TotalCost(p, w, ctx) == Price(d, 0, TopScans(d), w, ctx, None, PRED_OPS_PER_EVAL) + 1
  {
    hide Holds, Rewired, Price, Desugar, TopScans;
  }

  /** Compiler correctness with exact cost: a validated predicate that stands as its wiring echoes it is decided
      as authored, for exactly the authored cost. */
  lemma CompilerCorrect(p: Pred, t: Tables, prog: Program, u: Tables, w: Tables, ctx: Ctx, tick: nat)
    requires Compiled(p, t) == Ok((prog, u)) && ValidatorAccepts(p, false) && Faithful(p) && Grows(u, w)
    ensures RunPred(prog, ctx, tick) == Outcome(Holds(p, w, ctx, None), Cost(Desugar(p), w, ctx, None) + 1, tick)
  {
    hide *;
    NoIndexWraps(p, t, prog, u);
    TableIsSmall(prog);
    CompilerExact(p, t, prog, u, w, ctx, tick);
    FaithfulMeans(p, w, ctx);
  }

  lemma TableIsSmall(prog: Program)
    requires |prog.atoms| <= (PRED_OPS_PER_EVAL - 1) * PRED_OPS_PER_EVAL
    ensures SmallTable(prog)
  {
  }

  /** Exactly when an evaluation answers, answers right and answers wrong. */
  lemma VerdictRightIff(p: Pred, t: Tables, prog: Program, u: Tables, w: Tables, ctx: Ctx, tick: nat)
    requires Compiled(p, t) == Ok((prog, u)) && ValidatorAccepts(p, false) && Grows(u, w)
    ensures var (verdict, left) := RunPred(prog, ctx, tick);
      var paid := TotalCost(p, w, ctx) <= Min(tick, PRED_OPS_PER_EVAL);
      && (verdict == Ok(Holds(p, w, ctx, None)) <==> paid && Means(p, w, ctx) == Holds(p, w, ctx, None))
      && (verdict == Ok(!Holds(p, w, ctx, None)) <==> paid && Means(p, w, ctx) != Holds(p, w, ctx, None))
      && (verdict == Err(Budget) <==> !paid)
  {
    hide Means, Holds, TotalCost, Compiled, Grows, ValidatorAccepts, RunPred;
    NoIndexWraps(p, t, prog, u);
    CompilerExact(p, t, prog, u, w, ctx, tick);
  }

  /** Later interning leaves the code of a compiled predicate what it was. */
  lemma {:induction false} CompiledLater(p: Pred, t: Tables, prog: Program, u: Tables, w: Tables)
    requires Compiled(p, t) == Ok((prog, u)) && SmallTable(prog) && Grows(u, w)
    ensures var d := Desugar(p);
      && Ready(d, w, prog)
      && prog.ops == Postfix(d, w, prog.atoms) + [Halt] && prog.scans == ScansOf(d, w, prog.atoms)
  {
    var d := Desugar(p);
    DesugarSugarFree(p);
    NamesStep(d, t);
    AddAtomsFacts([], AtomsMet(d, u));
    hide Grows, HasNames, AtomsMet, SugarFree, BodiesFit, CookNames, AddAtoms, Desugar, Postfix, ScansOf;
    AtomsMetStable(d, u, w);
    PostfixStable(d, u, w, prog.atoms, prog.atoms);
    ScansStable(d, u, w, prog.atoms, prog.atoms);
  }

  lemma ScansWired(d: Pred, w: Tables, prog: Program)
    requires Ready(d, w, prog) && prog.scans == ScansOf(d, w, prog.atoms)
    ensures Wired(TopScans(d), w, prog)
  {
    hide Ready, Payload;
    PayloadsOf(d, w, prog);
  }

  lemma {:induction false} PayloadsOf(d: Pred, w: Tables, prog: Program)
    requires Ready(d, w, prog)
    ensures |ScansOf(d, w, prog.atoms)| == |TopScans(d)|
    ensures forall i :: 0 <= i < |TopScans(d)| ==>
      Payload(TopScans(d)[i], ScansOf(d, w, prog.atoms)[i], w, prog.atoms) && Ready(TopScans(d)[i].body, w, prog)
    decreases d
  {
    ReadyParts(d, w, prog);
    hide Ready, Postfix, SlotOf;
    if d.And? || d.Or? {
      hide Payload;
      PayloadsOf(d.left, w, prog);
      PayloadsOf(d.right, w, prog);
    } else if d.Not? {
      hide Payload;
      PayloadsOf(d.inner, w, prog);
    }
  }

  lemma CostsOutcome(prog: Program, b: bool, cost: nat, ctx: Ctx, tick: nat)
    requires var m := Meter(tick, PRED_OPS_PER_EVAL);
      Costs(RunOps(prog.ops, [], prog, ctx, None, 0, m), b, cost, m)
    ensures RunPred(prog, ctx, tick) == Outcome(b, cost, tick)
  {
    hide RunOps;
  }

  // ---------------------------------------------------------------------------------------------
  // Programs of a finished cook.

  /** `prog` is what `p` compiled to at some point of the cook that ended with tables `w`. */
  ghost predicate CookedAs(p: Pred, prog: Program, w: Tables) {
    exists t, u :: Compiled(p, t) == Ok((prog, u)) && Grows(u, w)
  }

  lemma CookedLater(p: Pred, prog: Program, w: Tables, x: Tables)
    requires CookedAs(p, prog, w) && Grows(w, x)
    ensures CookedAs(p, prog, x)
  {
    hide Compiled, Grows;
    var t, u :| Compiled(p, t) == Ok((prog, u)) && Grows(u, w);
    GrowsTrans(u, w, x);
  }

  lemma CookedNow(p: Pred, t: Tables, prog: Program, u: Tables)
    requires Compiled(p, t) == Ok((prog, u))
    ensures CookedAs(p, prog, u) && Grows(t, u)
  {
    DesugarSugarFree(p);
    NamesStep(Desugar(p), t);
    GrowsRefl(u);
    hide Compiled, Grows;
  }

  /** A cooked program of a validated predicate, under the final tables of the cook. */
  lemma CookedRuns(p: Pred, prog: Program, w: Tables, ctx: Ctx, tick: nat)
    requires CookedAs(p, prog, w) && ValidatorAccepts(p, false)
    ensures RunPred(prog, ctx, tick) == Outcome(Means(p, w, ctx), TotalCost(p, w, ctx), tick)
  {
    hide Compiled, Grows, TotalCost, Means, ValidatorAccepts;
    var t, u :| Compiled(p, t) == Ok((prog, u)) && Grows(u, w);
    NoIndexWraps(p, t, prog, u);
    CompilerExact(p, t, prog, u, w, ctx, tick);
  }
}
