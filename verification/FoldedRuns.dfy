/** Running a folded document. */
module FoldedRuns {
  // The optimized cook against the reference cook: both end in the same tables, and what a Rite or a Law does is the
  // same, except that it may afford more.

  import opened Prelude
  import opened Pred
  import opened Atoms
  import opened Rites
  import opened Distinct
  import opened Cfg
  import opened World
  import opened RiteVm
  import opened RiteCook
  import opened Recook
  import opened Wiring
  import opened Bench
  import opened Fold
  import opened FoldDoc
  import opened Pipeline
  import Compile
  import Eval
  import Laws
  import Tables

  /** A validated predicate that folding keeps. */
  ghost predicate Kept(p: Pred, w: Compile.Tables) { ValidatorAccepts(p, false) && FoldKeeps(p, w) }

  /** Folding keeps every guard of the rite. */
  ghost predicate KeptGuards(instrs: seq<Instr>, w: Compile.Tables) {
    forall i :: 0 <= i < |instrs| && HasPred(instrs[i].op) ==> Kept(instrs[i].op.pred, w)
  }

  /** Folding keeps every predicate of the law. */
  ghost predicate KeptLaw(l: Law, w: Compile.Tables) {
    Kept(l.when, w) && (l.body.PredLaw? ==> Kept(l.body.must, w)) && (l.body.CapLaw? ==> Kept(l.body.mark, w))
  }

  lemma KeptValid(p: Pred, w: Compile.Tables)
    requires Kept(p, w)
    ensures ValidatorAccepts(p, false) && ValidatorAccepts(Simplify(p), false)
  {
    FoldValid(p, false);
    hide Simplify, FoldKeeps;
  }

  lemma KeptAt(p: Pred, w: Compile.Tables, ctx: Ctx)
    requires Kept(p, w) && TotalCost(p, w, ctx) <= Compile.PRED_OPS_PER_EVAL
    ensures Means(Simplify(p), w, ctx) == Means(p, w, ctx) && TotalCost(Simplify(p), w, ctx) <= TotalCost(p, w, ctx)
  {
    hide Means, TotalCost, Simplify, ValidatorAccepts;
  }

  // ---------------------------------------------------------------------------------------------
  // Running a folded rite.

  /** A folded guard answers what the original answers, whenever that answers, for no more ops. */
  lemma GuardRefines(c: Call, d: Call, w: Compile.Tables, instr: Instr, proj: Proj, target: Option<Sigil>, ops: nat,
                     more: nat)
    requires Recooks(c, d) && HasPred(instr.op) && ops <= more
    requires GuardOk(instr, c.rite.guards, c.canon.preds, w) && Kept(instr.op.pred, w)
    requires GuardOk(Instr(instr.pc, FoldOp(instr.op)), d.rite.guards, d.canon.preds, w)
    ensures var (r, left) := Guarded(c, instr.pc, proj, target, ops);
      var (q, left') := Guarded(d, instr.pc, proj, target, more);
      (r.Ok? || r == Err(GuardBudget)) && (r.Ok? ==> q == r && left <= left')
  {
    var p, ctx := instr.op.pred, CtxOf(c, proj, target);
    var folded := Instr(instr.pc, FoldOp(instr.op));
    assert HasPred(folded.op) && folded.op.pred == Simplify(p);
    CtxRecooked(c, d, proj, target);
    KeptValid(p, w);
    if TotalCost(p, w, ctx) <= Compile.PRED_OPS_PER_EVAL {
      KeptAt(p, w, ctx);
    }
    GuardMeans(c, w, instr, proj, target, ops);
    GuardMeans(d, w, folded, proj, target, more);
    hide Guarded, GuardOk, Means, TotalCost, CtxOf, Simplify, Kept, FoldOp, ValidatorAccepts, Faithful, Recooks;
  }

  /** Where a guard or a branch goes when its predicate holds, and when it does not. */
  function Yes(op: RiteOp, next: Option<Pc>, target: Option<Sigil>, spec: Spec): Next
    requires HasPred(op)
  {
    if op.Guard? then Onward(next, target, spec) else Goto(op.yes, target, spec)
  }

  function No(op: RiteOp, target: Option<Sigil>, spec: Spec): Next
    requires HasPred(op)
  {
    Goto(if op.Guard? then op.fail else op.no, target, spec)
  }

  lemma ControlOf(c: Call, op: RiteOp, pc: Pc, next: Option<Pc>, target: Option<Sigil>, spec: Spec, ops: nat)
    requires HasPred(op)
    ensures var (r, left) := Guarded(c, pc, spec.proj, target, ops);
      Exec(c, op, pc, next, target, spec, ops) == (Decide(r, Yes(op, next, target, spec), No(op, target, spec)), left)
  {
    hide Guarded, Onward, Decide;
  }

  lemma SameWays(op: RiteOp, next: Option<Pc>, target: Option<Sigil>, spec: Spec)
    requires HasPred(op)
    ensures HasPred(FoldOp(op)) && Yes(FoldOp(op), next, target, spec) == Yes(op, next, target, spec)
    ensures No(FoldOp(op), target, spec) == No(op, target, spec)
  {
    hide Simplify, Onward;
  }

  lemma StepRefines(c: Call, d: Call, w: Compile.Tables, instr: Instr, next: Option<Pc>, target: Option<Sigil>,
                    spec: Spec, ops: nat, more: nat)
    requires Recooks(c, d) && ops <= more
    requires GuardOk(instr, c.rite.guards, c.canon.preds, w)
    requires HasPred(instr.op) ==> Kept(instr.op.pred, w)
    requires GuardOk(Instr(instr.pc, FoldOp(instr.op)), d.rite.guards, d.canon.preds, w)
    ensures var (r, left) := Exec(c, instr.op, instr.pc, next, target, spec, ops);
      var (q, left') := Exec(d, FoldOp(instr.op), instr.pc, next, target, spec, more);
      r != Failed(GuardBudget) ==> q == r && left <= left'
  {
    if HasPred(instr.op) {
      GuardRefines(c, d, w, instr, spec.proj, target, ops, more);
      ControlOf(c, instr.op, instr.pc, next, target, spec, ops);
      ControlOf(d, FoldOp(instr.op), instr.pc, next, target, spec, more);
      SameWays(instr.op, next, target, spec);
      hide Guarded, GuardOk, Kept, Exec, Yes, No, FoldOp, Recooks;
    } else {
      PlainRecooked(c, d, instr.op, instr.pc, next, target, spec, ops, more);
      hide Exec, GuardOk, Kept;
    }
  }

  lemma FoundFolded(instrs: seq<Instr>, pc: Pc)
    ensures OpAt(FoldInstrs(instrs), pc) ==
      if OpAt(instrs, pc).None? then None else Some(FoldOp(OpAt(instrs, pc).value))
    ensures NextPc(Pcs(FoldInstrs(instrs)), pc) == NextPc(Pcs(instrs), pc)
  {
    PcsFolded(instrs);
    hide FoldOp;
  }

  /** A rite cooked from the folded document runs as the reference cook of it: whenever the reference run
      is not cut short by the predicate budget, the folded run takes the same path to the same end, leaves
      the same world and the same events, and has at least as many predicate ops to spare. */
  lemma {:induction false} FoldedRiteRefines(c: Call, d: Call, w: Compile.Tables, pc: Pc, target: Option<Sigil>,
                                             spec: Spec, fuel: nat, ops: nat, more: nat)
    requires Recooks(c, d) && d.rite.instrs == FoldInstrs(c.rite.instrs) && ops <= more
    requires NoDuplicates(Pcs(c.rite.instrs)) && KeptGuards(c.rite.instrs, w)
    requires GuardsCooked(c.rite.instrs, c.rite.guards, c.canon.preds, w)
    requires GuardsCooked(d.rite.instrs, d.rite.guards, d.canon.preds, w)
    ensures var o, f := Burst(c, pc, target, spec, fuel, ops), Burst(d, pc, target, spec, fuel, more);
      o.end != Rejected(GuardBudget) ==>
        f.end == o.end && f.spec == o.spec && f.trace == o.trace && o.predOps <= f.predOps
    decreases fuel
  {
    hide Exec, NextPc, Finish, GuardOk, Kept, FoldOp;
    FoundFolded(c.rite.instrs, pc);
    if fuel == 0 {
      SlotsRecooked(c, d);
    } else if OpAt(c.rite.instrs, pc).Some? {
      var i := Position(Pcs(c.rite.instrs), pc).value;
      var instr, next := c.rite.instrs[i], NextPc(Pcs(c.rite.instrs), pc);
      assert d.rite.instrs[i] == Instr(instr.pc, FoldOp(instr.op));
      StepRefines(c, d, w, instr, next, target, spec, ops, more);
      var (r, left) := Exec(c, instr.op, pc, next, target, spec, ops);
      if r.Goto? {
        FoldedRiteRefines(c, d, w, r.pc, r.target, r.spec, fuel - 1, left,
                          Exec(d, FoldOp(instr.op), pc, next, target, spec, more).1);
      }
    }
  }

  // ---------------------------------------------------------------------------------------------
  // Admission under folded laws.

  /** Two cooks of the laws, looked at from one proposal. */
  ghost predicate SameCase(c: Laws.Case, d: Laws.Case) { d.loci == c.loci && d.ctx == c.ctx }

  /** The folded side repeats every decision that did not hit the budget, for no more ops. */
  predicate NoWorse<T(==)>(r: (Result<T, RejectReason>, nat), q: (Result<T, RejectReason>, nat)) {
    r.0 != Err(Budget) ==> q.0 == r.0 && r.1 <= q.1
  }

  /** The rows of a predicate and of its folded form. */
  ghost predicate Rows(c: Laws.Case, d: Laws.Case, i: nat, j: nat, p: Pred, w: Compile.Tables) {
    Laws.RowOf(c, i, p, w, AsWired(w)) && Laws.RowOf(d, j, Simplify(p), w, AsWired(w)) && FoldKeeps(p, w)
  }

  lemma RowRefines(c: Laws.Case, d: Laws.Case, i: nat, j: nat, p: Pred, w: Compile.Tables, ctx: Ctx, ops: nat,
                   more: nat)
    requires Rows(c, d, i, j, p, w) && ops <= more
    ensures NoWorse(Laws.EvalRow(c, i, ctx, ops), Laws.EvalRow(d, j, ctx, more))
    ensures Laws.EvalRow(c, i, ctx, ops).0.Err? ==> Laws.EvalRow(c, i, ctx, ops).0 == Err(Budget)
  {
    hide CookedAs, Means, TotalCost, Simplify, Eval.RunPred, ValidatorAccepts;
    CookedRuns(p, c.preds[i], w, ctx, ops);
    CookedRuns(Simplify(p), d.preds[j], w, ctx, more);
  }

  lemma {:induction false} CountRefines(c: Laws.Case, d: Laws.Case, loci: seq<Sigil>, i: nat, j: nat, mark: Pred,
                                        require: Option<(Rel, CookedSlot)>, w: Compile.Tables, n: nat, ops: nat,
                                        more: nat)
    requires SameCase(c, d) && Rows(c, d, i, j, mark, w) && ops <= more
    ensures NoWorse(Laws.CapCount(c, loci, i, require, n, ops), Laws.CapCount(d, loci, j, require, n, more))
    ensures Laws.CapCount(c, loci, i, require, n, ops).0.Err? ==>
      Laws.CapCount(c, loci, i, require, n, ops).0 == Err(Budget)
    decreases |loci|
  {
    hide Rows, Laws.EvalRow, Laws.MarkCtx;
    if loci != [] {
      if !Laws.Counts(c, loci[0], require) {
        CountRefines(c, d, loci[1..], i, j, mark, require, w, n, ops, more);
      } else {
        var ctx := Laws.MarkCtx(c.ctx, loci[0]);
        RowRefines(c, d, i, j, mark, w, ctx, ops, more);
        var (v, left) := Laws.EvalRow(c, i, ctx, ops);
        if v.Ok? {
          CountRefines(c, d, loci[1..], i, j, mark, require, w, if v.value then Laws.AddU16(n) else n, left,
                       Laws.EvalRow(d, j, ctx, more).1);
        }
      }
    }
  }

  /** One law and its folded form, each cooked, under one id, with predicates that folding keeps. */
  ghost predicate CookedTwice(c: Laws.Case, d: Laws.Case, l: Law, a: Laws.CookedLaw, b: Laws.CookedLaw,
                              w: Compile.Tables)
  {
    && Laws.CookedLawOf(c, l, a, w, AsWired(w)) && Laws.CookedLawOf(d, FoldLaw(l), b, w, AsWired(w)) && a.id == b.id
    && KeptLaw(l, w)
  }

  lemma BothCooked(c: Laws.Case, d: Laws.Case, l: Law, a: Laws.CookedLaw, b: Laws.CookedLaw, w: Compile.Tables)
    requires Laws.CookedLawOf(c, l, a, w, AsWired(w)) && Laws.CookedLawOf(d, FoldLaw(l), b, w, AsWired(w))
    requires KeptLaw(l, w) && a.id == b.id
    ensures CookedTwice(c, d, l, a, b, w)
  {
    hide Laws.CookedLawOf, KeptLaw, FoldLaw;
  }

  lemma BodyRefines(c: Laws.Case, d: Laws.Case, l: Law, a: Laws.CookedLaw, b: Laws.CookedLaw, w: Compile.Tables,
                    applies: bool, ops: nat, more: nat)
    requires SameCase(c, d) && CookedTwice(c, d, l, a, b, w) && ops <= more
    ensures NoWorse(Laws.AdmitBody(c, a, applies, ops), Laws.AdmitBody(d, b, applies, more))
  {
    hide Laws.RowOf, Laws.EvalRow, Laws.CapCount, Simplify, Laws.ConserveHolds, Compile.SlotOf, Compile.Lookup, FoldKeeps;
    if l.body.PredLaw? {
      RowRefines(c, d, a.body.must, b.body.must, l.body.must, w, c.ctx, ops, more);
    } else if l.body.CapLaw? {
      CapRows(c, a.body.mark, l.body.mark, w);
      CapRows(d, b.body.mark, Simplify(l.body.mark), w);
      CountRefines(c, d, c.loci, a.body.mark, b.body.mark, l.body.mark, a.body.require, w, 0, ops, more);
    }
  }

  lemma CapRows(c: Laws.Case, ix: nat, p: Pred, w: Compile.Tables)
    requires Laws.RowOf(c, ix, p, w, AsWired(w))
    ensures ix < |c.preds|
  {
  }

  lemma LawRefines(c: Laws.Case, d: Laws.Case, l: Law, a: Laws.CookedLaw, b: Laws.CookedLaw, w: Compile.Tables,
                   ops: nat, more: nat)
    requires SameCase(c, d) && CookedTwice(c, d, l, a, b, w) && ops <= more
    ensures NoWorse(Laws.AdmitLaw(c, a, ops), Laws.AdmitLaw(d, b, more))
  {
    WhenCooked(c, d, l, a, b, w);
    hide Rows, Laws.EvalRow, Laws.AdmitBody, CookedTwice;
    RowRefines(c, d, a.when, b.when, l.when, w, c.ctx, ops, more);
    var (v, left) := Laws.EvalRow(c, a.when, c.ctx, ops);
    if v.Ok? {
      BodyRefines(c, d, l, a, b, w, v.value, left, Laws.EvalRow(d, b.when, c.ctx, more).1);
    }
  }

  lemma WhenCooked(c: Laws.Case, d: Laws.Case, l: Law, a: Laws.CookedLaw, b: Laws.CookedLaw, w: Compile.Tables)
    requires CookedTwice(c, d, l, a, b, w)
    ensures Rows(c, d, a.when, b.when, l.when, w)
  {
    hide Laws.RowOf, Simplify, FoldKeeps;
  }

  /** Folding the laws changes no admission: what the reference laws decide within budget, the folded laws
      decide the same, down to the law named, and leave at least as many ops. */
  lemma {:induction false} FoldedLawsRefine(c: Laws.Case, d: Laws.Case, ls: seq<Law>, refs: seq<Laws.CookedLaw>,
                                            opts: seq<Laws.CookedLaw>, w: Compile.Tables, ops: nat, more: nat)
    requires SameCase(c, d) && |refs| == |ls| == |opts| && ops <= more
    requires forall i :: 0 <= i < |ls| ==> CookedTwice(c, d, ls[i], refs[i], opts[i], w)
    ensures NoWorse(Laws.AdmitAll(c, refs, ops), Laws.AdmitAll(d, opts, more))
    decreases |ls|
  {
    hide Laws.AdmitLaw, CookedTwice;
    if ls != [] {
      LawRefines(c, d, ls[0], refs[0], opts[0], w, ops, more);
      var (r, left) := Laws.AdmitLaw(c, refs[0], ops);
      if r.Ok? {
        FoldedLawsRefine(c, d, ls[1..], refs[1..], opts[1..], w, left, Laws.AdmitLaw(d, opts[0], more).1);
      }
    }
  }

  /** For any validated laws, exactly when that is so under every budget: where the reference can pay for what is
      due, the folded laws rule the same and what they have due is no dearer. */
  lemma FoldedLawsIff(c: Laws.Case, d: Laws.Case, ls: seq<Law>, refs: seq<Laws.CookedLaw>, opts: seq<Laws.CookedLaw>,
                      w: Compile.Tables)
    requires Laws.CookedLaws(c, ls, refs, w, AsWired(w)) && Laws.CookedLaws(d, FoldLaws(ls), opts, w, AsWired(w))
    ensures var due, due' := Laws.LawsDue(c, ls, w, AsWired(w)), Laws.LawsDue(d, FoldLaws(ls), w, AsWired(w));
      (forall ops: nat :: NoWorse(Laws.AdmitAll(c, refs, ops), Laws.AdmitAll(d, opts, ops))) <==>
        (Laws.Payable(due, Laws.Total(due)) ==>
           && Laws.Payable(due', Laws.Total(due))
           && Laws.LawsRuling(d, FoldLaws(ls), opts, w, AsWired(w)) == Laws.LawsRuling(c, ls, refs, w, AsWired(w)))
  {
    var due, due' := Laws.LawsDue(c, ls, w, AsWired(w)), Laws.LawsDue(d, FoldLaws(ls), w, AsWired(w));
    var ruled := Laws.LawsRuling(c, ls, refs, w, AsWired(w));
    Ruled(c, ls, refs, w, Laws.Total(due));
    Ruled(d, FoldLaws(ls), opts, w, Laws.Total(due));
    hide Laws.CookedLaws, Laws.LawsDue, Laws.LawsRuling, Laws.AdmitAll, Laws.Payable, FoldLaws;
    forall ops: nat
      ensures Laws.Payable(due, ops) ==> Laws.Payable(due, Laws.Total(due)) && Laws.Total(due) <= ops
      ensures Laws.Payable(due', Laws.Total(due)) ==>
        Laws.Total(due') <= Laws.Total(due) && (Laws.Total(due) <= ops ==> Laws.Payable(due', ops))
    {
      PayableMore(due, due', ops);
    }
    if Laws.Payable(due, Laws.Total(due)) ==>
         Laws.Payable(due', Laws.Total(due)) && Laws.LawsRuling(d, FoldLaws(ls), opts, w, AsWired(w)) == ruled
    {
      forall ops: nat
        ensures NoWorse(Laws.AdmitAll(c, refs, ops), Laws.AdmitAll(d, opts, ops))
      {
        Ruled(c, ls, refs, w, ops);
        Ruled(d, FoldLaws(ls), opts, w, ops);
      }
    }
  }

  lemma PayableMore(due: seq<nat>, due': seq<nat>, ops: nat)
    ensures Laws.Payable(due, ops) ==> Laws.Payable(due, Laws.Total(due)) && Laws.Total(due) <= ops
    ensures Laws.Payable(due', Laws.Total(due)) ==>
      Laws.Total(due') <= Laws.Total(due) && (Laws.Total(due) <= ops ==> Laws.Payable(due', ops))
  {
    hide Laws.Total;
  }

  lemma Ruled(c: Laws.Case, ls: seq<Law>, laws: seq<Laws.CookedLaw>, w: Compile.Tables, ops: nat)
    requires Laws.CookedLaws(c, ls, laws, w, AsWired(w))
    ensures var due, ruling := Laws.LawsDue(c, ls, w, AsWired(w)), Laws.LawsRuling(c, ls, laws, w, AsWired(w));
      && ruling != Err(Budget)
      && (Laws.Payable(due, ops) ==> Laws.AdmitAll(c, laws, ops) == (ruling, ops - Laws.Total(due)))
      && (!Laws.Payable(due, ops) ==> Laws.AdmitAll(c, laws, ops).0 == Err(Budget))
      && (Laws.Payable(due, ops) ==> Laws.Total(due) <= ops)
  {
    hide Laws.CookedLawOf, Laws.LawsDue, Laws.LawsRuling, Laws.AdmitAll, Laws.Payable, Laws.Passes;
    Laws.AdmissionDecides(c, ls, laws, w, AsWired(w), ops);
    Laws.RulingNames(c, ls, laws, w, AsWired(w));
    Laws.PaidFor(Laws.LawsDue(c, ls, w, AsWired(w)), ops);
  }

  // ---------------------------------------------------------------------------------------------
  // The two cooks end in the same tables.

  function FoldTodo(todo: Todo): Todo { if todo.CompilePred? then CompilePred(Simplify(todo.p)) else todo }

  function FoldTodos(todos: seq<Todo>): (r: seq<Todo>)
    ensures |r| == |todos| && forall i :: 0 <= i < |todos| ==> r[i] == FoldTodo(todos[i])
  {
    seq(|todos|, i requires 0 <= i < |todos| => FoldTodo(todos[i]))
  }

  /** The benches hold the same tables and equally many rows. */
  predicate Level(b: Bench, c: Bench) { c.tables == b.tables && |c.preds| == |b.preds| }

  lemma FoldDo(todo: Todo, b: Bench, c: Bench)
    requires Do(todo, b).Ok? && Level(b, c)
    ensures Do(FoldTodo(todo), c).Ok? && Level(Do(todo, b).value, Do(FoldTodo(todo), c).value)
  {
    if todo.CompilePred? {
      var (prog, u) := Compile.Compiled(todo.p, b.tables).value;
      FoldCompiles(todo.p, b.tables, prog, u);
      hide Compile.Compiled, Simplify;
    }
  }

  /** Working off a folded list leaves what the original leaves, row for row, but for the code in the rows. */
  lemma {:induction false} FoldDoAll(todos: seq<Todo>, b: Bench, c: Bench)
    requires DoAll(todos, b).Ok? && Level(b, c)
    ensures DoAll(FoldTodos(todos), c).Ok? && Level(DoAll(todos, b).value, DoAll(FoldTodos(todos), c).value)
    decreases |todos|
  {
    hide Do, FoldTodo;
    if todos != [] {
      FoldDo(todos[0], b, c);
      assert FoldTodos(todos)[1..] == FoldTodos(todos[1..]);
      FoldDoAll(todos[1..], Do(todos[0], b).value, Do(FoldTodo(todos[0]), c).value);
    }
  }

  lemma FoldTodosConcat(x: seq<Todo>, y: seq<Todo>)
    ensures FoldTodos(x + y) == FoldTodos(x) + FoldTodos(y)
  {
    hide FoldTodo;
  }

  lemma OpTodosFolded(op: RiteOp)
    ensures OpTodos(FoldOp(op)) == FoldTodos(OpTodos(op))
  {
    hide Simplify;
  }

  lemma {:induction false} RiteTodosFolded(instrs: seq<Instr>)
    ensures RiteTodos(FoldInstrs(instrs)) == FoldTodos(RiteTodos(instrs))
  {
    if instrs != [] {
      var init, op := instrs[..|instrs| - 1], instrs[|instrs| - 1].op;
      RiteTodosFolded(init);
      OpTodosFolded(op);
      hide FoldOp, OpTodos, FoldTodo;
      assert FoldInstrs(instrs)[..|instrs| - 1] == FoldInstrs(init);
      FoldTodosConcat(RiteTodos(init), OpTodos(op));
    }
  }

  /** A law compiles its `when` first, then its body; the names its body uses come last. */
  function LawTodos(l: Law): seq<Todo> {
    [CompilePred(l.when)]
    + match l.body
      case PredLaw(must, ought) => [CompilePred(must)] + (if ought.Some? then [NameResource(ought.value)] else [])
      case RampLaw(res) => [NameResource(res)]
      case SpreadLaw(res) => [NameResource(res)]
      case ConserveLaw(res, _) => [NameResource(res)]
      case CapLaw(mark, _, require) =>
        [CompilePred(mark)] + (if require.Some? then [NameSlot(require.value.1)] else [])
  }

  lemma LawTodosFolded(l: Law)
    ensures LawTodos(FoldLaw(l)) == FoldTodos(LawTodos(l))
  {
    hide Simplify;
  }

  /** A document with its retractions applied. */
  datatype Draft = Draft(laws: seq<Law>, affordances: seq<Affordances>, rites: seq<RiteGraph>)

  datatype Affordances = Affordances(needs: seq<Pred>, conflicts: seq<Name>)

  function NeedTodos(needs: seq<Pred>): (r: seq<Todo>)
    ensures |r| == |needs| && forall i :: 0 <= i < |needs| ==> r[i] == CompilePred(needs[i])
  {
    seq(|needs|, i requires 0 <= i < |needs| => CompilePred(needs[i]))
  }

  function ConflictTodos(names: seq<Name>): (r: seq<Todo>)
    ensures |r| == |names| && forall i :: 0 <= i < |names| ==> r[i] == NameAffordance(names[i])
  {
    seq(|names|, i requires 0 <= i < |names| => NameAffordance(names[i]))
  }

  function LawsTodos(laws: seq<Law>): seq<Todo> {
    if laws == [] then [] else LawTodos(laws[0]) + LawsTodos(laws[1..])
  }

  function AffordancesTodos(affordances: seq<Affordances>): seq<Todo> {
    if affordances == [] then []
    else
      NeedTodos(affordances[0].needs) + ConflictTodos(affordances[0].conflicts) + AffordancesTodos(affordances[1..])
  }

  function RitesTodos(rites: seq<RiteGraph>): seq<Todo> {
    if rites == [] then [] else RiteTodos(Layout(rites[0].nodes)) + RitesTodos(rites[1..])
  }

  /** The order of the cook: laws, affordances, rites. */
  function DraftTodos(d: Draft): seq<Todo> { LawsTodos(d.laws) + AffordancesTodos(d.affordances) + RitesTodos(d.rites) }

  function FoldLaws(laws: seq<Law>): (r: seq<Law>)
    ensures |r| == |laws| && forall i :: 0 <= i < |laws| ==> r[i] == FoldLaw(laws[i])
  {
    seq(|laws|, i requires 0 <= i < |laws| => FoldLaw(laws[i]))
  }

  function FoldAffordances(affordances: seq<Affordances>): (r: seq<Affordances>)
    ensures |r| == |affordances|
    ensures forall i :: 0 <= i < |r| ==> r[i] == affordances[i].(needs := FoldPreds(affordances[i].needs))
  {
    seq(|affordances|, i requires 0 <= i < |affordances| => affordances[i].(needs := FoldPreds(affordances[i].needs)))
  }

  function FoldRites(rites: seq<RiteGraph>): (r: seq<RiteGraph>)
    ensures |r| == |rites|
    ensures forall i :: 0 <= i < |r| ==> r[i] == rites[i].(nodes := FoldNodes(rites[i].nodes))
  {
    seq(|rites|, i requires 0 <= i < |rites| => rites[i].(nodes := FoldNodes(rites[i].nodes)))
  }

  function FoldDraft(d: Draft): Draft { Draft(FoldLaws(d.laws), FoldAffordances(d.affordances), FoldRites(d.rites)) }

  lemma {:induction false} LawsTodosFolded(laws: seq<Law>)
    ensures LawsTodos(FoldLaws(laws)) == FoldTodos(LawsTodos(laws))
  {
    hide FoldLaw, LawTodos, FoldTodo;
    if laws != [] {
      LawsTodosFolded(laws[1..]);
      LawTodosFolded(laws[0]);
      assert FoldLaws(laws)[1..] == FoldLaws(laws[1..]);
      FoldTodosConcat(LawTodos(laws[0]), LawsTodos(laws[1..]));
    }
  }

  lemma {:induction false} AffordancesTodosFolded(affordances: seq<Affordances>)
    ensures AffordancesTodos(FoldAffordances(affordances)) == FoldTodos(AffordancesTodos(affordances))
  {
    hide Simplify;
    if affordances != [] {
      var needs, conflicts := affordances[0].needs, affordances[0].conflicts;
      AffordancesTodosFolded(affordances[1..]);
      assert FoldAffordances(affordances)[1..] == FoldAffordances(affordances[1..]);
      assert NeedTodos(FoldPreds(needs)) == FoldTodos(NeedTodos(needs));
      assert ConflictTodos(conflicts) == FoldTodos(ConflictTodos(conflicts));
      FoldTodosConcat(NeedTodos(needs), ConflictTodos(conflicts));
      FoldTodosConcat(NeedTodos(needs) + ConflictTodos(conflicts), AffordancesTodos(affordances[1..]));
      hide FoldTodos, NeedTodos, ConflictTodos;
    }
  }

  lemma {:induction false} RitesTodosFolded(rites: seq<RiteGraph>)
    ensures RitesTodos(FoldRites(rites)) == FoldTodos(RitesTodos(rites))
  {
    hide RiteTodos, FoldTodo, Layout, FoldInstrs, FoldNodes;
    if rites != [] {
      RitesTodosFolded(rites[1..]);
      LayoutFolded(rites[0].nodes);
      RiteTodosFolded(Layout(rites[0].nodes));
      assert FoldRites(rites)[1..] == FoldRites(rites[1..]);
      FoldTodosConcat(RiteTodos(Layout(rites[0].nodes)), RitesTodos(rites[1..]));
    }
  }

  /** Cooking the folded document ends in the intern tables of the reference cook, with as many program rows. */
  lemma FoldedCookSameTables(d: Draft, b: Bench)
    requires DoAll(DraftTodos(d), b).Ok?
    ensures DoAll(DraftTodos(FoldDraft(d)), b).Ok?
    ensures Level(DoAll(DraftTodos(d), b).value, DoAll(DraftTodos(FoldDraft(d)), b).value)
  {
    var x, y, z := LawsTodos(d.laws), AffordancesTodos(d.affordances), RitesTodos(d.rites);
    LawsTodosFolded(d.laws);
    AffordancesTodosFolded(d.affordances);
    RitesTodosFolded(d.rites);
    FoldTodosConcat(x, y);
    FoldTodosConcat(x + y, z);
    assert DraftTodos(FoldDraft(d)) == FoldTodos(DraftTodos(d));
    hide DoAll, FoldTodos, DraftTodos;
    FoldDoAll(DraftTodos(d), b, b);
  }

  /** `w` is where cooking `d` from `b` ends. */
  ghost predicate CookEnds(d: Draft, b: Bench, w: Compile.Tables) {
    DoAll(DraftTodos(d), b).Ok? && DoAll(DraftTodos(d), b).value.tables == w
  }

  lemma SameEnd(d: Draft, b: Bench, w: Compile.Tables, x: Compile.Tables)
    requires CookEnds(d, b, w) && CookEnds(FoldDraft(d), b, x)
    ensures x == w
  {
    FoldedCookSameTables(d, b);
    hide DoAll, DraftTodos, FoldDraft;
  }

  // ---------------------------------------------------------------------------------------------
  // The optimized cook: folded, cooked, and its program table interned.

  /** The optimized rite against the reference rite: same path, end, world and events whenever the
      reference run stays within the predicate budget, and no fewer ops left. */
  lemma OptimizedRiteRefines(c: Call, d: Call, doc: Draft, b: Bench, w: Compile.Tables, x: Compile.Tables, pc: Pc, target: Option<Sigil>,
                             spec: Spec, fuel: nat, ops: nat)
    requires CookEnds(doc, b, w) && CookEnds(FoldDraft(doc), b, x)
    requires Recooks(c, d) && d.rite.instrs == FoldInstrs(c.rite.instrs)
    requires NoDuplicates(Pcs(c.rite.instrs)) && KeptGuards(c.rite.instrs, w)
    requires GuardsCooked(c.rite.instrs, c.rite.guards, c.canon.preds, w)
    requires GuardsCooked(d.rite.instrs, d.rite.guards, d.canon.preds, x)
    requires Tables.RiteIds(d.rite, |d.canon.preds|)
    ensures var o, f := Burst(c, pc, target, spec, fuel, ops), Burst(Tables.Interned(d), pc, target, spec, fuel, ops);
      o.end != Rejected(GuardBudget) ==>
        f.end == o.end && f.spec == o.spec && f.trace == o.trace && o.predOps <= f.predOps
  {
    hide Burst, GuardsCooked, KeptGuards, Recooks, FoldInstrs, CookEnds, FoldDraft;
    SameEnd(doc, b, w, x);
    FoldedRiteRefines(c, d, w, pc, target, spec, fuel, ops, ops);
    Tables.RunsUnchanged(d, pc, target, spec, fuel, ops);
  }

  /** The optimized laws against the reference laws. */
  lemma OptimizedLawsRefine(c: Laws.Case, d: Laws.Case, ls: seq<Law>, refs: seq<Laws.CookedLaw>,
                            opts: seq<Laws.CookedLaw>, mapped: seq<Laws.CookedLaw>, doc: Draft, b: Bench,
                            w: Compile.Tables, x: Compile.Tables, ops: nat)
    requires CookEnds(doc, b, w) && CookEnds(FoldDraft(doc), b, x)
    requires SameCase(c, d) && |refs| == |ls| == |opts| == |mapped|
    requires forall i :: 0 <= i < |ls| ==> KeptLaw(ls[i], w) && refs[i].id == opts[i].id
    requires Laws.CookedLaws(c, ls, refs, w, AsWired(w)) && Laws.CookedLaws(d, FoldLaws(ls), opts, x, AsWired(x))
    requires forall l :: l in opts ==> Tables.LawIds(l, |d.preds|)
    requires forall i :: 0 <= i < |opts| ==> mapped[i] == Tables.MapLaw(opts[i], Tables.Remap(d.preds))
    ensures NoWorse(Laws.AdmitAll(c, refs, ops), Laws.AdmitAll(d.(preds := FirstSeen(d.preds)), mapped, ops))
  {
    hide Laws.AdmitAll, FirstSeen, Tables.MapLaw, Tables.Remap, Tables.LawIds, CookEnds, FoldDraft, KeptLaw, FoldLaw,
         Laws.CookedLawOf;
    SameEnd(doc, b, w, x);
    forall i | 0 <= i < |ls|
      ensures CookedTwice(c, d, ls[i], refs[i], opts[i], w)
    {
      assert FoldLaws(ls)[i] == FoldLaw(ls[i]);
      BothCooked(c, d, ls[i], refs[i], opts[i], w);
    }
    FoldedLawsRefine(c, d, ls, refs, opts, w, ops, ops);
    Tables.LawsUnchanged(d, opts, mapped, ops);
  }
}
