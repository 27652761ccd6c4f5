/** Cooking a rite. */
module RiteCook {
  // Check its control flow, lay it out and compile its guards; and what the machine then computes, in terms of
  // the predicates as authored.

  import opened Prelude
  import opened Pred
  import opened Rites
  import opened Distinct
  import opened Cfg
  import opened World
  import opened RiteVm
  import opened Emitter
  import opened Bench
  import opened Wiring
  import Compile
  import Meaning
  import opened Pipeline

  ghost predicate GuardOk(instr: Instr, guards: map<Pc, nat>, preds: seq<Compile.Program>, w: Compile.Tables) {
    HasPred(instr.op) ==>
      && instr.pc in guards && guards[instr.pc] < |preds|
      && CookedAs(instr.op.pred, preds[guards[instr.pc]], w)
  }

  /** Every guard and branch finds the program of its own predicate. */
  ghost predicate GuardsCooked(instrs: seq<Instr>, guards: map<Pc, nat>, preds: seq<Compile.Program>, w: Compile.Tables) {
    forall i :: 0 <= i < |instrs| ==> GuardOk(instrs[i], guards, preds, w)
  }

  lemma GuardOkLater(instr: Instr, guards: map<Pc, nat>, preds: seq<Compile.Program>, w: Compile.Tables,
                     more: map<Pc, nat>, longer: seq<Compile.Program>, x: Compile.Tables)
    requires GuardOk(instr, guards, preds, w) && preds <= longer && Compile.Grows(w, x)
    requires instr.pc in guards ==> instr.pc in more && more[instr.pc] == guards[instr.pc]
    ensures GuardOk(instr, more, longer, x)
  {
    if HasPred(instr.op) {
      CookedLater(instr.op.pred, preds[guards[instr.pc]], w, x);
      hide CookedAs;
    }
  }

  datatype CookFault = BadCfg(cfg: CfgError) | BadPred(pred: Compile.CookError)

  /** One node: compile its predicate, or intern the names it writes. */
  method CookNode(op: RiteOp, pc: Pc, intern: Interner, guards0: map<Pc, nat>, preds0: seq<Compile.Program>)
    returns (fault: Option<Compile.CookError>, guards: map<Pc, nat>, preds: seq<Compile.Program>)
    modifies intern
    ensures match DoAll(OpTodos(op), Bench(old(intern.View()), preds0))
      case Ok(b) =>
        && fault.None? && intern.View() == b.tables && preds == b.preds
        && guards == (if HasPred(op) then guards0[pc := |preds0|] else guards0)
      case Err(e) => fault == Some(e)
  {
    hide Compile.Compiled;
    ghost var b := Bench(intern.View(), preds0);
    guards, preds := guards0, preds0;
    OneTodo(op, b);
    if HasPred(op) {
      var prog := CompilePredWith(op.pred, intern);
      if prog.Err? {
        return Some(prog.error), guards, preds;
      }
      if |preds| > U16_MAX {
        return Some(Compile.TableFull), guards, preds;
      }
      guards := guards[pc := |preds|];
      preds := preds + [prog.value];
    } else if op.Spend? || op.Setq? {
      var id := intern.InternResource(op.res);
      if id.Err? {
        return Some(id.error), guards, preds;
      }
    } else if op.Spawn? {
      var id := intern.InternFact(op.template);
      if id.Err? {
        return Some(id.error), guards, preds;
      }
    }
    fault := None;
  }

  lemma OneTodo(op: RiteOp, b: Bench)
    ensures DoAll(OpTodos(op), b) == if OpTodos(op) == [] then Ok(b) else Do(OpTodos(op)[0], b)
    ensures |OpTodos(op)| <= 1
  {
    hide Do;
    if OpTodos(op) != [] {
      var rest := OpTodos(op)[1..];
      assert rest == [];
    }
  }

  /** What a node leaves is a cooked guard, and the tables only grew. */
  lemma NodeCooked(op: RiteOp, pc: Pc, b: Bench, guards: map<Pc, nat>)
    requires DoAll(OpTodos(op), b).Ok?
    ensures var next := DoAll(OpTodos(op), b).value;
      && Compile.Grows(b.tables, next.tables) && b.preds <= next.preds
      && GuardOk(Instr(pc, op), if HasPred(op) then guards[pc := |b.preds|] else guards, next.preds, next.tables)
  {
    OneTodo(op, b);
    DoAllGrows(OpTodos(op), b);
    hide Compile.Grows, Compile.Compiled, CookedAs;
    if HasPred(op) {
      var (prog, u) := Compile.Compiled(op.pred, b.tables).value;
      CookedNow(op.pred, b.tables, prog, u);
    }
  }

  /** `cook_rite`.  It fails exactly on the graphs the control-flow check refuses, and else exactly where the
      node list cannot be worked off.  A cooked rite is sound, and each of its guards is found and is what its
      predicate compiled to. */
  method CookRite(id: nat, name: Name, g: RiteGraph, capSteps: nat, intern: Interner, preds0: seq<Compile.Program>)
    returns (r: Result<CookedRite, CookFault>, preds: seq<Compile.Program>)
    modifies intern
    ensures Verdict(g).Err? ==> r == Err(BadCfg(Verdict(g).error))
    ensures Verdict(g).Ok? ==>
      match DoAll(RiteTodos(Layout(g.nodes)), Bench(old(intern.View()), preds0))
      case Ok(b) => r.Ok? && intern.View() == b.tables && preds == b.preds
      case Err(e) => r == Err(BadPred(e))
    ensures r.Ok? && Fits(g.nodes) ==>
      Sound(r.value.entry, r.value.instrs) && GuardsCooked(r.value.instrs, r.value.guards, preds, intern.View())
    ensures r.Ok? ==>
      && r.value.id == id && r.value.name == name && r.value.capSteps == capSteps
      && r.value.entry == g.entry && r.value.instrs == Layout(g.nodes)
      && preds0 <= preds && Compile.Grows(old(intern.View()), intern.View())
  {
    hide Verdict, Sound, GuardOk, Compile.Grows, AnyLabeled, AnyOp, RiteTodos, OpTodos, DoAll, HasPred;
    preds := preds0;
    var cfg := CheckRiteCfg(g);
    if cfg.Err? {
      return Err(BadCfg(cfg.error)), preds;
    }
    var instrs := Layout(g.nodes);
    if Fits(g.nodes) {
      AcceptedIffSound(g);
    }
    SoundDistinct(g.entry, instrs);
    var guards: map<Pc, nat> := map[];
    ghost var start := Bench(intern.View(), preds0);
    NothingDone(start);
    for i := 0 to |instrs|
      invariant Fits(g.nodes) ==> forall j :: 0 <= j < i ==> GuardOk(instrs[j], guards, preds, intern.View())
      invariant DoAll(RiteTodos(instrs[..i]), start) == Ok(Bench(intern.View(), preds))
    {
      ghost var guardsWas, predsWas, w := guards, preds, intern.View();
      RiteTodosNext(instrs, i);
      DoConcat(RiteTodos(instrs[..i]), OpTodos(instrs[i].op), start);
      var fault;
      fault, guards, preds := CookNode(instrs[i].op, instrs[i].pc, intern, guards, preds);
      if fault.Some? {
        StillFails(instrs, i + 1, start);
        return Err(BadPred(fault.value)), preds;
      }
      NodeCooked(instrs[i].op, instrs[i].pc, Bench(w, predsWas), guardsWas);
      forall j | 0 <= j < i && Fits(g.nodes)
        ensures GuardOk(instrs[j], guards, preds, intern.View())
      {
        assert Pcs(instrs)[j] != Pcs(instrs)[i];
        GuardOkLater(instrs[j], guardsWas, predsWas, w, guards, preds, intern.View());
      }
      assert instrs[i] == Instr(instrs[i].pc, instrs[i].op);
    }
    assert instrs[..|instrs|] == instrs;
    DoAllGrows(RiteTodos(instrs), start);
    r := Ok(CookedRite(id, name, g.entry, capSteps, instrs, guards));
  }

  lemma NothingDone(b: Bench)
    ensures DoAll(RiteTodos([]), b) == Ok(b)
  {
  }

  /** A prefix of the node list that fails makes the whole list fail alike. */
  lemma {:induction false} StillFails(instrs: seq<Instr>, i: nat, b: Bench)
    requires i <= |instrs| && DoAll(RiteTodos(instrs[..i]), b).Err?
    ensures DoAll(RiteTodos(instrs), b) == DoAll(RiteTodos(instrs[..i]), b)
    decreases |instrs| - i
  {
    hide DoAll, RiteTodos, OpTodos;
    if i == |instrs| {
      assert instrs[..i] == instrs;
    } else {
      RiteTodosNext(instrs, i);
      DoConcat(RiteTodos(instrs[..i]), OpTodos(instrs[i].op), b);
      StillFails(instrs, i + 1, b);
    }
  }

  // ---------------------------------------------------------------------------------------------
  // The machine, in terms of what its predicates mean.

  /** One instruction: guards and branches go by the reading of their predicates. */
  ghost function Authored(c: Call, says: Reading, op: RiteOp, pc: Pc, next: Option<Pc>, target: Option<Sigil>, spec: Spec)
    : Next
  {
    if op.Guard? then
      if says(op.pred, CtxOf(c, spec.proj, target)) then Onward(next, target, spec) else Goto(op.fail, target, spec)
    else if op.Branch? then
      Goto(if says(op.pred, CtxOf(c, spec.proj, target)) then op.yes else op.no, target, spec)
    else Exec(c, op, pc, next, target, spec, 0).0
  }

  /** A burst under a reading: no predicate is compiled, cached or metered. */
  ghost function AuthoredBurst(c: Call, says: Reading, pc: Pc, target: Option<Sigil>, spec: Spec, fuel: nat): Outcome
    decreases fuel
  {
    if fuel == 0 then Outcome(OutOfSteps, Finish(c, FailBudget, spec), [], 0)
    else
      match OpAt(c.rite.instrs, pc)
      case None => Outcome(Rejected(NoInstr), spec, [pc], 0)
      case Some(op) =>
        match Authored(c, says, op, pc, NextPc(Pcs(c.rite.instrs), pc), target, spec)
        case Goto(pc', target', spec') => Prepend(pc, AuthoredBurst(c, says, pc', target', spec', fuel - 1))
        case Ended(spec') => Outcome(Done, spec', [pc], 0)
        case Yielded(spec') => Outcome(Waiting, spec', [pc], 0)
        case Failed(cause) => Outcome(Rejected(cause), spec, [pc], 0)
  }

  /** Every predicate of the rite passed the validator, and is read as its code computes. */
  ghost predicate Readable(instrs: seq<Instr>, says: Reading, w: Compile.Tables) {
    forall i :: 0 <= i < |instrs| && HasPred(instrs[i].op) ==>
      ValidatorAccepts(instrs[i].op.pred, false) && Tells(says, instrs[i].op.pred, w)
  }

  predicate ValidGuards(instrs: seq<Instr>) {
    forall i :: 0 <= i < |instrs| && HasPred(instrs[i].op) ==> ValidatorAccepts(instrs[i].op.pred, false)
  }

  /** Every predicate of the rite is wired as it is written. */
  predicate FaithfulGuards(instrs: seq<Instr>) {
    forall i :: 0 <= i < |instrs| && HasPred(instrs[i].op) ==> Faithful(instrs[i].op.pred)
  }

  /** A cooked guard decides what its code means, or runs out of predicate ops; a faithful one decides what was
      authored. */
  lemma GuardMeans(c: Call, w: Compile.Tables, instr: Instr, proj: Proj, target: Option<Sigil>, predOps: nat)
    requires GuardOk(instr, c.rite.guards, c.canon.preds, w) && HasPred(instr.op)
    requires ValidatorAccepts(instr.op.pred, false)
    ensures var ctx := CtxOf(c, proj, target);
      var cost := TotalCost(instr.op.pred, w, ctx);
      Guarded(c, instr.pc, proj, target, predOps) ==
        if cost <= Min(predOps, Compile.PRED_OPS_PER_EVAL)
        then (Ok(Means(instr.op.pred, w, ctx)), predOps - cost)
        else (Err(GuardBudget), predOps - Min(predOps, Compile.PRED_OPS_PER_EVAL))
    ensures Faithful(instr.op.pred) ==>
      var ctx := CtxOf(c, proj, target); Means(instr.op.pred, w, ctx) == Meaning.Holds(instr.op.pred, w, ctx, None)
  {
    hide CookedAs, TotalCost, Meaning.Holds, Means, CtxOf, Faithful, ValidatorAccepts;
    CookedRuns(instr.op.pred, c.canon.preds[c.rite.guards[instr.pc]], w, CtxOf(c, proj, target), predOps);
    if Faithful(instr.op.pred) {
      FaithfulMeans(instr.op.pred, w, CtxOf(c, proj, target));
    }
  }

  /** An instruction does what the reading says unless its predicate runs out of ops. */
  lemma ExecMeans(c: Call, w: Compile.Tables, says: Reading, instr: Instr, next: Option<Pc>, target: Option<Sigil>,
                  spec: Spec, predOps: nat)
    requires GuardOk(instr, c.rite.guards, c.canon.preds, w)
    requires HasPred(instr.op) ==> ValidatorAccepts(instr.op.pred, false) && Tells(says, instr.op.pred, w)
    ensures var r := Exec(c, instr.op, instr.pc, next, target, spec, predOps).0;
      r == Failed(GuardBudget) || r == Authored(c, says, instr.op, instr.pc, next, target, spec)
  {
    if HasPred(instr.op) {
      GuardMeans(c, w, instr, spec.proj, target, predOps);
    }
    hide Guarded, Means, Meaning.Holds, TotalCost, CtxOf, ExecWait, ExecBind, ExecSpawn, ExecSpend, ExecSetq,
         ExecRel, ExecAwake, ExecPhysReq, Push, Finish, GuardOk, ValidatorAccepts, Faithful;
  }

  /** A cooked rite runs as it is read: same end, same world, same events and the same path, unless some guard
      runs the predicate budget dry, which rejects the whole proposal. */
  lemma {:induction false} CookedRiteRuns(c: Call, w: Compile.Tables, says: Reading, pc: Pc, target: Option<Sigil>,
                                          spec: Spec, fuel: nat, predOps: nat)
    requires NoDuplicates(Pcs(c.rite.instrs)) && Readable(c.rite.instrs, says, w)
    requires GuardsCooked(c.rite.instrs, c.rite.guards, c.canon.preds, w)
    ensures var o, a := Burst(c, pc, target, spec, fuel, predOps), AuthoredBurst(c, says, pc, target, spec, fuel);
      o.end == Rejected(GuardBudget) || (o.end == a.end && o.spec == a.spec && o.trace == a.trace)
    decreases fuel
  {
    hide Exec, Authored, NextPc, Finish, GuardOk, Tells, ValidatorAccepts;
    if fuel > 0 && OpAt(c.rite.instrs, pc).Some? {
      var i := Position(Pcs(c.rite.instrs), pc).value;
      var instr, next := c.rite.instrs[i], NextPc(Pcs(c.rite.instrs), pc);
      ExecMeans(c, w, says, instr, next, target, spec, predOps);
      var (r, left) := Exec(c, instr.op, pc, next, target, spec, predOps);
      if r.Goto? {
        CookedRiteRuns(c, w, says, r.pc, r.target, r.spec, fuel - 1, left);
      }
    }
  }

  /** Any validated rite runs as its guards are wired. */
  lemma CookedRiteRunsAsWired(c: Call, w: Compile.Tables, pc: Pc, target: Option<Sigil>, spec: Spec, fuel: nat, predOps: nat)
    requires NoDuplicates(Pcs(c.rite.instrs)) && ValidGuards(c.rite.instrs)
    requires GuardsCooked(c.rite.instrs, c.rite.guards, c.canon.preds, w)
    ensures var o := Burst(c, pc, target, spec, fuel, predOps);
      var a := AuthoredBurst(c, AsWired(w), pc, target, spec, fuel);
      o.end == Rejected(GuardBudget) || (o.end == a.end && o.spec == a.spec && o.trace == a.trace)
  {
    hide Burst, AuthoredBurst, GuardsCooked, Means, ValidatorAccepts;
    CookedRiteRuns(c, w, AsWired(w), pc, target, spec, fuel, predOps);
  }

  /** And as authored when every guard is faithful. */
  lemma CookedRiteRunsAsAuthored(c: Call, w: Compile.Tables, pc: Pc, target: Option<Sigil>, spec: Spec, fuel: nat,
                                 predOps: nat)
    requires NoDuplicates(Pcs(c.rite.instrs)) && ValidGuards(c.rite.instrs) && FaithfulGuards(c.rite.instrs)
    requires GuardsCooked(c.rite.instrs, c.rite.guards, c.canon.preds, w)
    ensures var o := Burst(c, pc, target, spec, fuel, predOps);
      var a := AuthoredBurst(c, AsAuthored(w), pc, target, spec, fuel);
      o.end == Rejected(GuardBudget) || (o.end == a.end && o.spec == a.spec && o.trace == a.trace)
  {
    forall i | 0 <= i < |c.rite.instrs| && HasPred(c.rite.instrs[i].op)
      ensures Tells(AsAuthored(w), c.rite.instrs[i].op.pred, w)
    {
      FaithfulTells(c.rite.instrs[i].op.pred, w);
    }
    hide Burst, AuthoredBurst, GuardsCooked, Tells, ValidatorAccepts, Faithful;
    CookedRiteRuns(c, w, AsAuthored(w), pc, target, spec, fuel, predOps);
  }
}
