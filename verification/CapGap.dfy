/** A cap where its `when` does not apply. */
module CapGap {
  import opened Prelude
  import opened Pred
  import opened Atoms
  import opened Contradict
  import opened Pipeline
  import opened Wiring
  import opened Laws
  import Compile
  import Eval

  /** No proposal may leave any locus marked, under a `when` that asks for verb 1; the mark is verb 0. */
  const IdleCap: Law := Law("idle", EqVerb(1), CapLaw(EqVerb(0), 0, None))

  /** The program of a verb test. */
  function VerbProgram(v: Verb): Compile.Program {
    Compile.Program([Compile.PushAtom(0), Compile.Halt], [EqVerbAtom(v)], [])
  }

  lemma VerbCompiles(v: Verb, t: Compile.Tables)
    ensures Compile.Compiled(EqVerb(v), t) == Ok((VerbProgram(v), t))
  {
    assert Desugar(EqVerb(v)) == EqVerb(v);
    assert Compile.CookNames(EqVerb(v), t) == Ok(t) && Compile.OpCount(EqVerb(v)) == 1;
    assert Compile.AtomsMet(EqVerb(v), t) == [EqVerbAtom(v)];
    assert Compile.AddAtoms([], [EqVerbAtom(v)]) == [EqVerbAtom(v)];
    assert Compile.AtomIx([EqVerbAtom(v)], EqVerbAtom(v)) == 0;
    assert Compile.Postfix(EqVerb(v), t, [EqVerbAtom(v)]) == [Compile.PushAtom(0)];
    assert Compile.ScansOf(EqVerb(v), t, [EqVerbAtom(v)]) == [];
    assert [Compile.PushAtom(0)] + [Compile.Halt] == VerbProgram(v).ops;
    hide Desugar, Compile.CookNames, Compile.AtomsMet, Compile.AddAtoms, Compile.AtomIx, Compile.Postfix, Compile.ScansOf;
  }

  lemma VerbRuns(v: Verb, ctx: Ctx, ops: nat)
    requires ops >= 2
    ensures Eval.RunPred(VerbProgram(v), ctx, ops) == (Ok(ctx.verb == v), ops - 2)
  {
    var prog, m := VerbProgram(v), Eval.Meter(ops, Compile.PRED_OPS_PER_EVAL);
    var stack := Eval.PushOp(prog.ops[0], [], prog, ctx, None);
    assert stack == [ctx.verb == v];
    assert prog.ops[1..] == [Compile.Halt];
    assert Eval.RunOps([Compile.Halt], stack, prog, ctx, None, 0, Eval.Charge(m))
      == Eval.Run(Ok(ctx.verb == v), 0, Eval.Charge(Eval.Charge(m)));
  }

  /** The law does not apply, so nothing is asked of the proposal; admission rejects it for the law all the same. */
  lemma CapIgnoresWhen(c: Case, ops: nat)
    requires c.preds == [VerbProgram(1), VerbProgram(0)] && c.ctx.verb == 0 && c.loci == [c.ctx.actor] && ops >= 4
    ensures var law := CookedLaw(7, 0, CookedCap(1, 0, None));
      && CookedLawOf(c, IdleCap, law, Compile.NoTables, AsWired(Compile.NoTables))
      && AdmitLaw(c, law, ops).0 == Err(LawBroken(7))
      && LawMet(c, IdleCap, Compile.NoTables, AsAuthored(Compile.NoTables))
  {
    hide Eval.RunPred, RowOf, VerbProgram, CapCount;
    VerbRow(c, 0, 1);
    VerbRow(c, 1, 0);
    OneMarked(c, ops - 2);
    VerbRuns(1, c.ctx, ops);
    assert !AsAuthored(Compile.NoTables)(EqVerb(1), c.ctx);
  }

  lemma OneMarked(c: Case, ops: nat)
    requires |c.preds| == 2 && c.preds[1] == VerbProgram(0) && c.ctx.verb == 0 && c.loci == [c.ctx.actor] && ops >= 2
    ensures CapCount(c, c.loci, 1, None, 0, ops) == (Ok(1), ops - 2)
  {
    VerbRuns(0, MarkCtx(c.ctx, c.ctx.actor), ops);
    hide Eval.RunPred, VerbProgram;
    assert c.loci[1..] == [];
    assert CapCount(c, [], 1, None, 1, ops - 2) == (Ok(1), ops - 2);
  }

  lemma VerbRow(c: Case, ix: nat, v: Verb)
    requires ix < |c.preds| && c.preds[ix] == VerbProgram(v)
    ensures RowOf(c, ix, EqVerb(v), Compile.NoTables, AsWired(Compile.NoTables))
  {
    VerbCompiles(v, Compile.NoTables);
    CookedNow(EqVerb(v), Compile.NoTables, VerbProgram(v), Compile.NoTables);
    hide CookedAs, Means;
  }
}
