/** One rite, two cooks. */
module Recook {
  // What an instruction does depends on the code, the guard rows and the program table only through the answer
  // of its own guard.

  import opened Prelude
  import opened Rites
  import opened Distinct
  import opened World
  import opened RiteVm

  /** The calls differ in code, guard rows and program table at most. */
  ghost predicate Recooks(c: Call, d: Call) {
    d == c.(canon := c.canon.(preds := d.canon.preds), rite := c.rite.(instrs := d.rite.instrs, guards := d.rite.guards))
  }

  lemma CtxRecooked(c: Call, d: Call, proj: Proj, target: Option<Sigil>)
    requires Recooks(c, d)
    ensures CtxOf(d, proj, target) == CtxOf(c, proj, target)
  {
    assert StoreOf(proj, d.canon) == StoreOf(proj, c.canon);
  }

  lemma RowsRecooked(c: Call, d: Call)
    requires Recooks(c, d)
    ensures forall s, pc, w, t, ch :: PutRow(d, s, pc, w, t, ch) == PutRow(c, s, pc, w, t, ch)
    ensures forall s, t :: Clashes(d, s, t) == Clashes(c, s, t)
    ensures forall s :: Authorized(d, s) == Authorized(c, s)
  {
    hide Write, PutRite, RiteRow, Position, Push;
  }

  lemma SlotsRecooked(c: Call, d: Call)
    requires Recooks(c, d)
    ensures forall s, t :: ResolveSlot(s, d, t) == ResolveSlot(s, c, t)
    ensures forall s, st :: Finish(d, st, s) == Finish(c, st, s)
  {
    hide Position, Push;
  }

  /** Code without a predicate runs the same, and does not touch the predicate budget. */
  lemma PlainRecooked(c: Call, d: Call, op: RiteOp, pc: Pc, next: Option<Pc>, target: Option<Sigil>, spec: Spec,
                      ops: nat, more: nat)
    requires Recooks(c, d) && !HasPred(op)
    ensures Exec(c, op, pc, next, target, spec, ops).1 == ops
    ensures Exec(d, op, pc, next, target, spec, more) == (Exec(c, op, pc, next, target, spec, ops).0, more)
  {
    hide PutRow, Clashes, Authorized, ResolveSlot, Finish, Push, Write, Position, Woken, CtxOf, RiteRow, StoreOf;
    if op.Wait? || op.Bind? {
      RowsRecooked(c, d);
    } else {
      SlotsRecooked(c, d);
      QtyRecooked(c, d, spec.proj);
    }
  }

  lemma QtyRecooked(c: Call, d: Call, proj: Proj)
    requires Recooks(c, d)
    ensures StoreOf(proj, d.canon) == StoreOf(proj, c.canon)
  {
  }

  /** An instruction whose guard answers the same does the same. */
  lemma ExecRecooked(c: Call, d: Call, op: RiteOp, pc: Pc, next: Option<Pc>, target: Option<Sigil>, spec: Spec,
                     predOps: nat)
    requires Recooks(c, d)
    requires HasPred(op) ==> Guarded(d, pc, spec.proj, target, predOps) == Guarded(c, pc, spec.proj, target, predOps)
    ensures Exec(d, op, pc, next, target, spec, predOps) == Exec(c, op, pc, next, target, spec, predOps)
  {
    if HasPred(op) {
      hide Guarded;
    } else {
      PlainRecooked(c, d, op, pc, next, target, spec, predOps, predOps);
      hide Exec;
    }
  }
}
