/** Interning of predicate rows. */
module Tables {
  // Identical programs share a row in the optimized cook.

  import opened Prelude
  import opened Pred
  import opened Atoms
  import opened Rites
  import opened World
  import opened RiteVm
  import opened Recook
  import opened Laws
  import opened Distinct
  import Compile
  import Eval

  type Program = Compile.Program

  // ---------------------------------------------------------------------------------------------
  // The unique table: programs in order of first occurrence.

  /** Old id to new id. */
  function Remap(preds: seq<Program>): (remap: seq<nat>)
    ensures |remap| == |preds|
    ensures forall i :: 0 <= i < |preds| ==> remap[i] < |FirstSeen(preds)| && FirstSeen(preds)[remap[i]] == preds[i]
  {
    seq(|preds|, i requires 0 <= i < |preds| => IndexIn(FirstSeen(preds), preds[i]))
  }

  /** The table keeps the order of first occurrences: what is first seen earlier has the smaller id. */
  lemma {:induction false} FirstOccurrenceOrder(preds: seq<Program>, i: nat, j: nat)
    requires i < j < |preds| && preds[j] !in preds[..j]
    ensures Remap(preds)[i] < Remap(preds)[j]
  {
    FirstSeenPrefix(preds, j);
    assert preds[i] == preds[..j][i];
    PrefixHolds(FirstSeen(preds[..j]), FirstSeen(preds), Remap(preds)[i]);
    PrefixHolds(FirstSeen(preds[..j]), FirstSeen(preds), Remap(preds)[j]);
  }

  // ---------------------------------------------------------------------------------------------
  // Rewriting references.

  predicate LawIds(law: CookedLaw, n: nat) {
    && law.when < n
    && (law.body.CookedPred? ==> law.body.must < n)
    && (law.body.CookedCap? ==> law.body.mark < n)
  }

  function MapLaw(law: CookedLaw, remap: seq<nat>): CookedLaw
    requires LawIds(law, |remap|)
  {
    CookedLaw(law.id, remap[law.when],
              if law.body.CookedPred? then CookedPred(remap[law.body.must])
              else if law.body.CookedCap? then law.body.(mark := remap[law.body.mark])
              else law.body)
  }

  predicate Ids(ids: seq<nat>, n: nat) { forall i :: 0 <= i < |ids| ==> ids[i] < n }

  function MapIds(ids: seq<nat>, remap: seq<nat>): (r: seq<nat>)
    requires Ids(ids, |remap|)
    ensures |r| == |ids| && forall i :: 0 <= i < |ids| ==> r[i] == remap[ids[i]]
  {
    seq(|ids|, i requires 0 <= i < |ids| => remap[ids[i]])
  }

  predicate RiteIds(rite: CookedRite, n: nat) { forall pc :: pc in rite.guards ==> rite.guards[pc] < n }

  function MapRite(rite: CookedRite, remap: seq<nat>): CookedRite
    requires RiteIds(rite, |remap|)
  {
    rite.(guards := map pc | pc in rite.guards :: remap[rite.guards[pc]])
  }

  class CanonTables {
    var preds: seq<Program>
    var laws: seq<CookedLaw>
    var affordances: seq<seq<nat>>
    var rites: seq<CookedRite>

    /** Every reference points into the predicate table. */
    ghost predicate Valid()
      reads this
    {
      && |preds| <= U16_MAX + 1
      && (forall l :: l in laws ==> LawIds(l, |preds|))
      && (forall a :: a in affordances ==> Ids(a, |preds|))
      && (forall r :: r in rites ==> RiteIds(r, |preds|))
    }

    /** Move the table through the unique list. */
    method Dedupe() returns (remap: seq<nat>)
      requires |preds| <= U16_MAX + 1
      modifies this`preds
      ensures preds == FirstSeen(old(preds)) && remap == Remap(old(preds))
    {
      hide FirstSeen, IndexIn;
      ghost var all := preds;
      var unique: seq<Program> := [];
      remap := [];
      FirstSeenNone<Program>();
      for k := 0 to |preds|
        invariant unique == FirstSeen(all[..k]) && |remap| == k && preds == all
        invariant forall i :: 0 <= i < k ==> remap[i] < |unique| && unique[remap[i]] == all[i]
      {
        FirstSeenSnoc(all, k);
        var p := preds[k];
        if p !in unique {
          unique := unique + [p];
        }
        remap := remap + [IndexIn(unique, p) % (U16_MAX + 1)];
      }
      assert all[..|all|] == all;
      SameRemap(all, remap);
      preds := unique;
    }

    /** `intern_predicates`: the count of rows removed. */
    method InternPredicates() returns (removed: nat)
      requires Valid()
      modifies this
      ensures preds == FirstSeen(old(preds)) && removed == |old(preds)| - |preds| && Valid()
      ensures |laws| == |old(laws)| && forall i :: 0 <= i < |laws| ==>
        laws[i] == MapLaw(old(laws)[i], Remap(old(preds)))
      ensures |affordances| == |old(affordances)| && forall i :: 0 <= i < |affordances| ==>
        affordances[i] == MapIds(old(affordances)[i], Remap(old(preds)))
      ensures |rites| == |old(rites)| && forall i :: 0 <= i < |rites| ==>
        rites[i] == MapRite(old(rites)[i], Remap(old(preds)))
    {
      hide FirstSeen, Remap, MapLaw, MapIds, MapRite;
      ghost var all := preds;
      var before := |preds|;
      var remap := Dedupe();
      laws := RewriteLaws(laws, remap);
      affordances := RewriteIds(affordances, remap);
      rites := RewriteRites(rites, remap);
      StillValid(all, remap);
      removed := before - |preds|;
    }
  }

  method RewriteLaws(laws: seq<CookedLaw>, remap: seq<nat>) returns (r: seq<CookedLaw>)
    requires forall l :: l in laws ==> LawIds(l, |remap|)
    ensures |r| == |laws| && forall i :: 0 <= i < |laws| ==> r[i] == MapLaw(laws[i], remap)
  {
    r := [];
    for k := 0 to |laws|
      invariant |r| == k && forall i :: 0 <= i < k ==> r[i] == MapLaw(laws[i], remap)
    {
      r := r + [MapLaw(laws[k], remap)];
    }
  }

  method RewriteIds(lists: seq<seq<nat>>, remap: seq<nat>) returns (r: seq<seq<nat>>)
    requires forall a :: a in lists ==> Ids(a, |remap|)
    ensures |r| == |lists| && forall i :: 0 <= i < |lists| ==> r[i] == MapIds(lists[i], remap)
  {
    r := [];
    for k := 0 to |lists|
      invariant |r| == k && forall i :: 0 <= i < k ==> r[i] == MapIds(lists[i], remap)
    {
      r := r + [MapIds(lists[k], remap)];
    }
  }

  method RewriteRites(rites: seq<CookedRite>, remap: seq<nat>) returns (r: seq<CookedRite>)
    requires forall x :: x in rites ==> RiteIds(x, |remap|)
    ensures |r| == |rites| && forall i :: 0 <= i < |rites| ==> r[i] == MapRite(rites[i], remap)
  {
    r := [];
    for k := 0 to |rites|
      invariant |r| == k && forall i :: 0 <= i < k ==> r[i] == MapRite(rites[i], remap)
    {
      r := r + [MapRite(rites[k], remap)];
    }
  }

  lemma SameRemap(preds: seq<Program>, remap: seq<nat>)
    requires |remap| == |preds|
    requires forall i :: 0 <= i < |preds| ==> remap[i] < |FirstSeen(preds)| && FirstSeen(preds)[remap[i]] == preds[i]
    ensures remap == Remap(preds)
  {
  }

  lemma StillValid(preds: seq<Program>, remap: seq<nat>)
    requires remap == Remap(preds)
    ensures forall l :: LawIds(l, |preds|) ==> LawIds(MapLaw(l, remap), |FirstSeen(preds)|)
    ensures forall a :: Ids(a, |preds|) ==> Ids(MapIds(a, remap), |FirstSeen(preds)|)
    ensures forall r :: RiteIds(r, |preds|) ==> RiteIds(MapRite(r, remap), |FirstSeen(preds)|)
  {
    hide FirstSeen;
    forall a | Ids(a, |preds|)
      ensures Ids(MapIds(a, remap), |FirstSeen(preds)|)
    {
    }
  }

  // ---------------------------------------------------------------------------------------------
  // Nothing changes for whoever follows a reference.

  /** A rewritten law is admitted or broken exactly as before, for the same ops. */
  lemma LawsUnchanged(c: Case, laws: seq<CookedLaw>, mapped: seq<CookedLaw>, ops: nat)
    requires |mapped| == |laws| && forall l :: l in laws ==> LawIds(l, |c.preds|)
    requires forall i :: 0 <= i < |laws| ==> mapped[i] == MapLaw(laws[i], Remap(c.preds))
    ensures AdmitAll(c.(preds := FirstSeen(c.preds)), mapped, ops) == AdmitAll(c, laws, ops)
    decreases |laws|
  {
    hide AdmitLaw, FirstSeen, Remap, MapLaw;
    if laws != [] {
      LawUnchanged(c, laws[0], ops);
      LawsUnchanged(c, laws[1..], mapped[1..], AdmitLaw(c, laws[0], ops).1);
    }
  }

  lemma RowUnchanged(c: Case, ix: nat, ctx: Ctx, ops: nat)
    requires ix < |c.preds|
    ensures EvalRow(c.(preds := FirstSeen(c.preds)), Remap(c.preds)[ix], ctx, ops) == EvalRow(c, ix, ctx, ops)
  {
    hide Eval.RunPred, FirstSeen;
  }

  lemma {:induction false} CountUnchanged(c: Case, loci: seq<Sigil>, mark: nat, require: Option<(Rel, CookedSlot)>, n: nat,
                                          ops: nat)
    requires mark < |c.preds|
    ensures CapCount(c.(preds := FirstSeen(c.preds)), loci, Remap(c.preds)[mark], require, n, ops)
      == CapCount(c, loci, mark, require, n, ops)
    decreases |loci|
  {
    hide EvalRow, FirstSeen, Remap;
    if loci != [] {
      RowUnchanged(c, mark, MarkCtx(c.ctx, loci[0]), ops);
      var (v, left) := EvalRow(c, mark, MarkCtx(c.ctx, loci[0]), ops);
      if !Counts(c, loci[0], require) {
        CountUnchanged(c, loci[1..], mark, require, n, ops);
      } else if v.Ok? {
        CountUnchanged(c, loci[1..], mark, require, if v.value then AddU16(n) else n, left);
      }
    }
  }

  lemma LawUnchanged(c: Case, law: CookedLaw, ops: nat)
    requires LawIds(law, |c.preds|)
    ensures AdmitLaw(c.(preds := FirstSeen(c.preds)), MapLaw(law, Remap(c.preds)), ops) == AdmitLaw(c, law, ops)
  {
    hide EvalRow, CapCount, FirstSeen, ConserveHolds;
    RowUnchanged(c, law.when, c.ctx, ops);
    var left := EvalRow(c, law.when, c.ctx, ops).1;
    if law.body.CookedPred? {
      RowUnchanged(c, law.body.must, c.ctx, left);
    } else if law.body.CookedCap? {
      CountUnchanged(c, c.loci, law.body.mark, law.body.require, 0, left);
    }
  }

  /** The same call against the interned tables. */
  function Interned(c: Call): Call
    requires RiteIds(c.rite, |c.canon.preds|)
  {
    c.(canon := c.canon.(preds := FirstSeen(c.canon.preds)), rite := MapRite(c.rite, Remap(c.canon.preds)))
  }

  lemma InternedRecooks(c: Call)
    requires RiteIds(c.rite, |c.canon.preds|)
    ensures Recooks(c, Interned(c)) && Interned(c).rite.instrs == c.rite.instrs
  {
    hide FirstSeen, Remap;
  }

  lemma GuardUnchanged(c: Call, pc: Pc, proj: Proj, target: Option<Sigil>, predOps: nat)
    requires RiteIds(c.rite, |c.canon.preds|)
    ensures Guarded(Interned(c), pc, proj, target, predOps) == Guarded(c, pc, proj, target, predOps)
  {
    InternedRecooks(c);
    CtxRecooked(c, Interned(c), proj, target);
    hide Eval.RunPred, FirstSeen, CtxOf;
  }

  /** A rite runs from the interned tables exactly as from the original ones. */
  lemma {:induction false} RunsUnchanged(c: Call, pc: Pc, target: Option<Sigil>, spec: Spec, fuel: nat, predOps: nat)
    requires RiteIds(c.rite, |c.canon.preds|)
    ensures Burst(Interned(c), pc, target, spec, fuel, predOps) == Burst(c, pc, target, spec, fuel, predOps)
    decreases fuel
  {
    hide Exec, OpAt, NextPc, Finish, Interned, Guarded;
    InternedRecooks(c);
    if fuel == 0 {
      SlotsRecooked(c, Interned(c));
    } else if OpAt(c.rite.instrs, pc).Some? {
      var op, next := OpAt(c.rite.instrs, pc).value, NextPc(Pcs(c.rite.instrs), pc);
      GuardUnchanged(c, pc, spec.proj, target, predOps);
      ExecRecooked(c, Interned(c), op, pc, next, target, spec, predOps);
      var (r, left) := Exec(c, op, pc, next, target, spec, predOps);
      if r.Goto? {
        RunsUnchanged(c, r.pc, r.target, r.spec, fuel - 1, left);
      }
    }
  }
}
