/** The optimizer's predicate folding: `a && a`, `a || a` and `!!a`. */
module Fold {
  import opened Prelude
  import opened Pred
  import opened Atoms
  import opened Compile
  import opened Eval
  import opened Meaning
  import opened Wiring
  import opened Pipeline

  datatype Folded = Folded(pred: Pred, changed: nat)

  /** `fold_pred`: children first, then one rewrite at this node. */
  function FoldPred(p: Pred): Folded {
    match p
    case And(a, b) =>
      var fa, fb := FoldPred(a), FoldPred(b);
      if fa.pred == fb.pred then Folded(fa.pred, fa.changed + fb.changed + 1)
      else Folded(And(fa.pred, fb.pred), fa.changed + fb.changed)
    case Or(a, b) =>
      var fa, fb := FoldPred(a), FoldPred(b);
      if fa.pred == fb.pred then Folded(fa.pred, fa.changed + fb.changed + 1)
      else Folded(Or(fa.pred, fb.pred), fa.changed + fb.changed)
    case Not(a) =>
      var fa := FoldPred(a);
      if fa.pred.Not? then Folded(fa.pred.inner, fa.changed + 1) else Folded(Not(fa.pred), fa.changed)
    case ExistsRelated(of, rel, body) =>
      var fb := FoldPred(body);
      Folded(ExistsRelated(of, rel, fb.pred), fb.changed)
    case CountRelated(of, rel, body, cmp, v) =>
      var fb := FoldPred(body);
      Folded(CountRelated(of, rel, fb.pred, cmp, v), fb.changed)
    case _ => Folded(p, 0)
  }

  function Simplify(p: Pred): Pred { FoldPred(p).pred }

  /** One rewrite at a node whose children are folded. */
  lemma {:induction false} SimplifyParts(p: Pred)
    ensures p.And? ==>
      Simplify(p) == (if Simplify(p.left) == Simplify(p.right) then Simplify(p.left)
                      else And(Simplify(p.left), Simplify(p.right)))
    ensures p.Or? ==>
      Simplify(p) == (if Simplify(p.left) == Simplify(p.right) then Simplify(p.left)
                      else Or(Simplify(p.left), Simplify(p.right)))
    ensures p.Not? ==>
      Simplify(p) == (if Simplify(p.inner).Not? then Simplify(p.inner).inner
                      else Not(Simplify(p.inner)))
    ensures p.ExistsRelated? ==> Simplify(p) == ExistsRelated(p.of, p.rel, Simplify(p.body))
    ensures p.CountRelated? ==> Simplify(p) == CountRelated(p.of, p.rel, Simplify(p.body), p.cmp, p.v)
    ensures !IsCombinator(p) ==> Simplify(p) == p
  {
  }

  /** No duplicate operands and no double negation anywhere. */
  predicate Normal(p: Pred) {
    match p
    case And(a, b) => Normal(a) && Normal(b) && a != b
    case Or(a, b) => Normal(a) && Normal(b) && a != b
    case Not(a) => Normal(a) && !a.Not?
    case ExistsRelated(_, _, body) => Normal(body)
    case CountRelated(_, _, body, _, _) => Normal(body)
    case _ => true
  }

  /** Folding reaches a normal form. */
  lemma {:induction false} FoldNormal(p: Pred)
    ensures Normal(Simplify(p))
  {
    if p.And? || p.Or? {
      FoldNormal(p.left);
      FoldNormal(p.right);
    } else if p.Not? {
      FoldNormal(p.inner);
    } else if p.ExistsRelated? || p.CountRelated? {
      FoldNormal(p.body);
    }
  }

  /** The reported count is zero exactly on normal forms, which folding leaves alone. */
  lemma {:induction false} FoldChanged(p: Pred)
    ensures FoldPred(p).changed == 0 <==> Normal(p)
    ensures Normal(p) ==> Simplify(p) == p
  {
    if p.And? || p.Or? {
      FoldChanged(p.left);
      FoldChanged(p.right);
    } else if p.Not? {
      FoldChanged(p.inner);
    } else if p.ExistsRelated? || p.CountRelated? {
      FoldChanged(p.body);
    }
  }

  /** A second pass does nothing and says so. */
  lemma FoldIdempotent(p: Pred)
    ensures FoldPred(Simplify(p)) == Folded(Simplify(p), 0)
  {
    FoldNormal(p);
    FoldChanged(Simplify(p));
  }

  /** Folding keeps the meaning. */
  lemma {:induction false} FoldHolds(p: Pred, t: Tables, ctx: Ctx, other: Option<Sigil>)
    ensures Holds(Simplify(p), t, ctx, other) == Holds(p, t, ctx, other)
    decreases p
  {
    SimplifyParts(p);
    HoldsParts(p, t, ctx, other);
    HoldsParts(Simplify(p), t, ctx, other);
    hide Holds, Simplify, SameMeaning;
    if p.And? || p.Or? {
      FoldHolds(p.left, t, ctx, other);
      FoldHolds(p.right, t, ctx, other);
    } else if p.Not? {
      FoldHolds(p.inner, t, ctx, other);
      HoldsParts(Simplify(p.inner), t, ctx, other);
    } else if p.ExistsRelated? || p.CountRelated? {
      var q := Simplify(p.body);
      forall n ensures Holds(p.body, t, ctx, n) == Holds(q, t, ctx, n) {
        FoldHolds(p.body, t, ctx, n);
      }
      SameMeaningIntro(p.body, q, t, ctx);
      if p.ExistsRelated? {
        ScanSame(p.of, p.rel, p.body, q, Eq, 0, t, ctx, other);
      } else {
        ScanSame(p.of, p.rel, p.body, q, p.cmp, p.v, t, ctx, other);
      }
    }
  }

  // ---------------------------------------------------------------------------------------------
  // What folding does to compilation.

  function Length(p: Pred): nat { OpCount(Desugar(p)) }

  lemma LengthParts(p: Pred)
    ensures p.And? || p.Or? ==> Length(p) == Length(p.left) + Length(p.right) + 1
    ensures p.Not? ==> Length(p) == Length(p.inner) + 1
    ensures p.ExistsRelated? || p.CountRelated? ==> Length(p) == 1
  {
  }

  lemma {:induction false} FoldLength(p: Pred)
    ensures Length(Simplify(p)) <= Length(p)
  {
    SimplifyParts(p);
    LengthParts(p);
    LengthParts(Simplify(p));
    hide Simplify, Length;
    if p.And? || p.Or? {
      FoldLength(p.left);
      FoldLength(p.right);
    } else if p.Not? {
      FoldLength(p.inner);
      LengthParts(Simplify(p.inner));
    } else if p.ExistsRelated? || p.CountRelated? {
    }
  }

  /** `p` compiles without scans; `p` compiles with scan-free scan bodies. */
  predicate ScanFree(p: Pred) { QuantifierFree(Desugar(p)) }

  predicate ScansFlat(p: Pred) { Flat(Desugar(p)) }

  lemma ScanFreeParts(p: Pred)
    ensures p.And? || p.Or? ==>
      && (ScanFree(p) <==> ScanFree(p.left) && ScanFree(p.right))
      && (ScansFlat(p) <==> ScansFlat(p.left) && ScansFlat(p.right))
    ensures p.Not? ==>
      && (ScanFree(p) <==> ScanFree(p.inner)) && (ScansFlat(p) <==> ScansFlat(p.inner))
    ensures p.ExistsRelated? || p.CountRelated? ==> !ScanFree(p) && (ScansFlat(p) <==> ScanFree(p.body))
  {
  }

  lemma {:induction false} FoldScanFree(p: Pred)
    ensures ScanFree(p) ==> ScanFree(Simplify(p))
    ensures ScansFlat(p) ==> ScansFlat(Simplify(p))
  {
    SimplifyParts(p);
    ScanFreeParts(p);
    ScanFreeParts(Simplify(p));
    hide Simplify, ScanFree, ScansFlat;
    if p.And? || p.Or? {
      FoldScanFree(p.left);
      FoldScanFree(p.right);
    } else if p.Not? {
      FoldScanFree(p.inner);
      ScanFreeParts(Simplify(p.inner));
    } else if p.ExistsRelated? || p.CountRelated? {
      FoldScanFree(p.body);
    }
  }

  function Spend(p: Pred, t: Tables, ctx: Ctx, other: Option<Sigil>): nat { Cost(Desugar(p), t, ctx, other) }

  function ListSpend(body: Pred, t: Tables, ctx: Ctx, neigh: seq<Sigil>): nat { ListCost(Desugar(body), t, ctx, neigh) }

  lemma SpendParts(p: Pred, t: Tables, ctx: Ctx, other: Option<Sigil>)
    ensures p.And? || p.Or? ==>
      Spend(p, t, ctx, other) == Spend(p.left, t, ctx, other) + Spend(p.right, t, ctx, other) + 1
    ensures p.Not? ==> Spend(p, t, ctx, other) == Spend(p.inner, t, ctx, other) + 1
    ensures p.ExistsRelated? || p.CountRelated? ==>
      Spend(p, t, ctx, other) == 1 + ListSpend(p.body, t, ctx, Neighbors(p.of, p.rel, t, ctx, other))
  {
    DesugarParts(p);
    CostParts(Desugar(p), t, ctx, other);
    hide Cost, ListCost, Neighbors, Desugar;
  }

  /** Folding never raises the cost of an evaluation as written. */
  lemma {:induction false} FoldCost(p: Pred, t: Tables, ctx: Ctx, other: Option<Sigil>)
    ensures Spend(Simplify(p), t, ctx, other) <= Spend(p, t, ctx, other)
    decreases p, 0
  {
    SimplifyParts(p);
    SpendParts(p, t, ctx, other);
    SpendParts(Simplify(p), t, ctx, other);
    hide Simplify, Spend, ListSpend, Neighbors;
    if p.And? || p.Or? {
      FoldCost(p.left, t, ctx, other);
      FoldCost(p.right, t, ctx, other);
    } else if p.Not? {
      FoldCost(p.inner, t, ctx, other);
      SpendParts(Simplify(p.inner), t, ctx, other);
    } else if p.ExistsRelated? || p.CountRelated? {
      FoldListCost(p.body, t, ctx, Neighbors(p.of, p.rel, t, ctx, other));
    }
  }

  lemma {:induction false} FoldListCost(body: Pred, t: Tables, ctx: Ctx, neigh: seq<Sigil>)
    ensures ListSpend(Simplify(body), t, ctx, neigh) <= ListSpend(body, t, ctx, neigh)
    decreases body, 1, |neigh|
  {
    hide Simplify, Cost;
    if neigh != [] {
      FoldCost(body, t, ctx, Some(neigh[0]));
      FoldListCost(body, t, ctx, neigh[1..]);
    }
  }

  /** Interning a desugared predicate twice is interning it once. */
  lemma NamesTwice(q: Pred, t: Tables)
    requires Names(q, t).Ok?
    ensures Names(q, Names(q, t).value) == Names(q, t)
  {
    DesugarSugarFree(q);
    NamesStep(Desugar(q), t);
    NamesIdle(Desugar(q), CookNames(Desugar(q), t).value);
  }

  function Names(p: Pred, t: Tables): Step { CookNames(Desugar(p), t) }

  lemma NamesParts(p: Pred, t: Tables)
    ensures p.And? || p.Or? ==>
      Names(p, t) == (match Names(p.left, t) case Ok(u) => Names(p.right, u) case Err(e) => Err(e))
    ensures p.Not? ==> Names(p, t) == Names(p.inner, t)
    ensures p.ExistsRelated? || p.CountRelated? ==>
      Names(p, t) == (match Names(p.body, t)
                      case Ok(u) =>
                        if Length(p.body) + 1 > PRED_OPS_PER_EVAL then Err(PredTooLarge)
                        else CookSlot(u, p.of)
                      case Err(e) => Err(e))
  {
    if p.ExistsRelated? || p.CountRelated? {
      assert Names(p, t) == CookScanNames(p.of, Desugar(p.body), t);
    }
  }

  /** Interning the folded predicate ends in the same tables: the second copy of a duplicated operand
      interned nothing new. */
  lemma {:induction false} FoldNames(p: Pred, t: Tables)
    requires Names(p, t).Ok?
    ensures Names(Simplify(p), t) == Names(p, t)
    decreases p
  {
    SimplifyParts(p);
    NamesParts(p, t);
    NamesParts(Simplify(p), t);
    hide Simplify, Names, Length, CookSlot;
    if p.And? || p.Or? {
      var u := Names(p.left, t).value;
      FoldNames(p.left, t);
      FoldNames(p.right, u);
      if Simplify(p.left) == Simplify(p.right) {
        NamesTwice(Simplify(p.left), t);
      }
    } else if p.Not? {
      FoldNames(p.inner, t);
      NamesParts(Simplify(p.inner), t);
    } else if p.ExistsRelated? || p.CountRelated? {
      FoldNames(p.body, t);
      FoldLength(p.body);
    }
  }

  lemma {:induction false} FoldValid(p: Pred, inQuant: bool)
    ensures ValidatorAccepts(p, inQuant) ==> ValidatorAccepts(Simplify(p), inQuant)
    decreases p
  {
    SimplifyParts(p);
    hide Simplify;
    if p.And? || p.Or? {
      FoldValid(p.left, inQuant);
      FoldValid(p.right, inQuant);
    } else if p.Not? {
      FoldValid(p.inner, inQuant);
    } else if p.ExistsRelated? || p.CountRelated? {
      FoldValid(p.body, true);
    }
  }

  /** Folding keeps a compiled predicate compiling, into the same intern tables. */
  lemma FoldCompiles(p: Pred, t: Tables, prog: Program, u: Tables)
    requires Compiled(p, t) == Ok((prog, u))
    ensures Compiled(Simplify(p), t).Ok? && Compiled(Simplify(p), t).value.1 == u
  {
    FoldNames(p, t);
    FoldLength(p);
    hide Simplify, Postfix, ScansOf, AtomsMet, AddAtoms;
  }

  /** Folding does not rewire: both forms run every quantifier as written. */
  predicate FoldSafe(p: Pred) { ValidatorAccepts(p, false) && Faithful(p) && Faithful(Simplify(p)) }

  /** Where scan bodies are quantifier-free, folding is safe. */
  lemma FlatFoldSafe(p: Pred)
    requires Flat(Desugar(p))
    ensures FoldSafe(p)
  {
    FoldScanFree(p);
    FlatIffAccepted(p);
    hide Faithful, Simplify, Desugar;
    FlatFaithful(p);
    FlatFaithful(Simplify(p));
  }

  /** The folded predicate decides the same at no higher price. */
  lemma FoldMeans(p: Pred, w: Tables, ctx: Ctx)
    requires FoldSafe(p)
    ensures Means(Simplify(p), w, ctx) == Means(p, w, ctx)
    ensures TotalCost(Simplify(p), w, ctx) <= TotalCost(p, w, ctx)
  {
    hide Simplify, Faithful, Means, TotalCost, Cost;
    FaithfulMeans(p, w, ctx);
    FaithfulMeans(Simplify(p), w, ctx);
    FoldHolds(p, w, ctx, None);
    FoldCost(p, w, ctx, None);
  }

  /** For every validated predicate, exactly when folding before compiling is unobservable except for the budget:
      whatever answered still gives the same answer with at least as many ops to spare.  Folding removes quantifiers,
      and with them it moves the payloads the nested ones run. */
  lemma FoldRefinesIff(p: Pred, t: Tables, prog: Program, u: Tables, w: Tables, ctx: Ctx, tick: nat)
    requires Compiled(p, t) == Ok((prog, u)) && ValidatorAccepts(p, false) && Grows(u, w)
    ensures Compiled(Simplify(p), t).Ok? && Compiled(Simplify(p), t).value.1 == u
    ensures var q := Simplify(p);
      var (before, left) := RunPred(prog, ctx, tick);
      var (after, left') := RunPred(Compiled(q, t).value.0, ctx, tick);
      (before.Ok? ==> after == before && left' >= left) <==>
        (TotalCost(p, w, ctx) <= Min(tick, PRED_OPS_PER_EVAL) ==>
           Means(q, w, ctx) == Means(p, w, ctx) && TotalCost(q, w, ctx) <= TotalCost(p, w, ctx))
  {
    FoldCompiles(p, t, prog, u);
    FoldValid(p, false);
    hide Compiled, Simplify, ValidatorAccepts, Grows, RunPred, TotalCost, Means;
    var prog' := Compiled(Simplify(p), t).value.0;
    NoIndexWraps(p, t, prog, u);
    NoIndexWraps(Simplify(p), t, prog', u);
    CompilerExact(p, t, prog, u, w, ctx, tick);
    CompilerExact(Simplify(p), t, prog', u, w, ctx, tick);
  }

  /** In this context the folded form decides the same at no higher price. */
  ghost predicate Preserved(p: Pred, w: Tables, ctx: Ctx) {
    Means(Simplify(p), w, ctx) == Means(p, w, ctx) && TotalCost(Simplify(p), w, ctx) <= TotalCost(p, w, ctx)
  }

  /** Folding preserves the predicate wherever it can be answered at all. */
  ghost predicate FoldKeeps(p: Pred, w: Tables) {
    forall ctx: Ctx :: TotalCost(p, w, ctx) <= PRED_OPS_PER_EVAL ==> Preserved(p, w, ctx)
  }

  lemma SafeKeeps(p: Pred, w: Tables)
    requires FoldSafe(p)
    ensures FoldKeeps(p, w)
  {
    hide FoldSafe, Means, TotalCost, Simplify;
    forall ctx: Ctx
      ensures Preserved(p, w, ctx)
    {
      FoldMeans(p, w, ctx);
    }
  }

  ghost predicate Refines(before: Program, after: Program, ctx: Ctx, tick: nat) {
    var (v, left) := RunPred(before, ctx, tick);
    var (v', left') := RunPred(after, ctx, tick);
    v.Ok? ==> v' == v && left' >= left
  }

  /** That is exactly when no evaluation, in any context under any budget, sees the difference. */
  lemma FoldKeepsIff(p: Pred, t: Tables, prog: Program, u: Tables, w: Tables)
    requires Compiled(p, t) == Ok((prog, u)) && ValidatorAccepts(p, false) && Grows(u, w)
    ensures Compiled(Simplify(p), t).Ok? && Compiled(Simplify(p), t).value.1 == u
    ensures FoldKeeps(p, w) <==>
      forall ctx: Ctx, tick: nat :: Refines(prog, Compiled(Simplify(p), t).value.0, ctx, tick)
  {
    FoldCompiles(p, t, prog, u);
    var after := Compiled(Simplify(p), t).value.0;
    hide Compiled, ValidatorAccepts, Grows, Refines, TotalCost, Preserved, Simplify;
    forall ctx: Ctx, tick: nat
      ensures Refines(prog, after, ctx, tick) <==>
        (TotalCost(p, w, ctx) <= Min(tick, PRED_OPS_PER_EVAL) ==> Preserved(p, w, ctx))
    {
      RefinesIff(p, t, prog, u, w, ctx, tick);
    }
    forall ctx: Ctx
      ensures Refines(prog, after, ctx, PRED_OPS_PER_EVAL) <==>
        (TotalCost(p, w, ctx) <= PRED_OPS_PER_EVAL ==> Preserved(p, w, ctx))
    {
    }
  }

  lemma RefinesIff(p: Pred, t: Tables, prog: Program, u: Tables, w: Tables, ctx: Ctx, tick: nat)
    requires Compiled(p, t) == Ok((prog, u)) && ValidatorAccepts(p, false) && Grows(u, w)
    ensures Compiled(Simplify(p), t).Ok?
    ensures Refines(prog, Compiled(Simplify(p), t).value.0, ctx, tick) <==>
      (TotalCost(p, w, ctx) <= Min(tick, PRED_OPS_PER_EVAL) ==> Preserved(p, w, ctx))
  {
    hide Compiled, ValidatorAccepts, Grows, TotalCost, Means, Simplify, RunPred;
    FoldRefinesIff(p, t, prog, u, w, ctx, tick);
  }
}
