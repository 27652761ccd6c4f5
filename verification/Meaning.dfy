/** What an authored predicate means, and what evaluating it costs. */
module Meaning {
  import opened Prelude
  import opened Pred
  import opened Atoms
  import opened Compile

  /** The meaning of an authored predicate: names are read through the intern tables, quantifiers
      range over complete neighbour lists, and there is no budget. */
  ghost predicate Holds(p: Pred, t: Tables, ctx: Ctx, other: Option<Sigil>)
    decreases p, 0
  {
    match p
    case And(a, b) => Holds(a, t, ctx, other) && Holds(b, t, ctx, other)
    case Or(a, b) => Holds(a, t, ctx, other) || Holds(b, t, ctx, other)
    case Not(a) => !Holds(a, t, ctx, other)
    case ExistsRelated(of, rel, body) =>
      var x := Resolve(SlotOf(of, t), ctx, other);
      x.Some? && exists n :: n in ctx.store.related(x.value, rel) && Holds(body, t, ctx, Some(n))
    case CountRelated(of, rel, body, cmp, v) =>
      var x := Resolve(SlotOf(of, t), ctx, other);
      x.Some? && Compare(HoldCount(body, t, ctx, ctx.store.related(x.value, rel)), cmp, v)
    case Burning(s) =>
      var x := Resolve(SlotOf(s, t), ctx, other);
      x.Some? && ctx.store.qty(x.value, Lookup(t.resources, HEAT)) >= IGNITE
    case OpaqueClosed(s) =>
      var x := Resolve(SlotOf(s, t), ctx, other);
      x.Some? && ctx.store.hasAffordance(x.value, Lookup(t.affordances, OPAQUE))
      && ctx.store.related(x.value, LockedBy) != []
    case _ => EvalAtom(AtomOf(p, t), ctx, other)
  }

  /** How many listed neighbours satisfy `body`. */
  ghost function HoldCount(body: Pred, t: Tables, ctx: Ctx, neigh: seq<Sigil>): nat
    decreases body, 1, |neigh|
  {
    if neigh == [] then 0
    else (if Holds(body, t, ctx, Some(neigh[0])) then 1 else 0) + HoldCount(body, t, ctx, neigh[1..])
  }

  /** Interpreter ops a desugared predicate takes when every quantifier is evaluated as written, the
      final `Halt` excluded: both operands of a connective, and the body with its own `Halt` once for
      each neighbour. */
  function Cost(p: Pred, t: Tables, ctx: Ctx, other: Option<Sigil>): nat
    decreases p, 0
  {
    match p
    case And(a, b) => Cost(a, t, ctx, other) + Cost(b, t, ctx, other) + 1
    case Or(a, b) => Cost(a, t, ctx, other) + Cost(b, t, ctx, other) + 1
    case Not(a) => Cost(a, t, ctx, other) + 1
    case ExistsRelated(of, rel, body) => 1 + ListCost(body, t, ctx, Neighbors(of, rel, t, ctx, other))
    case CountRelated(of, rel, body, _, _) => 1 + ListCost(body, t, ctx, Neighbors(of, rel, t, ctx, other))
    case _ => 1
  }

  function ListCost(body: Pred, t: Tables, ctx: Ctx, neigh: seq<Sigil>): nat
    decreases body, 1, |neigh|
  {
    if neigh == [] then 0 else Cost(body, t, ctx, Some(neigh[0])) + 1 + ListCost(body, t, ctx, neigh[1..])
  }

  /** The loci a quantifier ranges over: none when its slot is unbound. */
  function Neighbors(of: Slot, rel: Rel, t: Tables, ctx: Ctx, other: Option<Sigil>): seq<Sigil> {
    match Resolve(SlotOf(of, t), ctx, other)
    case None => []
    case Some(x) => ctx.store.related(x, rel)
  }

  lemma CostParts(p: Pred, t: Tables, ctx: Ctx, other: Option<Sigil>)
    ensures p.And? || p.Or? ==>
      Cost(p, t, ctx, other) == Cost(p.left, t, ctx, other) + Cost(p.right, t, ctx, other) + 1
    ensures p.Not? ==> Cost(p, t, ctx, other) == Cost(p.inner, t, ctx, other) + 1
    ensures p.ExistsRelated? || p.CountRelated? ==>
      Cost(p, t, ctx, other) == 1 + ListCost(p.body, t, ctx, Neighbors(p.of, p.rel, t, ctx, other))
    ensures !IsCombinator(p) ==> Cost(p, t, ctx, other) == 1
  {
    hide ListCost, Neighbors;
  }

  /** Without quantifiers the cost is the length of the code. */
  lemma {:induction false} QuantifierFreeCost(p: Pred, t: Tables, ctx: Ctx, other: Option<Sigil>)
    requires QuantifierFree(p)
    ensures Cost(p, t, ctx, other) == OpCount(p)
    decreases p
  {
    if p.And? || p.Or? {
      QuantifierFreeCost(p.left, t, ctx, other);
      QuantifierFreeCost(p.right, t, ctx, other);
    } else if p.Not? {
      QuantifierFreeCost(p.inner, t, ctx, other);
    }
  }

  /** The cost law of a flat scan: code length and `Halt`, times the number of neighbours. */
  lemma {:induction false} FlatListCost(body: Pred, t: Tables, ctx: Ctx, neigh: seq<Sigil>)
    requires QuantifierFree(body)
    ensures ListCost(body, t, ctx, neigh) == |neigh| * (OpCount(body) + 1)
    decreases |neigh|
  {
    hide Cost;
    if neigh != [] {
      var c := OpCount(body) + 1;
      QuantifierFreeCost(body, t, ctx, Some(neigh[0]));
      FlatListCost(body, t, ctx, neigh[1..]);
      assert |neigh| * c == c + (|neigh| - 1) * c;
    }
  }

  lemma {:induction false} HoldCountIffExists(body: Pred, t: Tables, ctx: Ctx, neigh: seq<Sigil>)
    ensures HoldCount(body, t, ctx, neigh) > 0 <==>
      exists n :: n in neigh && Holds(body, t, ctx, Some(n))
    ensures HoldCount(body, t, ctx, neigh) <= |neigh|
    decreases |neigh|
  {
    if neigh != [] {
      HoldCountIffExists(body, t, ctx, neigh[1..]);
    }
  }

  /** `a` and `b` mean the same whatever neighbour is bound. */
  ghost predicate SameMeaning(a: Pred, b: Pred, t: Tables, ctx: Ctx) {
    forall n :: Holds(a, t, ctx, n) == Holds(b, t, ctx, n)
  }

  lemma SameMeaningAt(a: Pred, b: Pred, t: Tables, ctx: Ctx, n: Option<Sigil>)
    requires SameMeaning(a, b, t, ctx)
    ensures Holds(a, t, ctx, n) == Holds(b, t, ctx, n)
  {
    hide Holds;
  }

  lemma {:induction false} HoldCountSame(a: Pred, b: Pred, t: Tables, ctx: Ctx, neigh: seq<Sigil>)
    requires SameMeaning(a, b, t, ctx)
    ensures HoldCount(a, t, ctx, neigh) == HoldCount(b, t, ctx, neigh)
    decreases |neigh|
  {
    hide Holds, SameMeaning;
    if neigh != [] {
      SameMeaningAt(a, b, t, ctx, Some(neigh[0]));
      HoldCountSame(a, b, t, ctx, neigh[1..]);
    }
  }

  /** Both quantifiers are comparisons of one count. */
  lemma ExistsAsCount(of: Slot, rel: Rel, body: Pred, t: Tables, ctx: Ctx, other: Option<Sigil>)
    ensures var x := Resolve(SlotOf(of, t), ctx, other);
      Holds(ExistsRelated(of, rel, body), t, ctx, other) <==>
        x.Some? && HoldCount(body, t, ctx, ctx.store.related(x.value, rel)) > 0
  {
    var x := Resolve(SlotOf(of, t), ctx, other);
    var p := ExistsRelated(of, rel, body);
    assert Holds(p, t, ctx, other) <==>
      x.Some? && exists n :: n in ctx.store.related(x.value, rel) && Holds(body, t, ctx, Some(n));
    hide Holds, HoldCount;
    if x.Some? {
      HoldCountIffExists(body, t, ctx, ctx.store.related(x.value, rel));
    }
  }

  lemma CountAsCount(of: Slot, rel: Rel, body: Pred, cmp: Cmp, v: int, t: Tables, ctx: Ctx,
                     other: Option<Sigil>)
    ensures var x := Resolve(SlotOf(of, t), ctx, other);
      Holds(CountRelated(of, rel, body, cmp, v), t, ctx, other) <==>
        x.Some? && Compare(HoldCount(body, t, ctx, ctx.store.related(x.value, rel)), cmp, v)
  {
    hide HoldCount;
  }

  lemma HoldsParts(p: Pred, t: Tables, ctx: Ctx, other: Option<Sigil>)
    ensures p.And? ==>
      (Holds(p, t, ctx, other) <==> Holds(p.left, t, ctx, other) && Holds(p.right, t, ctx, other))
    ensures p.Or? ==>
      (Holds(p, t, ctx, other) <==> Holds(p.left, t, ctx, other) || Holds(p.right, t, ctx, other))
    ensures p.Not? ==> (Holds(p, t, ctx, other) <==> !Holds(p.inner, t, ctx, other))
  {
    hide HoldCount, AtomOf, EvalAtom;
  }

  /** Two scans with bodies of one meaning mean the same. */
  lemma ScanSame(of: Slot, rel: Rel, a: Pred, b: Pred, cmp: Cmp, v: int, t: Tables, ctx: Ctx,
                 other: Option<Sigil>)
    requires SameMeaning(a, b, t, ctx)
    ensures Holds(ExistsRelated(of, rel, a), t, ctx, other)
      == Holds(ExistsRelated(of, rel, b), t, ctx, other)
    ensures Holds(CountRelated(of, rel, a, cmp, v), t, ctx, other)
      == Holds(CountRelated(of, rel, b, cmp, v), t, ctx, other)
  {
    hide SameMeaning, Holds, HoldCount;
    ExistsAsCount(of, rel, a, t, ctx, other);
    ExistsAsCount(of, rel, b, t, ctx, other);
    CountAsCount(of, rel, a, cmp, v, t, ctx, other);
    CountAsCount(of, rel, b, cmp, v, t, ctx, other);
    var x := Resolve(SlotOf(of, t), ctx, other);
    if x.Some? {
      HoldCountSame(a, b, t, ctx, ctx.store.related(x.value, rel));
    }
  }

  lemma DesugarParts(p: Pred)
    ensures p.And? ==> Desugar(p) == And(Desugar(p.left), Desugar(p.right))
    ensures p.Or? ==> Desugar(p) == Or(Desugar(p.left), Desugar(p.right))
    ensures p.Not? ==> Desugar(p) == Not(Desugar(p.inner))
    ensures p.ExistsRelated? ==> Desugar(p) == ExistsRelated(p.of, p.rel, Desugar(p.body))
    ensures p.CountRelated? ==> Desugar(p) == CountRelated(p.of, p.rel, Desugar(p.body), p.cmp, p.v)
    ensures IsAtom(p) ==> Desugar(p) == p
  {
  }

  /** Desugaring keeps the meaning. */
  lemma {:induction false} DesugarHolds(p: Pred, t: Tables, ctx: Ctx, other: Option<Sigil>)
    ensures Holds(Desugar(p), t, ctx, other) == Holds(p, t, ctx, other)
    decreases p
  {
    DesugarParts(p);
    HoldsParts(p, t, ctx, other);
    HoldsParts(Desugar(p), t, ctx, other);
    hide Holds, Desugar, SameMeaning;
    if p.And? || p.Or? {
      DesugarHolds(p.left, t, ctx, other);
      DesugarHolds(p.right, t, ctx, other);
    } else if p.Not? {
      DesugarHolds(p.inner, t, ctx, other);
    } else if p.ExistsRelated? || p.CountRelated? {
      var q := Desugar(p.body);
      forall n ensures Holds(p.body, t, ctx, n) == Holds(q, t, ctx, n) {
        DesugarHolds(p.body, t, ctx, n);
      }
      SameMeaningIntro(p.body, q, t, ctx);
      if p.ExistsRelated? {
        ScanSame(p.of, p.rel, p.body, q, Eq, 0, t, ctx, other);
      } else {
        ScanSame(p.of, p.rel, p.body, q, p.cmp, p.v, t, ctx, other);
      }
    } else if p.OpaqueClosed? {
      OpaqueHolds(p.s, t, ctx, other);
    } else if p.Burning? {
      BurningHolds(p.s, t, ctx, other);
    }
  }

  lemma SameMeaningIntro(a: Pred, b: Pred, t: Tables, ctx: Ctx)
    requires forall n :: Holds(a, t, ctx, n) == Holds(b, t, ctx, n)
    ensures SameMeaning(a, b, t, ctx)
  {
    hide Holds;
  }

  lemma BurningHolds(s: Slot, t: Tables, ctx: Ctx, other: Option<Sigil>)
    ensures Holds(Desugar(Burning(s)), t, ctx, other) == Holds(Burning(s), t, ctx, other)
  {
    assert Desugar(Burning(s)) == Qty(s, HEAT, Ge, IGNITE);
  }

  lemma OtherIsOther(t: Tables, ctx: Ctx, n: Sigil)
    ensures Holds(OtherIs(Other), t, ctx, Some(n))
  {
  }

  lemma AffordanceHolds(s: Slot, n: Name, t: Tables, ctx: Ctx, other: Option<Sigil>)
    ensures var x := Resolve(SlotOf(s, t), ctx, other);
      Holds(Affordance(s, n), t, ctx, other) <==>
        x.Some? && ctx.store.hasAffordance(x.value, Lookup(t.affordances, n))
  {
  }

  lemma AllCounted(body: Pred, t: Tables, ctx: Ctx, neigh: seq<Sigil>)
    requires forall n :: n in neigh ==> Holds(body, t, ctx, Some(n))
    ensures HoldCount(body, t, ctx, neigh) > 0 <==> neigh != []
  {
    HoldCountIffExists(body, t, ctx, neigh);
    hide Holds, HoldCount;
    if neigh != [] {
      assert neigh[0] in neigh;
    }
  }

  lemma OpaqueHolds(s: Slot, t: Tables, ctx: Ctx, other: Option<Sigil>)
    ensures Holds(Desugar(OpaqueClosed(s)), t, ctx, other) == Holds(OpaqueClosed(s), t, ctx, other)
  {
    var scan := ExistsRelated(s, LockedBy, OtherIs(Other));
    var x := Resolve(SlotOf(s, t), ctx, other);
    assert Desugar(OpaqueClosed(s)) == And(Affordance(s, OPAQUE), scan);
    AffordanceHolds(s, OPAQUE, t, ctx, other);
    HoldsParts(And(Affordance(s, OPAQUE), scan), t, ctx, other);
    ExistsAsCount(s, LockedBy, OtherIs(Other), t, ctx, other);
    OpaqueMeans(s, t, ctx, other);
    hide Holds, HoldCount;
    if x.Some? {
      var neigh := ctx.store.related(x.value, LockedBy);
      forall n | n in neigh ensures Holds(OtherIs(Other), t, ctx, Some(n)) {
        OtherIsOther(t, ctx, n);
      }
      AllCounted(OtherIs(Other), t, ctx, neigh);
    }
  }

  lemma OpaqueMeans(s: Slot, t: Tables, ctx: Ctx, other: Option<Sigil>)
    ensures var x := Resolve(SlotOf(s, t), ctx, other);
      Holds(OpaqueClosed(s), t, ctx, other) <==>
        x.Some? && ctx.store.hasAffordance(x.value, Lookup(t.affordances, OPAQUE))
        && ctx.store.related(x.value, LockedBy) != []
  {
  }
}
