/** Two laws in alarm that admit. */
module PairGap {
  // The contradiction check takes a scan as one leaf in both laws.  Each law compiles to its own program, in which the
  // scan's hidden quantifier runs a payload of that program.

  import opened Prelude
  import opened Pred
  import opened Atoms
  import opened Compile
  import opened Meaning
  import opened Wiring
  import opened Pipeline
  import opened NestedScan
  import opened Contradict
  import opened Laws
  import opened CapGap

  const KeyScan := ExistsRelated(This, KeyedBy, EqVerb(0))
  const Opposite: Pred := And(Not(KeyScan), Not(OpaqueScan(In)))

  /** Where verb 0 is used: what `Misread` asks for, and the opposite of its second half. */
  const Demand: Law := Law("demand", EqVerb(0), PredLaw(Misread, None))
  const Forbid: Law := Law("forbid", EqVerb(0), PredLaw(Opposite, None))

  function Leaves(p: Pred): nat {
    match p
    case And(a, b) => Leaves(a) + Leaves(b)
    case Or(a, b) => Leaves(a) + Leaves(b)
    case Not(a) => Leaves(a)
    case _ => 1
  }

  lemma {:induction false} FewLeaves(p: Pred, leaves: seq<Pred>)
    ensures |ToProp(p, leaves).1| <= |leaves| + Leaves(p)
    decreases p
  {
    if p.And? || p.Or? {
      FewLeaves(p.left, leaves);
      FewLeaves(p.right, ToProp(p.left, leaves).1);
    } else if p.Not? {
      FewLeaves(p.inner, leaves);
    }
  }

  lemma UnsatWhen(p: Pred)
    requires Impossible(p) && Leaves(p) <= SAT_ATOMS
    ensures Unsat(p)
  {
    FewLeaves(p, []);
    UnsatExact(p);
    hide Unsat, Impossible, ToProp, Leaves;
  }

  lemma SameWhen(p: Pred)
    requires Leaves(p) <= 2
    ensures Equivalent(p, p)
  {
    XorImpossible(p, p);
    assert Leaves(And(p, Not(p))) == 2 * Leaves(p);
    assert Leaves(Xor(p, p)) == 4 * Leaves(p);
    hide Impossible, Leaves, Xor, Unsat, Opaque;
    UnsatWhen(Xor(p, p));
  }

  const PlainDemand: Pred := And(OwnedScan, InScan)
  const PlainForbid: Pred := And(Not(KeyScan), Not(InScan))

  lemma ForbidShape()
    ensures Desugar(Opposite) == PlainForbid && TopScans(PlainForbid) == [KeyScan, InScan]
    ensures TopScans(Not(KeyScan)) == [KeyScan]
  {
    OpaqueScanShape(In);
    assert Desugar(KeyScan) == KeyScan by {
      assert Desugar(EqVerb(0)) == EqVerb(0);
    }
    DesugarParts(Opposite);
    DesugarParts(Not(KeyScan));
    DesugarParts(Not(OpaqueScan(In)));
    hide Desugar;
    assert TopScans(KeyScan) == [KeyScan] && TopScans(InScan) == [InScan];
    TopParts(Not(KeyScan));
    TopParts(Not(InScan));
    TopParts(PlainForbid);
    hide TopScans;
  }

  lemma Clash()
    ensures Unsat(And(PlainDemand, PlainForbid))
  {
    forall v: Valuation
      ensures !Opaque(And(PlainDemand, PlainForbid), v)
    {
      ClashAt(v);
    }
    ClashLeaves();
    hide Opaque, Leaves, Unsat;
    UnsatWhen(And(PlainDemand, PlainForbid));
  }

  lemma ClashAt(v: Valuation)
    ensures !Opaque(And(PlainDemand, PlainForbid), v)
  {
    OpaqueParts(And(PlainDemand, PlainForbid), v);
    OpaqueParts(PlainDemand, v);
    OpaqueParts(PlainForbid, v);
    OpaqueParts(Not(InScan), v);
    hide Opaque;
  }

  lemma ClashLeaves()
    ensures Leaves(And(PlainDemand, PlainForbid)) == 4
  {
    assert Leaves(OwnedScan) == 1 && Leaves(InScan) == 1 && Leaves(KeyScan) == 1;
    assert Leaves(PlainDemand) == 2 && Leaves(Not(KeyScan)) == 1 && Leaves(Not(InScan)) == 1 && Leaves(PlainForbid) == 2;
  }

  lemma VerbPlain()
    ensures Desugar(EqVerb(0)) == EqVerb(0) && Leaves(EqVerb(0)) == 1
  {
  }

  lemma InAlarm()
    ensures BadPair(Demand, Forbid)
  {
    hide Unsat, Desugar, Equivalent, TopScans, ValidatorAccepts, Leaves;
    MisreadShape();
    ForbidShape();
    Clash();
    VerbPlain();
    SameWhen(EqVerb(0));
  }

  const ForbidTops: seq<Quantifier> := [KeyScan, InScan]
  const KeyBody: Pred := And(Affordance(Other, OPAQUE), KeyScan)
  const InKey := ExistsRelated(This, In, KeyBody)

  lemma ForbidRewired(depth: nat)
    requires depth > 1
    ensures Rewired(PlainForbid, 0, ForbidTops, depth) == And(Not(KeyScan), Not(InKey))
  {
    assert TopScans(Affordance(Other, OPAQUE)) == [] && TopScans(KeyScan) == [KeyScan];
    assert RewiredScan(0, ForbidTops, depth) == KeyScan && RewiredScan(0, ForbidTops, depth - 1) == KeyScan;
    assert Rewired(LockedScan, 0, ForbidTops, depth - 1) == KeyScan;
    assert Rewired(OpaqueBody, 0, ForbidTops, depth - 1) == KeyBody;
    assert RewiredScan(1, ForbidTops, depth) == InKey;
    RewiredParts(PlainForbid, 0, ForbidTops, depth);
    RewiredParts(Not(KeyScan), 0, ForbidTops, depth);
    RewiredParts(Not(InScan), 1, ForbidTops, depth);
    RewiredParts(KeyScan, 0, ForbidTops, depth);
    RewiredParts(InScan, 1, ForbidTops, depth);
    TopParts(Not(KeyScan));
    hide Rewired, RewiredScan, TopScans;
  }

  lemma NoKey(u: Tables, other: Option<Sigil>)
    ensures !Holds(KeyScan, u, UnlockedCtx, other)
  {
  }

  lemma KeyBodyFails(u: Tables)
    ensures !Holds(KeyBody, u, UnlockedCtx, Some(3))
  {
    NoKey(u, Some(3));
    HoldsParts(KeyBody, u, UnlockedCtx, Some(3));
    hide Holds;
  }

  lemma OnlyThree()
    ensures forall n :: n in UnlockedCtx.store.related(UnlockedCtx.actor, In) ==> n == 3
  {
  }

  lemma InKeyFails(u: Tables)
    ensures !Holds(InKey, u, UnlockedCtx, None)
  {
    hide *;
    KeyBodyFails(u);
    OnlyThree();
    ExistsMeans(In, KeyBody, u, UnlockedCtx);
    InKeyIs();
  }

  lemma InKeyIs()
    ensures InKey == ExistsRelated(This, In, KeyBody)
  {
  }

  lemma ForbidHolds(u: Tables)
    ensures Holds(And(Not(KeyScan), Not(InKey)), u, UnlockedCtx, None)
  {
    hide *;
    NoKey(u, None);
    InKeyFails(u);
    HoldsParts(Not(InKey), u, UnlockedCtx, None);
    HoldsParts(Not(KeyScan), u, UnlockedCtx, None);
    HoldsParts(And(Not(KeyScan), Not(InKey)), u, UnlockedCtx, None);
  }

  lemma ForbidMeans(u: Tables)
    ensures Means(Opposite, u, UnlockedCtx)
  {
    ForbidShape();
    ForbidRewired(PRED_OPS_PER_EVAL);
    ForbidHolds(u);
    MeansIs(Opposite, u, UnlockedCtx);
    hide Holds, Means, Rewired, Desugar, TopScans, TotalCost, Price;
  }

  lemma VerbMeans(u: Tables)
    ensures Means(EqVerb(0), u, UnlockedCtx)
  {
    assert Desugar(EqVerb(0)) == EqVerb(0);
    RewiredParts(EqVerb(0), 0, TopScans(EqVerb(0)), PRED_OPS_PER_EVAL);
  }

  lemma BothMean(u: Tables)
    ensures Means(Demand.when, u, UnlockedCtx) && Means(Forbid.when, u, UnlockedCtx)
    ensures Means(Demand.body.must, u, UnlockedCtx) && Means(Forbid.body.must, u, UnlockedCtx)
  {
    hide Means;
    VerbMeans(u);
    MisreadMeans(u);
    ForbidMeans(u);
  }

  // ---------------------------------------------------------------------------------------------
  // What they cost.

  lemma VerbCost(u: Tables)
    ensures TotalCost(EqVerb(0), u, UnlockedCtx) == 2
  {
    MeansIs(EqVerb(0), u, UnlockedCtx);
    assert Desugar(EqVerb(0)) == EqVerb(0);
    PriceParts(EqVerb(0), 0, TopScans(EqVerb(0)), u, UnlockedCtx, None, PRED_OPS_PER_EVAL);
    hide Price, TotalCost, Means;
  }

  lemma KeyCost(u: Tables, other: Option<Sigil>, depth: nat)
    requires depth > 0
    ensures ScanPrice(0, ForbidTops, u, UnlockedCtx, other, depth) == 0
  {
    assert Neighbors(This, KeyedBy, u, UnlockedCtx, other) == [];
    assert ListPrice(EqVerb(0), ForbidTops, u, UnlockedCtx, [], depth - 1) == 0;
    hide Price, ListPrice, Neighbors;
  }

  lemma InForbidCost(u: Tables)
    ensures ScanPrice(1, ForbidTops, u, UnlockedCtx, None, PRED_OPS_PER_EVAL) == 4
  {
    var depth := PRED_OPS_PER_EVAL - 1;
    KeyCost(u, Some(3), depth);
    TopParts(Affordance(Other, OPAQUE));
    PriceParts(OpaqueBody, 0, ForbidTops, u, UnlockedCtx, Some(3), depth);
    PriceParts(Affordance(Other, OPAQUE), 0, ForbidTops, u, UnlockedCtx, Some(3), depth);
    PriceParts(LockedScan, 0, ForbidTops, u, UnlockedCtx, Some(3), depth);
    OneNeighbor(OpaqueBody, ForbidTops, u, 3, depth);
    assert Neighbors(This, In, u, UnlockedCtx, None) == [3];
    hide Price, ListPrice, Neighbors, TopScans;
  }

  lemma OppositeCost(u: Tables)
    ensures TotalCost(Opposite, u, UnlockedCtx) == 10
  {
    ForbidShape();
    MeansIs(Opposite, u, UnlockedCtx);
    var ctx := UnlockedCtx;
    KeyCost(u, None, PRED_OPS_PER_EVAL);
    InForbidCost(u);
    PriceParts(PlainForbid, 0, ForbidTops, u, ctx, None, PRED_OPS_PER_EVAL);
    PriceParts(Not(KeyScan), 0, ForbidTops, u, ctx, None, PRED_OPS_PER_EVAL);
    PriceParts(KeyScan, 0, ForbidTops, u, ctx, None, PRED_OPS_PER_EVAL);
    PriceParts(Not(InScan), 1, ForbidTops, u, ctx, None, PRED_OPS_PER_EVAL);
    PriceParts(InScan, 1, ForbidTops, u, ctx, None, PRED_OPS_PER_EVAL);
    hide Price, ScanPrice, Desugar, TopScans, TotalCost, Means;
  }

  // ---------------------------------------------------------------------------------------------
  // The cook.

  lemma OppositeValid()
    ensures ValidatorAccepts(Opposite, false) && ValidatorAccepts(EqVerb(0), false)
  {
    hide ValidatorAccepts, Desugar, TopScans;
    OpaqueScanShape(In);
    ValidParts(EqVerb(0), true);
    ValidParts(EqVerb(0), false);
    ValidParts(KeyScan, false);
    ValidParts(Not(KeyScan), false);
    ValidParts(Not(OpaqueScan(In)), false);
    ValidParts(Opposite, false);
  }

  lemma OppositeCompiles()
    ensures Compiled(Opposite, OpaqueTables).Ok? && Compiled(Opposite, OpaqueTables).value.1 == OpaqueTables
  {
    ForbidShape();
    VerbScanNames(KeyedBy, OpaqueTables);
    ScanNames(In, OpaqueTables);
    ForbidNames();
    hide *;
    CompilesWhen(Opposite, PlainForbid, OpaqueTables);
  }

  lemma ForbidNames()
    requires CookNames(KeyScan, OpaqueTables) == Ok(OpaqueTables) && CookNames(InScan, OpaqueTables) == Ok(OpaqueTables)
    ensures CookNames(PlainForbid, OpaqueTables) == Ok(OpaqueTables)
    ensures OpCount(PlainForbid) + 1 <= PRED_OPS_PER_EVAL
  {
    assert OpCount(KeyScan) == 1 && OpCount(InScan) == 1;
    assert OpCount(Not(KeyScan)) == 2 && OpCount(Not(InScan)) == 2;
    assert CookNames(Not(KeyScan), OpaqueTables) == Ok(OpaqueTables);
    assert CookNames(Not(InScan), OpaqueTables) == Ok(OpaqueTables);
    hide CookScanNames;
  }

  const PairLaws: seq<CookedLaw> := [CookedLaw(0, 0, CookedPred(1)), CookedLaw(1, 0, CookedPred(2))]

  /** A proposal in the context, under the programs of the shared `when` and of the two `must`s. */
  function PairCase(demand: Program, forbid: Program): Case {
    Case([VerbProgram(0), demand, forbid], [UnlockedCtx.actor], UnlockedCtx)
  }

  lemma PairCooked(demand: Program, forbid: Program)
    requires Compiled(Misread, NoTables) == Ok((demand, OpaqueTables))
    requires Compiled(Opposite, OpaqueTables) == Ok((forbid, OpaqueTables))
    ensures CookedLaws(PairCase(demand, forbid), [Demand, Forbid], PairLaws, OpaqueTables, AsWired(OpaqueTables))
    ensures PairCase(demand, forbid).ctx == UnlockedCtx
  {
    hide Compiled, ValidatorAccepts, Means, CookedAs, VerbProgram;
    MisreadShape();
    OppositeValid();
    VerbCompiles(0, OpaqueTables);
    CookedNow(EqVerb(0), OpaqueTables, VerbProgram(0), OpaqueTables);
    CookedNow(Misread, NoTables, demand, OpaqueTables);
    CookedNow(Opposite, OpaqueTables, forbid, OpaqueTables);
  }

  lemma PairDue(c: Case, u: Tables)
    requires c.ctx == UnlockedCtx
    ensures Passes(c, Demand, u, AsWired(u)) && Passes(c, Forbid, u, AsWired(u))
    ensures LawsDue(c, [Demand, Forbid], u, AsWired(u)) == [2, 12, 2, 10]
  {
    hide Means, TotalCost;
    BothMean(u);
    VerbCost(u);
    MisreadCost(u);
    OppositeCost(u);
    var ls := [Demand, Forbid];
    var docket := Sitting(c, 0, 2);
    assert docket[0] == Heard(c, 0) && docket[1..] == [Heard(c, 1)];
    assert LawBill(c, Demand, u, AsWired(u)) == [2, 12] && LawBill(c, Forbid, u, AsWired(u)) == [2, 10];
    assert Due([Heard(c, 1)], ls, u, AsWired(u)) == [2, 10] + Due([Heard(c, 1)][1..], ls, u, AsWired(u));
    assert Due([], ls, u, AsWired(u)) == [];
  }

  lemma PairPayable(ops: nat)
    ensures Payable([2, 12, 2, 10], ops) <==> ops >= 26
  {
    assert [2, 12, 2, 10][1..] == [12, 2, 10] && [12, 2, 10][1..] == [2, 10] && [2, 10][1..] == [10] && [10][1..] == [];
    assert Total([2, 10]) == 12 && Total([12, 2, 10]) == 24 && Total([2, 12, 2, 10]) == 26;
  }

  /** A reported pair of validated laws that both compile, and a proposal to which both apply as written: with 26
      predicate ops or more it is admitted. */
  lemma PairSlips(ops: nat)
    ensures BadPair(Demand, Forbid) && Holds(Demand.when, OpaqueTables, UnlockedCtx, None)
    ensures ValidatorAccepts(Misread, false) && ValidatorAccepts(Opposite, false)
    ensures Compiled(Misread, NoTables).Ok? && Compiled(Misread, NoTables).value.1 == OpaqueTables
    ensures Compiled(Opposite, OpaqueTables).Ok? && Compiled(Opposite, OpaqueTables).value.1 == OpaqueTables
    ensures var c := PairCase(Compiled(Misread, NoTables).value.0, Compiled(Opposite, OpaqueTables).value.0);
      && CookedLaws(c, [Demand, Forbid], PairLaws, OpaqueTables, AsWired(OpaqueTables))
      && (AdmitAll(c, PairLaws, ops).0.Ok? <==> ops >= 26)
  {
    VerbHolds(OpaqueTables);
    hide *;
    InAlarm();
    MisreadShape();
    OppositeValid();
    MisreadCompiles();
    OppositeCompiles();
    var demand, forbid := Compiled(Misread, NoTables).value.0, Compiled(Opposite, OpaqueTables).value.0;
    PairCooked(demand, forbid);
    PairAdmits(PairCase(demand, forbid), OpaqueTables, ops);
  }

  lemma VerbHolds(u: Tables)
    ensures Holds(Demand.when, u, UnlockedCtx, None)
  {
  }

  lemma PairAdmits(c: Case, u: Tables, ops: nat)
    requires CookedLaws(c, [Demand, Forbid], PairLaws, u, AsWired(u)) && c.ctx == UnlockedCtx
    ensures AdmitAll(c, PairLaws, ops).0.Ok? <==> ops >= 26
  {
    hide *;
    PairDue(c, u);
    PairPayable(ops);
    AdmittedIff(c, [Demand, Forbid], PairLaws, u, AsWired(u), ops);
  }
}
