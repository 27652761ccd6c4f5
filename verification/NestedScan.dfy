/** Where the pipeline fails. */
module NestedScan {
  // A quantifier inside a scan body: the emitter drops the inner payload, and the inner scan op runs one of the outer
  // payloads in its place.

  import opened Prelude
  import opened Pred
  import opened Atoms
  import opened Compile
  import opened Eval
  import opened Meaning
  import opened Wiring
  import opened Pipeline

  /** Payload `j` has neighbours, whatever scan body it is run in, and its own body comes to the `j`-th scan op. */
  predicate RunsItself(tops: seq<Quantifier>, j: nat, t: Tables, ctx: Ctx) {
    && j < |tops| && j < |TopScans(tops[j].body)|
    && tops[j].of != Other && Neighbors(tops[j].of, tops[j].rel, t, ctx, None) != []
  }

  /** Code that comes to a payload that runs itself cannot be paid for. */
  lemma {:induction false} PriceGrows(p: Pred, k: nat, tops: seq<Quantifier>, j: nat, t: Tables, ctx: Ctx,
                                      other: Option<Sigil>, depth: nat)
    requires RunsItself(tops, j, t, ctx) && k <= j < k + |TopScans(p)|
    ensures Price(p, k, tops, t, ctx, other, depth) > depth
    decreases depth, p
  {
    TopParts(p);
    PriceParts(p, k, tops, t, ctx, other, depth);
    hide TopScans, Price, ListPrice;
    if p.And? || p.Or? {
      if j < k + |TopScans(p.left)| {
        PriceGrows(p.left, k, tops, j, t, ctx, other, depth);
      } else {
        PriceGrows(p.right, k + |TopScans(p.left)|, tops, j, t, ctx, other, depth);
      }
    } else if p.Not? {
      PriceGrows(p.inner, k, tops, j, t, ctx, other, depth);
    } else {
      var neigh := Neighbors(tops[j].of, tops[j].rel, t, ctx, other);
      SameNeighbors(tops[j].of, tops[j].rel, t, ctx, other);
      if depth > 0 {
        PriceGrows(tops[j].body, 0, tops, j, t, ctx, Some(neigh[0]), depth - 1);
        FirstPaid(tops[j].body, tops, t, ctx, neigh, depth - 1);
      }
    }
  }

  lemma SameNeighbors(of: Slot, rel: Rel, t: Tables, ctx: Ctx, other: Option<Sigil>)
    requires of != Other
    ensures Neighbors(of, rel, t, ctx, other) == Neighbors(of, rel, t, ctx, None)
  {
  }

  lemma FirstPaid(body: Pred, tops: seq<Quantifier>, t: Tables, ctx: Ctx, neigh: seq<Sigil>, depth: nat)
    requires neigh != []
    ensures ListPrice(body, tops, t, ctx, neigh, depth) > Price(body, 0, tops, t, ctx, Some(neigh[0]), depth)
  {
    hide Price;
  }

  /** Every compiled predicate one of whose payloads runs itself: in any context in which that payload has a
      neighbour at all, every evaluation is rejected for budget and burns the whole of it, whatever the
      predicate means. */
  lemma NestedScanRejects(p: Pred, t: Tables, prog: Program, u: Tables, w: Tables, ctx: Ctx, tick: nat, j: nat)
    requires Compiled(p, t) == Ok((prog, u)) && SmallTable(prog) && Grows(u, w)
    requires RunsItself(TopScans(Desugar(p)), j, w, ctx)
    ensures RunPred(prog, ctx, tick) == (Err(Budget), tick - Min(tick, PRED_OPS_PER_EVAL))
  {
    var d := Desugar(p);
    hide Compiled, Grows, Price, Means, RunPred, Desugar, TopScans;
    PriceGrows(d, 0, TopScans(d), j, w, ctx, None, PRED_OPS_PER_EVAL);
    CompilerExact(p, t, prog, u, w, ctx, tick);
  }

  /** "Something related to the actor along `rel` is an opaque closed body." */
  function OpaqueScan(rel: Rel): Pred { ExistsRelated(This, rel, OpaqueClosed(Other)) }

  /** The document validator accepts such a predicate, because the inner quantifier is hidden in sugar.
      It compiles, means that some related body is opaque and locked, and is rejected in every context
      in which anything is related at all. */
  lemma OpaqueScanAlwaysRejects(rel: Rel, ctx: Ctx, tick: nat)
    requires ctx.store.related(ctx.actor, rel) != []
    ensures ValidatorAccepts(OpaqueScan(rel), false)
    ensures Compiled(OpaqueScan(rel), NoTables).Ok?
    ensures var (prog, u) := Compiled(OpaqueScan(rel), NoTables).value;
      && RunPred(prog, ctx, tick) == (Err(Budget), tick - Min(tick, PRED_OPS_PER_EVAL))
      && (Holds(OpaqueScan(rel), u, ctx, None) <==>
            exists n :: n in ctx.store.related(ctx.actor, rel)
              && ctx.store.hasAffordance(n, Lookup(u.affordances, OPAQUE))
              && ctx.store.related(n, LockedBy) != [])
  {
    OpaqueScanShape(rel);
    OpaqueScanCompiles(rel);
    hide *;
    var (prog, u) := Compiled(OpaqueScan(rel), NoTables).value;
    OpaqueScanRunsItself(rel, u, ctx);
    NoIndexWraps(OpaqueScan(rel), NoTables, prog, u);
    TableIsSmall(prog);
    GrowsRefl(u);
    NestedScanRejects(OpaqueScan(rel), NoTables, prog, u, u, ctx, tick, 0);
    OpaqueScanMeaning(rel, u, ctx);
  }

  lemma OpaqueScanShape(rel: Rel)
    ensures ValidatorAccepts(OpaqueScan(rel), false)
    ensures Desugar(OpaqueScan(rel)) == ExistsRelated(This, rel, OpaqueBody)
    ensures TopScans(Desugar(OpaqueScan(rel))) == [ExistsRelated(This, rel, OpaqueBody)]
    ensures TopScans(OpaqueBody) == [LockedScan]
  {
  }

  lemma OpaqueScanRunsItself(rel: Rel, u: Tables, ctx: Ctx)
    requires ctx.store.related(ctx.actor, rel) != []
    ensures RunsItself(TopScans(Desugar(OpaqueScan(rel))), 0, u, ctx)
  {
    OpaqueScanShape(rel);
    hide TopScans, Desugar;
  }

  const LockedScan := ExistsRelated(Other, LockedBy, OtherIs(Other))
  const OpaqueBody := And(Affordance(Other, OPAQUE), LockedScan)
  const OpaqueTables: Tables := NoTables.(affordances := map[OPAQUE := 0])

  lemma CompilesWhen(p: Pred, d: Pred, t: Tables)
    requires d == Desugar(p) && CookNames(d, t).Ok? && OpCount(d) + 1 <= PRED_OPS_PER_EVAL
    ensures Compiled(p, t).Ok? && Compiled(p, t).value.1 == CookNames(d, t).value
  {
    hide Desugar, AddAtoms, AtomsMet, Postfix, ScansOf, CookNames, OpCount;
  }

  lemma ScanNames(rel: Rel, t: Tables)
    requires t == NoTables || t == OpaqueTables
    ensures CookNames(ExistsRelated(This, rel, OpaqueBody), t) == Ok(OpaqueTables)
  {
    hide CookNames, OpCount;
    OpaqueBodyNames(t);
    OpaqueBodyOps();
    NamesOfScan(rel, OpaqueBody, t);
  }

  lemma OpaqueBodyOps()
    ensures OpCount(OpaqueBody) == 3
  {
  }

  lemma NamesOfScan(rel: Rel, body: Pred, t: Tables)
    ensures CookNames(ExistsRelated(This, rel, body), t) == CookScanNames(This, body, t)
  {
  }

  lemma OpaqueScanCompiles(rel: Rel)
    ensures Compiled(OpaqueScan(rel), NoTables).Ok?
  {
    OpaqueScanShape(rel);
    ScanNames(rel, NoTables);
    assert OpCount(ExistsRelated(This, rel, OpaqueBody)) == 1;
    hide Desugar, Compiled, CookNames, OpCount;
    CompilesWhen(OpaqueScan(rel), ExistsRelated(This, rel, OpaqueBody), NoTables);
  }

  lemma OpaqueBodyNames(t: Tables)
    requires t == NoTables || t == OpaqueTables
    ensures CookNames(OpaqueBody, t) == Ok(OpaqueTables)
  {
    assert CookNames(Affordance(Other, OPAQUE), t) == Ok(OpaqueTables);
    assert CookNames(OtherIs(Other), OpaqueTables) == Ok(OpaqueTables);
    assert CookNames(LockedScan, OpaqueTables) == Ok(OpaqueTables);
  }

  lemma OpaqueScanMeaning(rel: Rel, u: Tables, ctx: Ctx)
    ensures Holds(OpaqueScan(rel), u, ctx, None) <==>
      exists n :: n in ctx.store.related(ctx.actor, rel)
        && ctx.store.hasAffordance(n, Lookup(u.affordances, OPAQUE))
        && ctx.store.related(n, LockedBy) != []
  {
    forall n
      ensures Holds(OpaqueClosed(Other), u, ctx, Some(n)) <==>
        ctx.store.hasAffordance(n, Lookup(u.affordances, OPAQUE)) && ctx.store.related(n, LockedBy) != []
    {
      OpaqueMeans(Other, u, ctx, Some(n));
      OtherSlotIs(u, ctx, n);
    }
    ExistsMeans(rel, OpaqueClosed(Other), u, ctx);
    hide Holds, Lookup;
  }

  lemma OtherSlotIs(u: Tables, ctx: Ctx, n: Sigil)
    ensures Resolve(SlotOf(Other, u), ctx, Some(n)) == Some(n)
  {
  }

  lemma ExistsMeans(rel: Rel, body: Pred, u: Tables, ctx: Ctx)
    ensures Holds(ExistsRelated(This, rel, body), u, ctx, None) <==>
      exists n :: n in ctx.store.related(ctx.actor, rel) && Holds(body, u, ctx, Some(n))
  {
  }

  // ---------------------------------------------------------------------------------------------
  // A wrong answer.

  /** "The actor owns something under verb 0, and is in something opaque and locked." */
  const OwnedScan := ExistsRelated(This, OwnedBy, EqVerb(0))
  const Misread: Pred := And(OwnedScan, ExistsRelated(This, In, OpaqueClosed(Other)))

  /** Locus 1 owns locus 2 and is in locus 3, which is opaque and not locked. */
  const UnlockedStore: Store := Store(
    (s: Sigil, a: nat) => s == 3,
    (a: Sigil, r: Rel, b: Sigil) => false,
    (a: Sigil, r: Rel) => if a == 1 && r.OwnedBy? then [2] else if a == 1 && r.In? then [3] else [],
    (s: Sigil, r: nat) => 0,
    (s: Sigil) => None,
    (m: Sigil, f: nat) => false,
    (a: Sigil, r: nat) => false,
    (r: nat, ch: Channel) => false,
    (s: Sigil) => None,
    (s: Sigil) => Full)
  const UnlockedCtx: Ctx := Ctx(UnlockedStore, 1, None, [], 0, Player, [], false)

  /** The hidden scan for a lock runs payload 0 instead, the scan of what the actor owns: the evaluation answers
      true, well within budget, where the validated predicate is false. */
  lemma SilentlyWrong(tick: nat)
    requires tick >= PRED_OPS_PER_EVAL
    ensures ValidatorAccepts(Misread, false) && Compiled(Misread, NoTables).Ok?
    ensures var (prog, u) := Compiled(Misread, NoTables).value;
      RunPred(prog, UnlockedCtx, tick).0 == Ok(true) && !Holds(Misread, u, UnlockedCtx, None)
  {
    MisreadShape();
    MisreadCompiles();
    hide *;
    var (prog, u) := Compiled(Misread, NoTables).value;
    MisreadMeans(u);
    MisreadHolds(u);
    MisreadCost(u);
    GrowsRefl(u);
    TickIsPlenty(tick);
    VerdictRightIff(Misread, NoTables, prog, u, u, UnlockedCtx, tick);
  }

  lemma TickIsPlenty(tick: nat)
    requires tick >= PRED_OPS_PER_EVAL
    ensures 12 <= Min(tick, PRED_OPS_PER_EVAL)
  {
  }

  const InScan := ExistsRelated(This, In, OpaqueBody)

  lemma MisreadShape()
    ensures ValidatorAccepts(Misread, false)
    ensures Desugar(Misread) == And(OwnedScan, InScan)
    ensures TopScans(And(OwnedScan, InScan)) == [OwnedScan, InScan] && TopScans(OwnedScan) == [OwnedScan]
  {
    OpaqueScanShape(In);
    assert Desugar(OwnedScan) == OwnedScan by {
      assert Desugar(EqVerb(0)) == EqVerb(0);
    }
    assert ValidatorAccepts(OwnedScan, false);
    assert Desugar(Misread) == And(Desugar(OwnedScan), Desugar(OpaqueScan(In)));
    assert TopScans(InScan) == [InScan];
    hide Desugar;
  }

  lemma VerbScanNames(rel: Rel, t: Tables)
    ensures CookNames(ExistsRelated(This, rel, EqVerb(0)), t) == Ok(t)
  {
    assert CookNames(EqVerb(0), t) == Ok(t) && OpCount(EqVerb(0)) == 1;
    NamesOfScan(rel, EqVerb(0), t);
    hide CookNames, OpCount;
  }

  lemma MisreadCompiles()
    ensures Compiled(Misread, NoTables).Ok? && Compiled(Misread, NoTables).value.1 == OpaqueTables
  {
    MisreadShape();
    VerbScanNames(OwnedBy, NoTables);
    ScanNames(In, NoTables);
    BothNames();
    hide *;
    CompilesWhen(Misread, And(OwnedScan, InScan), NoTables);
  }

  lemma BothNames()
    requires CookNames(OwnedScan, NoTables) == Ok(NoTables) && CookNames(InScan, NoTables) == Ok(OpaqueTables)
    ensures CookNames(And(OwnedScan, InScan), NoTables) == Ok(OpaqueTables)
    ensures OpCount(And(OwnedScan, InScan)) + 1 <= PRED_OPS_PER_EVAL
  {
    assert OpCount(OwnedScan) == 1 && OpCount(InScan) == 1;
  }

  const MisreadTops: seq<Quantifier> := [OwnedScan, InScan]
  const RewiredBody: Pred := And(Affordance(Other, OPAQUE), OwnedScan)

  lemma MisreadRewired(depth: nat)
    requires depth > 1
    ensures RewiredScan(0, MisreadTops, depth) == OwnedScan
    ensures RewiredScan(1, MisreadTops, depth) == ExistsRelated(This, In, RewiredBody)
    ensures Rewired(And(OwnedScan, InScan), 0, MisreadTops, depth) == And(OwnedScan, ExistsRelated(This, In, RewiredBody))
  {
    assert RewiredScan(0, MisreadTops, depth - 1) == OwnedScan;
    assert TopScans(Affordance(Other, OPAQUE)) == [] && TopScans(OwnedScan) == [OwnedScan];
    assert Rewired(LockedScan, 0, MisreadTops, depth - 1) == OwnedScan;
    assert Rewired(OpaqueBody, 0, MisreadTops, depth - 1) == RewiredBody;
  }

  lemma OwnedHolds(u: Tables, other: Option<Sigil>)
    ensures Holds(OwnedScan, u, UnlockedCtx, other)
  {
    assert Holds(EqVerb(0), u, UnlockedCtx, Some(2));
    assert 2 in [2];
  }

  lemma RewiredBodyHolds(u: Tables)
    ensures Holds(RewiredBody, u, UnlockedCtx, Some(3))
  {
    OwnedHolds(u, Some(3));
    AffordanceHolds(Other, OPAQUE, u, UnlockedCtx, Some(3));
    OtherSlotIs(u, UnlockedCtx, 3);
    HoldsParts(RewiredBody, u, UnlockedCtx, Some(3));
    hide Holds, Resolve, SlotOf, Lookup;
  }

  const InRewired := ExistsRelated(This, In, RewiredBody)

  lemma MisreadRewires()
    ensures Rewired(Desugar(Misread), 0, TopScans(Desugar(Misread)), PRED_OPS_PER_EVAL) == And(OwnedScan, InRewired)
  {
    MisreadShape();
    MisreadRewired(PRED_OPS_PER_EVAL);
    hide Rewired, Desugar, TopScans;
  }

  lemma InRewiredHolds(u: Tables)
    ensures Holds(InRewired, u, UnlockedCtx, None)
  {
    RewiredBodyHolds(u);
    ExistsMeans(In, RewiredBody, u, UnlockedCtx);
    hide Holds;
    assert 3 in UnlockedCtx.store.related(UnlockedCtx.actor, In);
  }

  lemma MisreadMeans(u: Tables)
    ensures Means(Misread, u, UnlockedCtx)
  {
    MisreadRewires();
    OwnedHolds(u, None);
    InRewiredHolds(u);
    HoldsParts(And(OwnedScan, InRewired), u, UnlockedCtx, None);
    MeansIs(Misread, u, UnlockedCtx);
    hide *;
  }

  lemma MisreadHolds(u: Tables)
    ensures !Holds(Misread, u, UnlockedCtx, None)
  {
    HoldsParts(Misread, u, UnlockedCtx, None);
    OpaqueScanMeaning(In, u, UnlockedCtx);
    hide Holds;
  }

  lemma MisreadCost(u: Tables)
    ensures TotalCost(Misread, u, UnlockedCtx) == 12
  {
    MisreadShape();
    MeansIs(Misread, u, UnlockedCtx);
    var ctx := UnlockedCtx;
    OwnedCost(u, None, PRED_OPS_PER_EVAL);
    OwnedCost(u, Some(3), PRED_OPS_PER_EVAL - 1);
    InCost(u);
    PriceParts(And(OwnedScan, InScan), 0, MisreadTops, u, ctx, None, PRED_OPS_PER_EVAL);
    PriceParts(OwnedScan, 0, MisreadTops, u, ctx, None, PRED_OPS_PER_EVAL);
    PriceParts(InScan, 1, MisreadTops, u, ctx, None, PRED_OPS_PER_EVAL);
    hide Price, ScanPrice, Desugar, TopScans, TotalCost, Means;
  }

  lemma OwnedCost(u: Tables, other: Option<Sigil>, depth: nat)
    requires depth > 0
    ensures ScanPrice(0, MisreadTops, u, UnlockedCtx, other, depth) == 2
  {
    PriceParts(EqVerb(0), 0, MisreadTops, u, UnlockedCtx, Some(2), depth - 1);
    OneNeighbor(EqVerb(0), MisreadTops, u, 2, depth - 1);
    assert Neighbors(This, OwnedBy, u, UnlockedCtx, other) == [2];
    hide Price, ListPrice, Neighbors;
  }

  lemma InCost(u: Tables)
    ensures ScanPrice(1, MisreadTops, u, UnlockedCtx, None, PRED_OPS_PER_EVAL) == 6
  {
    var depth := PRED_OPS_PER_EVAL - 1;
    OwnedCost(u, Some(3), depth);
    TopParts(Affordance(Other, OPAQUE));
    PriceParts(OpaqueBody, 0, MisreadTops, u, UnlockedCtx, Some(3), depth);
    PriceParts(Affordance(Other, OPAQUE), 0, MisreadTops, u, UnlockedCtx, Some(3), depth);
    PriceParts(LockedScan, 0, MisreadTops, u, UnlockedCtx, Some(3), depth);
    OneNeighbor(OpaqueBody, MisreadTops, u, 3, depth);
    assert Neighbors(This, In, u, UnlockedCtx, None) == [3];
    hide Price, ListPrice, Neighbors, TopScans;
  }

  lemma OneNeighbor(body: Pred, tops: seq<Quantifier>, u: Tables, n: Sigil, depth: nat)
    ensures ListPrice(body, tops, u, UnlockedCtx, [n], depth) == Price(body, 0, tops, u, UnlockedCtx, Some(n), depth) + 1
  {
    hide Price;
  }
}
