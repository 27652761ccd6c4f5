/** Where folding is not safe. */
module FoldGap {
  // The optimizer folds `a && a` to `a`, which removes the quantifiers of one copy.  The payloads behind it move down,
  // and a nested quantifier that ran the right one runs another.

  import opened Prelude
  import opened Pred
  import opened Compile
  import opened Eval
  import opened Meaning
  import opened Wiring
  import opened Pipeline
  import opened NestedScan
  import opened Fold

  const Locked := OpaqueClosed(This)
  const Body: Pred := And(Or(Locked, EqVerb(1)), Locked)
  const Twice: Pred := And(And(Locked, Locked), ExistsRelated(This, In, Body))
  const Once: Pred := And(Locked, ExistsRelated(This, In, Body))

  const LockScan := ExistsRelated(This, LockedBy, OtherIs(Other))
  const PlainLocked: Pred := And(Affordance(This, OPAQUE), LockScan)
  const PlainBody: Pred := And(Or(PlainLocked, EqVerb(1)), PlainLocked)
  const BodyScan := ExistsRelated(This, In, PlainBody)
  const PlainTwice: Pred := And(And(PlainLocked, PlainLocked), BodyScan)
  const PlainOnce: Pred := And(PlainLocked, BodyScan)

  lemma FoldsToOnce()
    ensures Simplify(Twice) == Once
  {
    SimplifyParts(Twice);
    SimplifyParts(And(Locked, Locked));
    SimplifyParts(ExistsRelated(This, In, Body));
    SimplifyParts(Body);
    SimplifyParts(Or(Locked, EqVerb(1)));
    SimplifyParts(Locked);
    SimplifyParts(EqVerb(1));
    hide Simplify;
  }

  lemma Plain()
    ensures Desugar(Body) == PlainBody && Desugar(Twice) == PlainTwice && Desugar(Once) == PlainOnce
  {
    DesugarParts(Body);
    DesugarParts(Or(Locked, EqVerb(1)));
    DesugarParts(Twice);
    DesugarParts(And(Locked, Locked));
    DesugarParts(ExistsRelated(This, In, Body));
    DesugarParts(Once);
    DesugarParts(EqVerb(1));
    assert Desugar(Locked) == PlainLocked;
    hide Desugar;
  }

  lemma ShapeValid(l: Pred, e: Pred)
    requires !IsCombinator(l) && !IsCombinator(e)
    ensures ValidatorAccepts(And(And(l, l), ExistsRelated(This, In, And(Or(l, e), l))), false)
  {
    ValidParts(l, true);
    ValidParts(e, true);
    ValidParts(Or(l, e), true);
    ValidParts(And(Or(l, e), l), true);
    ValidParts(And(l, l), false);
    ValidParts(ExistsRelated(This, In, And(Or(l, e), l)), false);
  }

  lemma Validated()
    ensures ValidatorAccepts(Twice, false)
  {
    ShapeValid(Locked, EqVerb(1));
    hide ValidatorAccepts;
  }

  lemma Tops()
    ensures TopScans(PlainLocked) == [LockScan] && TopScans(PlainBody) == [LockScan, LockScan]
    ensures TopScans(PlainTwice) == [LockScan, LockScan, BodyScan] && TopScans(PlainOnce) == [LockScan, BodyScan]
  {
    assert TopScans(Affordance(This, OPAQUE)) == [] && TopScans(EqVerb(1)) == [] && TopScans(LockScan) == [LockScan];
    TopParts(PlainLocked);
    TopParts(Or(PlainLocked, EqVerb(1)));
    TopParts(PlainBody);
    TopParts(And(PlainLocked, PlainLocked));
    TopParts(BodyScan);
    TopParts(PlainTwice);
    TopParts(PlainOnce);
    hide TopScans;
  }

  lemma LockedEchoes(k: nat, tops: seq<Quantifier>)
    ensures Echoes(PlainLocked, k, tops) <==> k < |tops| && tops[k] == LockScan
    ensures ScanDepth(PlainLocked) == 1
  {
    TopParts(Affordance(This, OPAQUE));
    EchoParts(Affordance(This, OPAQUE), k, tops);
    EchoParts(OtherIs(Other), 0, tops);
    EchoParts(LockScan, k, tops);
    EchoParts(PlainLocked, k, tops);
    hide Echoes, TopScans, ScanDepth;
  }

  lemma BodyEchoes(tops: seq<Quantifier>)
    requires |tops| > 1 && tops[0] == LockScan
    ensures Echoes(PlainBody, 0, tops) <==> tops[1] == LockScan
    ensures ScanDepth(PlainBody) == 1
  {
    var p := Or(PlainLocked, EqVerb(1));
    Tops();
    LockedEchoes(0, tops);
    LockedEchoes(1, tops);
    TopParts(EqVerb(1));
    TopParts(p);
    EchoParts(EqVerb(1), 1, tops);
    EchoParts(p, 0, tops);
    EchoParts(PlainBody, 0, tops);
    hide Echoes, TopScans, ScanDepth;
  }

  lemma TwiceFaithful()
    ensures Faithful(Twice)
  {
    var tops := [LockScan, LockScan, BodyScan];
    Plain();
    Tops();
    LockedEchoes(0, tops);
    LockedEchoes(1, tops);
    BodyEchoes(tops);
    TopParts(And(PlainLocked, PlainLocked));
    EchoParts(And(PlainLocked, PlainLocked), 0, tops);
    EchoParts(BodyScan, 2, tops);
    EchoParts(PlainTwice, 0, tops);
    hide Echoes, TopScans, ScanDepth, Desugar;
  }

  lemma LockedNames(t: Tables)
    requires t == NoTables || t == OpaqueTables
    ensures CookNames(PlainLocked, t) == Ok(OpaqueTables) && OpCount(PlainLocked) == 3
  {
    CookParts(PlainLocked, t);
    CookParts(Affordance(This, OPAQUE), t);
    CookParts(LockScan, OpaqueTables);
    CookParts(OtherIs(Other), OpaqueTables);
    hide CookNames, OpCount;
  }

  lemma BodyNames()
    ensures CookNames(BodyScan, OpaqueTables) == Ok(OpaqueTables) && OpCount(BodyScan) == 1
  {
    var t := OpaqueTables;
    LockedNames(t);
    CookParts(EqVerb(1), t);
    CookParts(Or(PlainLocked, EqVerb(1)), t);
    CookParts(PlainBody, t);
    CookParts(BodyScan, t);
    hide CookNames, OpCount;
  }

  lemma TwiceNames()
    ensures CookNames(PlainTwice, NoTables) == Ok(OpaqueTables) && OpCount(PlainTwice) == 9
  {
    LockedNames(NoTables);
    LockedNames(OpaqueTables);
    BodyNames();
    CookParts(And(PlainLocked, PlainLocked), NoTables);
    CookParts(PlainTwice, NoTables);
    hide CookNames, OpCount;
  }

  lemma NineFit()
    ensures 9 + 1 <= PRED_OPS_PER_EVAL
  {
  }

  lemma TwiceCompiles()
    ensures Compiled(Twice, NoTables).Ok?
  {
    hide *;
    Plain();
    TwiceNames();
    NineFit();
    CompilesWhen(Twice, PlainTwice, NoTables);
  }

  lemma LockedCost(u: Tables, other: Option<Sigil>)
    ensures Cost(PlainLocked, u, UnlockedCtx, other) == 3
  {
    CostParts(PlainLocked, u, UnlockedCtx, other);
    CostParts(LockScan, u, UnlockedCtx, other);
    CostParts(Affordance(This, OPAQUE), u, UnlockedCtx, other);
    hide Cost;
    assert Neighbors(This, LockedBy, u, UnlockedCtx, other) == [];
  }

  lemma BodyCost(u: Tables)
    ensures Cost(PlainBody, u, UnlockedCtx, Some(3)) == 9
  {
    LockedCost(u, Some(3));
    CostParts(EqVerb(1), u, UnlockedCtx, Some(3));
    CostParts(Or(PlainLocked, EqVerb(1)), u, UnlockedCtx, Some(3));
    CostParts(PlainBody, u, UnlockedCtx, Some(3));
    hide Cost;
  }

  lemma TwiceCost(u: Tables)
    ensures Cost(PlainTwice, u, UnlockedCtx, None) == 19
  {
    LockedCost(u, None);
    BodyCost(u);
    CostParts(BodyScan, u, UnlockedCtx, None);
    CostParts(And(PlainLocked, PlainLocked), u, UnlockedCtx, None);
    CostParts(PlainTwice, u, UnlockedCtx, None);
    hide Cost;
    InNeighbors(u);
    assert ListCost(PlainBody, u, UnlockedCtx, [3]) == 10;
  }

  lemma InNeighbors(u: Tables)
    ensures Neighbors(This, In, u, UnlockedCtx, None) == [3]
  {
  }

  lemma OnceRunsItself(u: Tables)
    ensures RunsItself(TopScans(Desugar(Once)), 1, u, UnlockedCtx)
  {
    Plain();
    Tops();
    InNeighbors(u);
    hide TopScans, Desugar, Neighbors;
  }

  /** A validated predicate that the compiler gets right, and its folded form, which is rejected for budget in the
      same context: the second hidden scan of the body now runs the scan it is part of. */
  lemma FoldBreaks(tick: nat)
    requires tick >= PRED_OPS_PER_EVAL
    ensures ValidatorAccepts(Twice, false) && Faithful(Twice) && !Faithful(Simplify(Twice))
    ensures Compiled(Twice, NoTables).Ok? && Compiled(Simplify(Twice), NoTables).Ok?
    ensures var (prog, u) := Compiled(Twice, NoTables).value;
      && RunPred(prog, UnlockedCtx, tick).0 == Ok(Holds(Twice, u, UnlockedCtx, None))
      && RunPred(Compiled(Simplify(Twice), NoTables).value.0, UnlockedCtx, tick).0 == Err(Budget)
  {
    Validated();
    TwiceFaithful();
    TwiceCompiles();
    OnceUnfaithful();
    hide *;
    var (prog, u) := Compiled(Twice, NoTables).value;
    FoldCompiles(Twice, NoTables, prog, u);
    Answered(u, prog, tick);
    Drained(u, tick);
  }

  lemma OnceUnfaithful()
    ensures !Faithful(Simplify(Twice))
  {
    var tops := [LockScan, BodyScan];
    FoldsToOnce();
    Plain();
    Tops();
    BodyEchoes(tops);
    EchoParts(BodyScan, 1, tops);
    EchoParts(PlainOnce, 0, tops);
    hide Echoes, TopScans, ScanDepth, Desugar, Simplify;
    assert tops[1] != LockScan;
  }

  lemma Answered(u: Tables, prog: Program, tick: nat)
    requires Compiled(Twice, NoTables) == Ok((prog, u)) && tick >= PRED_OPS_PER_EVAL
    ensures RunPred(prog, UnlockedCtx, tick).0 == Ok(Holds(Twice, u, UnlockedCtx, None))
  {
    Validated();
    TwiceFaithful();
    Plain();
    TwiceCost(u);
    GrowsRefl(u);
    hide Compiled, ValidatorAccepts, Faithful, Cost, Desugar, Holds, RunPred, Grows;
    CompilerCorrect(Twice, NoTables, prog, u, u, UnlockedCtx, tick);
  }

  lemma Drained(u: Tables, tick: nat)
    requires Compiled(Simplify(Twice), NoTables).Ok? && Compiled(Simplify(Twice), NoTables).value.1 == u
    ensures RunPred(Compiled(Simplify(Twice), NoTables).value.0, UnlockedCtx, tick).0 == Err(Budget)
  {
    FoldsToOnce();
    Validated();
    FoldValid(Twice, false);
    OnceRunsItself(u);
    GrowsRefl(u);
    hide *;
    var prog := Compiled(Once, NoTables).value.0;
    NoIndexWraps(Once, NoTables, prog, u);
    TableIsSmall(prog);
    NestedScanRejects(Once, NoTables, prog, u, u, UnlockedCtx, tick, 1);
  }
}
