/** The predicate compiler as a specification: intern names, cook atoms, emit postfix bytecode and payloads
    for the scans. */
module Compile {
  import opened Prelude
  import opened Pred
  import opened Atoms
  import opened Distinct

  datatype CookError = UnboundName(name: Name) | TableFull | PredTooLarge

  /** The intern tables of one cook. */
  datatype Tables = Tables(
    affordances: map<Name, nat>,
    resources: map<Name, nat>,
    rites: map<Name, nat>,
    facts: map<Name, nat>,
    pins: map<Name, nat>,
    strictPins: bool)

  const NoTables: Tables := Tables(map[], map[], map[], map[], map[], false)

  type Step = Result<Tables, CookError>

  const PRED_OPS_PER_EVAL: nat := 64
  const RELATED_SCAN_CAP: nat := 64

  datatype Op = PushAtom(ix: nat) | AndOp | OrOp | NotOp | ExistsOp | CountOp | Halt

  datatype Scan = Scan(of: CookedSlot, rel: Rel, chunk: seq<Op>, count: Option<(Cmp, int)>)

  datatype Program = Program(ops: seq<Op>, atoms: seq<Atom>, scans: seq<Scan>)

  // ---------------------------------------------------------------------------------------------
  // Interning.

  /** The table after interning `n`, or `None` when a fresh id would not fit in `cap`. */
  function Interned(m: map<Name, nat>, n: Name, cap: nat): Option<map<Name, nat>> {
    if n in m then Some(m)
    else if |m| <= cap then Some(m[n := |m|])
    else None
  }

  function CookAffordance(t: Tables, n: Name): Step {
    match Interned(t.affordances, n, U16_MAX)
    case Some(m) => Ok(t.(affordances := m))
    case None => Err(TableFull)
  }

  function CookResource(t: Tables, n: Name): Step {
    match Interned(t.resources, n, U8_MAX)
    case Some(m) => Ok(t.(resources := m))
    case None => Err(TableFull)
  }

  function CookRite(t: Tables, n: Name): Step {
    match Interned(t.rites, n, U16_MAX)
    case Some(m) => Ok(t.(rites := m))
    case None => Err(TableFull)
  }

  function CookFact(t: Tables, n: Name): Step {
    match Interned(t.facts, n, U16_MAX)
    case Some(m) => Ok(t.(facts := m))
    case None => Err(TableFull)
  }

  function CookSlot(t: Tables, s: Slot): Step {
    match s
    case Named(n) =>
      if n !in t.pins && t.strictPins then Err(UnboundName(n))
      else (match Interned(t.pins, n, U16_MAX)
            case Some(m) => Ok(t.(pins := m))
            case None => Err(TableFull))
    case _ => Ok(t)
  }

  function CookSlots(t: Tables, a: Slot, b: Slot): Step {
    match CookSlot(t, a) case Ok(u) => CookSlot(u, b) case Err(e) => Err(e)
  }

  /** The interning an atom performs, left to right. */
  function CookAtomNames(p: Pred, t: Tables): Step
    requires IsAtom(p)
  {
    match p
    case Affordance(s, n) =>
      (match CookSlot(t, s) case Ok(u) => CookAffordance(u, n) case Err(e) => Err(e))
    case RelIs(a, _, b) => CookSlots(t, a, b)
    case Qty(s, n, _, _) =>
      (match CookSlot(t, s) case Ok(u) => CookResource(u, n) case Err(e) => Err(e))
    case RiteActive(n) => CookRite(t, n)
    case AabbNear(a, b, _) => CookSlots(t, a, b)
    case InWindow(n, _) => CookRite(t, n)
    case Knows(s, n) =>
      (match CookSlot(t, s) case Ok(u) => CookFact(u, n) case Err(e) => Err(e))
    case IslandAwake(s) => CookSlot(t, s)
    case SelfIs(s) => CookSlot(t, s)
    case TargetIs(s) => CookSlot(t, s)
    case OtherIs(s) => CookSlot(t, s)
    case RayHits(from, _, _, _) => CookSlot(t, from)
    case SimLodIs(s, _) => CookSlot(t, s)
    case InPlace(s, q) => CookSlots(t, s, q)
    case _ => Ok(t)
  }

  /** The interning done while emitting `p`, with the length check of every scan body. */
  function CookNames(p: Pred, t: Tables): Step
    decreases p, 0
  {
    match p
    case And(a, b) => (match CookNames(a, t) case Ok(u) => CookNames(b, u) case Err(e) => Err(e))
    case Or(a, b) => (match CookNames(a, t) case Ok(u) => CookNames(b, u) case Err(e) => Err(e))
    case Not(a) => CookNames(a, t)
    case ExistsRelated(of, _, body) => CookScanNames(of, body, t)
    case CountRelated(of, _, body, _, _) => CookScanNames(of, body, t)
    case _ => if IsAtom(p) then CookAtomNames(p, t) else Ok(t)
  }

  function CookScanNames(of: Slot, body: Pred, t: Tables): Step
    decreases body, 1
  {
    match CookNames(body, t)
    case Ok(u) => if OpCount(body) + 1 > PRED_OPS_PER_EVAL then Err(PredTooLarge) else CookSlot(u, of)
    case Err(e) => Err(e)
  }

  lemma CookParts(p: Pred, t: Tables)
    ensures p.And? || p.Or? ==>
      CookNames(p, t) == (match CookNames(p.left, t) case Ok(u) => CookNames(p.right, u) case Err(e) => Err(e))
    ensures p.Not? ==> CookNames(p, t) == CookNames(p.inner, t)
    ensures p.ExistsRelated? || p.CountRelated? ==> CookNames(p, t) == CookScanNames(p.of, p.body, t)
    ensures IsAtom(p) ==> CookNames(p, t) == CookAtomNames(p, t)
    ensures p.And? || p.Or? ==> OpCount(p) == OpCount(p.left) + OpCount(p.right) + 1
    ensures p.Not? ==> OpCount(p) == OpCount(p.inner) + 1
    ensures p.ExistsRelated? || p.CountRelated? || IsAtom(p) ==> OpCount(p) == 1
  {
    hide CookAtomNames, CookScanNames;
  }

  // ---------------------------------------------------------------------------------------------
  // Cooked forms, read off the final tables.

  function Lookup(m: map<Name, nat>, n: Name): nat { if n in m then m[n] else 0 }

  function SlotOf(s: Slot, t: Tables): CookedSlot {
    match s
    case This => ThisSlot
    case Target => TargetSlot
    case Other => OtherSlot
    case Named(n) => Pin(Lookup(t.pins, n))
  }

  function AtomOf(p: Pred, t: Tables): Atom
    requires IsAtom(p)
  {
    match p
    case Affordance(s, n) => AffordanceAtom(SlotOf(s, t), Lookup(t.affordances, n))
    case RelIs(a, r, b) => RelAtom(SlotOf(a, t), r, SlotOf(b, t))
    case Qty(s, n, cmp, v) => QtyAtom(SlotOf(s, t), Lookup(t.resources, n), cmp, v)
    case EqVerb(v) => EqVerbAtom(v)
    case RiteActive(n) => RiteActiveAtom(Lookup(t.rites, n))
    case AabbNear(a, b, mm) => AabbNearAtom(SlotOf(a, t), SlotOf(b, t), mm)
    case InWindow(n, ch) => InWindowAtom(Lookup(t.rites, n), ch)
    case Knows(s, n) => KnowsAtom(SlotOf(s, t), Lookup(t.facts, n))
    case SourceIs(k) => SourceIsAtom(k)
    case AgencyClaimed(ch) => AgencyClaimedAtom(ch)
    case SweptHitsOpaqueClosed => SweptHitsAtom
    case IslandAwake(s) => IslandAwakeAtom(SlotOf(s, t))
    case SelfIs(s) => SelfIsAtom(SlotOf(s, t))
    case TargetIs(s) => TargetIsAtom(SlotOf(s, t))
    case OtherIs(s) => OtherIsAtom(SlotOf(s, t))
    case RayHits(from, dir, maxMm, mask) => RayHitsAtom(SlotOf(from, t), dir, maxMm, mask)
    case SimLodIs(s, lod) => SimLodIsAtom(SlotOf(s, t), lod)
    case InPlace(s, q) => InPlaceAtom(SlotOf(s, t), SlotOf(q, t))
  }

  /** Bytecode length of a desugared predicate without its final `Halt`. */
  function OpCount(p: Pred): nat {
    match p
    case And(a, b) => OpCount(a) + OpCount(b) + 1
    case Or(a, b) => OpCount(a) + OpCount(b) + 1
    case Not(a) => OpCount(a) + 1
    case _ => 1
  }

  /** The atoms met while emitting `p`, scan bodies included, in emission order. */
  function AtomsMet(p: Pred, t: Tables): seq<Atom> {
    match p
    case And(a, b) => AtomsMet(a, t) + AtomsMet(b, t)
    case Or(a, b) => AtomsMet(a, t) + AtomsMet(b, t)
    case Not(a) => AtomsMet(a, t)
    case ExistsRelated(_, _, body) => AtomsMet(body, t)
    case CountRelated(_, _, body, _, _) => AtomsMet(body, t)
    case _ => if IsAtom(p) then [AtomOf(p, t)] else []
  }

  function AddAtom(table: seq<Atom>, a: Atom): seq<Atom> {
    if a in table then table else table + [a]
  }

  function AddAtoms(table: seq<Atom>, more: seq<Atom>): seq<Atom>
    decreases |more|
  {
    if more == [] then table else AddAtoms(AddAtom(table, more[0]), more[1..])
  }

  /** `as u16`. */
  function AtomIx(table: seq<Atom>, a: Atom): nat { IndexIn(table, a) % (U16_MAX + 1) }

  /** Postfix code of a desugared predicate against a finished atom table. */
  function Postfix(p: Pred, t: Tables, table: seq<Atom>): (ops: seq<Op>)
    ensures |ops| == OpCount(p)
  {
    match p
    case And(a, b) => Postfix(a, t, table) + Postfix(b, t, table) + [AndOp]
    case Or(a, b) => Postfix(a, t, table) + Postfix(b, t, table) + [OrOp]
    case Not(a) => Postfix(a, t, table) + [NotOp]
    case ExistsRelated(_, _, _) => [ExistsOp]
    case CountRelated(_, _, _, _, _) => [CountOp]
    case _ => if IsAtom(p) then [PushAtom(AtomIx(table, AtomOf(p, t)))] else [Halt]
  }

  /** The scan payloads of `p` in code order.  Scans met inside a scan body are not recorded. */
  function ScansOf(p: Pred, t: Tables, table: seq<Atom>): seq<Scan> {
    match p
    case And(a, b) => ScansOf(a, t, table) + ScansOf(b, t, table)
    case Or(a, b) => ScansOf(a, t, table) + ScansOf(b, t, table)
    case Not(a) => ScansOf(a, t, table)
    case ExistsRelated(of, rel, body) =>
      [Scan(SlotOf(of, t), rel, Postfix(body, t, table) + [Halt], None)]
    case CountRelated(of, rel, body, cmp, v) =>
      [Scan(SlotOf(of, t), rel, Postfix(body, t, table) + [Halt], Some((cmp, v)))]
    case _ => []
  }

  /** The whole compiler as a relation between the input and the finished tables. */
  function Compiled(p: Pred, t: Tables): Result<(Program, Tables), CookError> {
    var d := Desugar(p);
    match CookNames(d, t)
    case Err(e) => Err(e)
    case Ok(u) =>
      if OpCount(d) + 1 > PRED_OPS_PER_EVAL then Err(PredTooLarge)
      else
        var table := AddAtoms([], AtomsMet(d, u));
        Ok((Program(Postfix(d, u, table) + [Halt], table, ScansOf(d, u, table)), u))
  }

  // ---------------------------------------------------------------------------------------------
  // Tables only grow, so a cooked form never changes once its names are interned.

  ghost predicate MapGrows(m: map<Name, nat>, w: map<Name, nat>) {
    forall n :: n in m ==> n in w && w[n] == m[n]
  }

  ghost predicate Grows(t: Tables, u: Tables) {
    && MapGrows(t.affordances, u.affordances)
    && MapGrows(t.resources, u.resources)
    && MapGrows(t.rites, u.rites)
    && MapGrows(t.facts, u.facts)
    && MapGrows(t.pins, u.pins)
    && t.strictPins == u.strictPins
  }

  predicate HasSlot(s: Slot, t: Tables) { s.Named? ==> s.name in t.pins }

  /** Every name of `p` is interned in `t`. */
  predicate HasNames(p: Pred, t: Tables) {
    match p
    case And(a, b) => HasNames(a, t) && HasNames(b, t)
    case Or(a, b) => HasNames(a, t) && HasNames(b, t)
    case Not(a) => HasNames(a, t)
    case ExistsRelated(of, _, body) => HasSlot(of, t) && HasNames(body, t)
    case CountRelated(of, _, body, _, _) => HasSlot(of, t) && HasNames(body, t)
    case Affordance(s, n) => HasSlot(s, t) && n in t.affordances
    case RelIs(a, _, b) => HasSlot(a, t) && HasSlot(b, t)
    case Qty(s, n, _, _) => HasSlot(s, t) && n in t.resources
    case RiteActive(n) => n in t.rites
    case AabbNear(a, b, _) => HasSlot(a, t) && HasSlot(b, t)
    case InWindow(n, _) => n in t.rites
    case Knows(s, n) => HasSlot(s, t) && n in t.facts
    case IslandAwake(s) => HasSlot(s, t)
    case SelfIs(s) => HasSlot(s, t)
    case TargetIs(s) => HasSlot(s, t)
    case OtherIs(s) => HasSlot(s, t)
    case RayHits(from, _, _, _) => HasSlot(from, t)
    case SimLodIs(s, _) => HasSlot(s, t)
    case InPlace(s, q) => HasSlot(s, t) && HasSlot(q, t)
    case _ => true
  }

  /** Every scan body of `p` fits the per-evaluation cap. */
  predicate BodiesFit(p: Pred) {
    match p
    case And(a, b) => BodiesFit(a) && BodiesFit(b)
    case Or(a, b) => BodiesFit(a) && BodiesFit(b)
    case Not(a) => BodiesFit(a)
    case ExistsRelated(_, _, body) => BodiesFit(body) && OpCount(body) + 1 <= PRED_OPS_PER_EVAL
    case CountRelated(_, _, body, _, _) => BodiesFit(body) && OpCount(body) + 1 <= PRED_OPS_PER_EVAL
    case _ => true
  }

  lemma GrowsRefl(t: Tables)
    ensures Grows(t, t)
  {
  }

  lemma GrowsTrans(t: Tables, u: Tables, w: Tables)
    requires Grows(t, u) && Grows(u, w)
    ensures Grows(t, w)
  {
  }

  lemma SlotStep(t: Tables, s: Slot)
    requires CookSlot(t, s).Ok?
    ensures Grows(t, CookSlot(t, s).value) && HasSlot(s, CookSlot(t, s).value)
  {
  }

  lemma InternStep(m: map<Name, nat>, n: Name, cap: nat)
    requires Interned(m, n, cap).Some?
    ensures MapGrows(m, Interned(m, n, cap).value) && n in Interned(m, n, cap).value
  {
  }

  lemma AtomStep(p: Pred, t: Tables)
    requires IsAtom(p) && CookAtomNames(p, t).Ok?
    ensures Grows(t, CookAtomNames(p, t).value) && HasNames(p, CookAtomNames(p, t).value)
  {
    match p
    case Affordance(s, n) =>
      SlotStep(t, s);
      InternStep(CookSlot(t, s).value.affordances, n, U16_MAX);
    case Qty(s, n, _, _) =>
      SlotStep(t, s);
      InternStep(CookSlot(t, s).value.resources, n, U8_MAX);
    case Knows(s, n) =>
      SlotStep(t, s);
      InternStep(CookSlot(t, s).value.facts, n, U16_MAX);
    case RelIs(a, _, b) => SlotsStep(t, a, b);
    case AabbNear(a, b, _) => SlotsStep(t, a, b);
    case InPlace(a, b) => SlotsStep(t, a, b);
    case RiteActive(n) => InternStep(t.rites, n, U16_MAX);
    case InWindow(n, _) => InternStep(t.rites, n, U16_MAX);
    case _ =>
  }

  lemma SlotsStep(t: Tables, a: Slot, b: Slot)
    requires CookSlots(t, a, b).Ok?
    ensures var u := CookSlots(t, a, b).value; Grows(t, u) && HasSlot(a, u) && HasSlot(b, u)
  {
    SlotStep(t, a);
    SlotStep(CookSlot(t, a).value, b);
  }

  lemma {:induction false} NamesGrow(p: Pred, t: Tables, u: Tables)
    requires Grows(t, u) && HasNames(p, t)
    ensures HasNames(p, u)
  {
    if p.And? || p.Or? {
      NamesGrow(p.left, t, u);
      NamesGrow(p.right, t, u);
    } else if p.Not? {
      NamesGrow(p.inner, t, u);
    } else if p.ExistsRelated? || p.CountRelated? {
      NamesGrow(p.body, t, u);
    }
  }

  /** Successful interning grows the tables, leaves every name of `p` interned and every scan body
      within the cap. */
  lemma {:induction false} NamesStep(p: Pred, t: Tables)
    requires SugarFree(p) && CookNames(p, t).Ok?
    ensures Grows(t, CookNames(p, t).value) && HasNames(p, CookNames(p, t).value) && BodiesFit(p)
    decreases p, 0
  {
    hide MapGrows, CookAtomNames;
    if p.And? || p.Or? {
      var u := CookNames(p.left, t).value;
      var w := CookNames(p.right, u).value;
      NamesStep(p.left, t);
      NamesStep(p.right, u);
      GrowsTrans(t, u, w);
      NamesGrow(p.left, u, w);
    } else if p.Not? {
      NamesStep(p.inner, t);
    } else if p.ExistsRelated? || p.CountRelated? {
      NamesStepScan(p.of, p.body, t);
    } else {
      AtomStep(p, t);
    }
  }

  lemma {:induction false} NamesStepScan(of: Slot, body: Pred, t: Tables)
    requires SugarFree(body) && CookScanNames(of, body, t).Ok?
    ensures var u := CookScanNames(of, body, t).value;
      && Grows(t, u) && HasNames(body, u) && HasSlot(of, u)
      && BodiesFit(body) && OpCount(body) + 1 <= PRED_OPS_PER_EVAL
    decreases body, 1
  {
    var u := CookNames(body, t).value;
    NamesStep(body, t);
    SlotStep(u, of);
    GrowsTrans(t, u, CookSlot(u, of).value);
    NamesGrow(body, u, CookSlot(u, of).value);
  }

  /** Interning what is interned already changes nothing. */
  lemma {:induction false} NamesIdle(p: Pred, t: Tables)
    requires SugarFree(p) && HasNames(p, t) && BodiesFit(p)
    ensures CookNames(p, t) == Ok(t)
  {
    if p.And? || p.Or? {
      NamesIdle(p.left, t);
      NamesIdle(p.right, t);
    } else if p.Not? {
      NamesIdle(p.inner, t);
    } else if p.ExistsRelated? || p.CountRelated? {
      NamesIdle(p.body, t);
    }
  }

  // ---------------------------------------------------------------------------------------------
  // Cooked forms are stable under growth of the tables.

  lemma AtomStable(p: Pred, t: Tables, u: Tables)
    requires IsAtom(p) && HasNames(p, t) && Grows(t, u)
    ensures AtomOf(p, t) == AtomOf(p, u)
  {
  }

  lemma {:induction false} AtomsMetStable(p: Pred, t: Tables, u: Tables)
    requires SugarFree(p) && HasNames(p, t) && Grows(t, u)
    ensures AtomsMet(p, t) == AtomsMet(p, u)
  {
    hide AtomOf, Grows;
    if p.And? || p.Or? {
      AtomsMetStable(p.left, t, u);
      AtomsMetStable(p.right, t, u);
    } else if p.Not? {
      AtomsMetStable(p.inner, t, u);
    } else if p.ExistsRelated? || p.CountRelated? {
      AtomsMetStable(p.body, t, u);
    } else {
      AtomStable(p, t, u);
    }
  }

  lemma {:induction false} IndexStable(table: seq<Atom>, longer: seq<Atom>, a: Atom)
    requires table <= longer && a in table
    ensures IndexIn(longer, a) == IndexIn(table, a)
  {
    if table[0] != a {
      assert table == [table[0]] + table[1..];
      IndexStable(table[1..], longer[1..], a);
    }
  }

  lemma {:induction false} PostfixStable(p: Pred, t: Tables, u: Tables, table: seq<Atom>, longer: seq<Atom>)
    requires SugarFree(p) && HasNames(p, t) && Grows(t, u) && table <= longer
    requires forall a :: a in AtomsMet(p, t) ==> a in table
    ensures Postfix(p, t, table) == Postfix(p, u, longer)
  {
    hide AtomOf, Grows, IndexIn;
    if p.And? || p.Or? {
      PostfixStable(p.left, t, u, table, longer);
      PostfixStable(p.right, t, u, table, longer);
    } else if p.Not? {
      PostfixStable(p.inner, t, u, table, longer);
    } else if !p.ExistsRelated? && !p.CountRelated? {
      AtomStable(p, t, u);
      assert AtomOf(p, t) in AtomsMet(p, t);
      IndexStable(table, longer, AtomOf(p, t));
    }
  }

  lemma {:induction false} ScansStable(p: Pred, t: Tables, u: Tables, table: seq<Atom>, longer: seq<Atom>)
    requires SugarFree(p) && HasNames(p, t) && Grows(t, u) && table <= longer
    requires forall a :: a in AtomsMet(p, t) ==> a in table
    ensures ScansOf(p, t, table) == ScansOf(p, u, longer)
  {
    if p.And? || p.Or? {
      ScansStable(p.left, t, u, table, longer);
      ScansStable(p.right, t, u, table, longer);
    } else if p.Not? {
      ScansStable(p.inner, t, u, table, longer);
    } else if p.ExistsRelated? || p.CountRelated? {
      PostfixStable(p.body, t, u, table, longer);
    }
  }

  lemma {:induction false} AddAtomsFacts(table: seq<Atom>, more: seq<Atom>)
    ensures table <= AddAtoms(table, more)
    ensures forall a :: a in AddAtoms(table, more) <==> a in table || a in more
    ensures |AddAtoms(table, more)| <= |table| + |more|
    decreases |more|
  {
    if more != [] {
      AddAtomsFacts(AddAtom(table, more[0]), more[1..]);
    }
  }

  lemma {:induction false} AddAtomsConcat(table: seq<Atom>, xs: seq<Atom>, ys: seq<Atom>)
    ensures AddAtoms(AddAtoms(table, xs), ys) == AddAtoms(table, xs + ys)
    decreases |xs|
  {
    if xs == [] {
      assert xs + ys == ys;
    } else {
      assert (xs + ys)[0] == xs[0] && (xs + ys)[1..] == xs[1..] + ys;
      AddAtomsConcat(AddAtom(table, xs[0]), xs[1..], ys);
    }
  }
}
