/** The contradiction check. */
module Contradict {
  // Cook-time, quantifier-free reasoning over opaque leaves.

  import opened Prelude
  import opened Pred
  import opened Atoms
  import opened Distinct
  import Compile
  import Meaning
  import opened Wiring

  const SAT_ATOMS: nat := 12
  const LOCKABLE: Name := "Lockable"

  datatype Prop = Leaf(id: nat) | PAnd(a: Prop, b: Prop) | POr(a: Prop, b: Prop) | PNot(inner: Prop)

  // ---------------------------------------------------------------------------------------------
  // Opaque leaves.

  /** A truth value for every leaf. */
  type Valuation = Pred -> bool

  /** Truth when only the connectives are understood. */
  predicate Opaque(p: Pred, v: Valuation) {
    match p
    case And(a, b) => Opaque(a, v) && Opaque(b, v)
    case Or(a, b) => Opaque(a, v) || Opaque(b, v)
    case Not(a) => !Opaque(a, v)
    case _ => v(p)
  }

  ghost predicate Impossible(p: Pred) { forall v: Valuation :: !Opaque(p, v) }

  predicate PropHolds(p: Prop, f: nat -> bool) {
    match p
    case Leaf(i) => f(i)
    case PAnd(a, b) => PropHolds(a, f) && PropHolds(b, f)
    case POr(a, b) => PropHolds(a, f) || PropHolds(b, f)
    case PNot(a) => !PropHolds(a, f)
  }

  /** `to_prop`: leaves are numbered at their first occurrence, left to right. */
  function ToProp(p: Pred, leaves: seq<Pred>): (r: (Prop, seq<Pred>))
    ensures leaves <= r.1
    ensures NoDuplicates(leaves) ==> NoDuplicates(r.1)
  {
    match p
    case And(a, b) => var l := ToProp(a, leaves); var r := ToProp(b, l.1); (PAnd(l.0, r.0), r.1)
    case Or(a, b) => var l := ToProp(a, leaves); var r := ToProp(b, l.1); (POr(l.0, r.0), r.1)
    case Not(a) => var l := ToProp(a, leaves); (PNot(l.0), l.1)
    case _ => (Leaf(IndexIn(leaves, p)), if p in leaves then leaves else leaves + [p])
  }

  /** `f` gives leaf number `i` the value `v` gives the leaf. */
  ghost predicate Matches(f: nat -> bool, leaves: seq<Pred>, v: Valuation) {
    forall i :: 0 <= i < |leaves| ==> f(i) == v(leaves[i])
  }

  lemma {:induction false} ToPropMeans(p: Pred, leaves: seq<Pred>, all: seq<Pred>, f: nat -> bool, v: Valuation)
    requires ToProp(p, leaves).1 <= all && Matches(f, all, v)
    ensures PropHolds(ToProp(p, leaves).0, f) == Opaque(p, v)
    decreases p
  {
    if p.And? || p.Or? {
      var l := ToProp(p.left, leaves);
      ToPropMeans(p.left, leaves, all, f, v);
      ToPropMeans(p.right, l.1, all, f, v);
    } else if p.Not? {
      ToPropMeans(p.inner, leaves, all, f, v);
    } else {
      var i := IndexIn(leaves, p);
      assert ToProp(p, leaves).1[i] == p;
      assert all[i] == p;
    }
  }

  // ---------------------------------------------------------------------------------------------
  // Assignments as machine words.

  /** `(bits >> i) & 1`. */
  predicate Bit(bits: nat, i: nat) {
    if i == 0 then bits % 2 == 1 else Bit(bits / 2, i - 1)
  }

  function Encode(bs: seq<bool>): (bits: nat)
    ensures bits < Pow2(|bs|)
  {
    if bs == [] then 0 else (if bs[0] then 1 else 0) + 2 * Encode(bs[1..])
  }

  lemma {:induction false} EncodeBits(bs: seq<bool>, i: nat)
    requires i < |bs|
    ensures Bit(Encode(bs), i) == bs[i]
    decreases i
  {
    if i > 0 {
      assert Encode(bs) / 2 == Encode(bs[1..]);
      EncodeBits(bs[1..], i - 1);
    }
  }

  function BitsOf(bits: nat): nat -> bool { (i: nat) => Bit(bits, i) }

  /** Some word under `2^n` satisfies the proposition. */
  ghost predicate WordSat(p: Prop, n: nat) {
    exists bits: nat :: bits < Pow2(n) && PropHolds(p, BitsOf(bits))
  }

  /** Trying all words is trying all valuations. */
  lemma BruteForceExact(p: Pred)
    ensures var (prop, leaves) := ToProp(p, []); WordSat(prop, |leaves|) <==> !Impossible(p)
  {
    var (prop, leaves) := ToProp(p, []);
    if WordSat(prop, |leaves|) {
      var bits: nat :| bits < Pow2(|leaves|) && PropHolds(prop, BitsOf(bits));
      var v: Valuation := (q: Pred) => Bit(bits, IndexIn(leaves, q));
      forall i | 0 <= i < |leaves|
        ensures BitsOf(bits)(i) == v(leaves[i])
      {
        IndexUnique(leaves, i);
      }
      ToPropMeans(p, [], leaves, BitsOf(bits), v);
    }
    if !Impossible(p) {
      var v: Valuation :| Opaque(p, v);
      var bs := seq(|leaves|, i requires 0 <= i < |leaves| => v(leaves[i]));
      var bits := Encode(bs);
      forall i | 0 <= i < |leaves|
        ensures BitsOf(bits)(i) == v(leaves[i])
      {
        EncodeBits(bs, i);
      }
      ToPropMeans(p, [], leaves, BitsOf(bits), v);
    }
  }

  lemma IndexUnique(leaves: seq<Pred>, i: nat)
    requires NoDuplicates(leaves) && i < |leaves|
    ensures IndexIn(leaves, leaves[i]) == i
  {
  }

  // ---------------------------------------------------------------------------------------------
  // The syntactic fallback.

  datatype Signed = Signed(pos: seq<nat>, neg: seq<nat>)

  /** Literals on the top-level conjunction. */
  function FlattenAnd(p: Prop, negated: bool, s: Signed): Signed {
    match p
    case PAnd(a, b) => if negated then s else FlattenAnd(b, false, FlattenAnd(a, false, s))
    case PNot(a) => FlattenAnd(a, !negated, s)
    case Leaf(i) => if negated then s.(neg := s.neg + [i]) else s.(pos := s.pos + [i])
    case POr(_, _) => s
  }

  predicate AndConflict(p: Prop) {
    var s := FlattenAnd(p, false, Signed([], []));
    exists a :: a in s.pos && a in s.neg
  }

  ghost predicate SignedHold(s: Signed, f: nat -> bool) {
    (forall i :: i in s.pos ==> f(i)) && (forall i :: i in s.neg ==> !f(i))
  }

  lemma {:induction false} FlattenHolds(p: Prop, negated: bool, s: Signed, f: nat -> bool)
    requires SignedHold(s, f) && (PropHolds(p, f) <==> !negated)
    ensures SignedHold(FlattenAnd(p, negated, s), f)
  {
    match p
    case PAnd(a, b) =>
      if !negated {
        FlattenHolds(a, false, s, f);
        FlattenHolds(b, false, FlattenAnd(a, false, s), f);
      }
    case PNot(a) => FlattenHolds(a, !negated, s, f);
    case Leaf(i) =>
    case POr(_, _) =>
  }

  /** A syntactic conflict is a real one. */
  lemma ConflictSound(p: Pred)
    requires AndConflict(ToProp(p, []).0)
    ensures Impossible(p)
  {
    var (prop, leaves) := ToProp(p, []);
    forall v: Valuation
      ensures !Opaque(p, v)
    {
      if Opaque(p, v) {
        var f := (i: nat) => i < |leaves| && v(leaves[i]);
        ToPropMeans(p, [], leaves, f, v);
        FlattenHolds(prop, false, Signed([], []), f);
      }
    }
  }

  // ---------------------------------------------------------------------------------------------
  // unsat and equivalent.

  ghost predicate Unsat(p: Pred) {
    var (prop, leaves) := ToProp(p, []);
    if |leaves| > SAT_ATOMS then AndConflict(prop) else !WordSat(prop, |leaves|)
  }

  method CheckUnsat(p: Pred) returns (r: bool)
    ensures r == Unsat(p)
  {
    var (prop, leaves) := ToProp(p, []);
    if |leaves| > SAT_ATOMS {
      return AndConflict(prop);
    }
    var max: nat := Pow2(|leaves|);
    for bits := 0 to max
      invariant forall b: nat :: b < bits ==> !PropHolds(prop, BitsOf(b))
    {
      if PropHolds(prop, BitsOf(bits)) {
        return false;
      }
    }
    return true;
  }

  /** No false alarms at any size; with at most twelve distinct leaves, no missed conflict either. */
  lemma UnsatExact(p: Pred)
    ensures Unsat(p) ==> Impossible(p)
    ensures |ToProp(p, []).1| <= SAT_ATOMS ==> (Unsat(p) <==> Impossible(p))
  {
    BruteForceExact(p);
    hide WordSat, Impossible;
    if Unsat(p) && |ToProp(p, []).1| > SAT_ATOMS {
      ConflictSound(p);
    }
  }

  function Xor(a: Pred, b: Pred): Pred { Or(And(a, Not(b)), And(b, Not(a))) }

  lemma XorOpaque(a: Pred, b: Pred, v: Valuation)
    ensures Opaque(Xor(a, b), v) <==> Opaque(a, v) != Opaque(b, v)
  {
    assert Opaque(And(a, Not(b)), v) <==> Opaque(a, v) && !Opaque(b, v);
    assert Opaque(And(b, Not(a)), v) <==> Opaque(b, v) && !Opaque(a, v);
  }

  ghost predicate SameTruth(a: Pred, b: Pred) { forall v: Valuation :: Opaque(a, v) == Opaque(b, v) }

  ghost predicate Equivalent(a: Pred, b: Pred) { Unsat(Xor(a, b)) }

  /** What `equivalent` reports is equivalence, and past twelve leaves it reports nothing. */
  lemma EquivalentExact(a: Pred, b: Pred)
    ensures Equivalent(a, b) ==> SameTruth(a, b)
    ensures |ToProp(Xor(a, b), []).1| <= SAT_ATOMS ==>
      (Equivalent(a, b) <==> SameTruth(a, b))
    ensures |ToProp(Xor(a, b), []).1| > SAT_ATOMS ==> !Equivalent(a, b)
  {
    UnsatExact(Xor(a, b));
    XorImpossible(a, b);
    if |ToProp(Xor(a, b), []).1| > SAT_ATOMS {
      var prop := ToProp(Xor(a, b), []).0;
      assert prop.POr?;
      assert FlattenAnd(prop, false, Signed([], [])) == Signed([], []);
    }
    hide Opaque, WordSat, Impossible, Xor, SameTruth;
  }

  lemma XorImpossible(a: Pred, b: Pred)
    ensures Impossible(Xor(a, b)) <==> SameTruth(a, b)
  {
    hide Opaque, Xor;
    if Impossible(Xor(a, b)) {
      forall v: Valuation
        ensures Opaque(a, v) == Opaque(b, v)
      {
        XorOpaque(a, b, v);
      }
      assert SameTruth(a, b);
    }
    if SameTruth(a, b) {
      forall v: Valuation
        ensures !Opaque(Xor(a, b), v)
      {
        XorOpaque(a, b, v);
      }
      assert Impossible(Xor(a, b));
    }
  }

  // ---------------------------------------------------------------------------------------------
  // Meaning.

  /** The connectives of the language are the connectives of the check. */
  lemma {:induction false} OpaqueHolds(p: Pred, t: Compile.Tables, ctx: Ctx, other: Option<Sigil>, v: Valuation)
    requires forall q :: v(q) == Meaning.Holds(q, t, ctx, other)
    ensures Opaque(p, v) == Meaning.Holds(p, t, ctx, other)
    decreases p
  {
    Meaning.HoldsParts(p, t, ctx, other);
    hide Meaning.Holds;
    if p.And? || p.Or? {
      OpaqueHolds(p.left, t, ctx, other, v);
      OpaqueHolds(p.right, t, ctx, other, v);
    } else if p.Not? {
      OpaqueHolds(p.inner, t, ctx, other, v);
    }
  }

  /** An alarm is about meaning: in no context whatsoever can the predicate hold. */
  lemma UnsatNeverHolds(p: Pred, t: Compile.Tables, ctx: Ctx, other: Option<Sigil>)
    requires Unsat(Desugar(p))
    ensures !Meaning.Holds(p, t, ctx, other)
  {
    UnsatExact(Desugar(p));
    hide Unsat, Meaning.Holds, Desugar;
    var v: Valuation := HoldsAt(t, ctx, other);
    OpaqueHolds(Desugar(p), t, ctx, other, v);
    Meaning.DesugarHolds(p, t, ctx, other);
  }

  ghost function HoldsAt(t: Compile.Tables, ctx: Ctx, other: Option<Sigil>): Valuation {
    (q: Pred) => Meaning.Holds(q, t, ctx, other)
  }

  /** The truth of a leaf as the code of a predicate with quantifiers `tops` decides it: wherever the leaf
      stands, a quantifier is itself and only its body is rewired. */
  ghost function WiredAt(tops: seq<Quantifier>, t: Compile.Tables, ctx: Ctx, depth: nat): Valuation {
    (q: Pred) =>
      if q.ExistsRelated? || q.CountRelated? then
        Meaning.Holds(WithBody(q, Rewired(q.body, 0, tops, depth)), t, ctx, None)
      else Meaning.Holds(q, t, ctx, None)
  }

  lemma SplitWindow<T>(all: seq<T>, k: nat, l: seq<T>, r: seq<T>)
    requires k + |l + r| <= |all| && all[k..k + |l + r|] == l + r
    ensures all[k..k + |l|] == l && all[k + |l|..k + |l| + |r|] == r
  {
    var w := all[k..k + |l + r|];
    assert w[..|l|] == l && w[|l|..] == r;
    assert w[..|l|] == all[k..k + |l|] && w[|l|..] == all[k + |l|..k + |l| + |r|];
  }

  lemma LeafRewired(p: Pred, k: nat, tops: seq<Quantifier>, t: Compile.Tables, ctx: Ctx, depth: nat)
    requires !p.And? && !p.Or? && !p.Not?
    requires p.ExistsRelated? || p.CountRelated? ==> k < |tops| && tops[k] == p
    ensures Opaque(p, WiredAt(tops, t, ctx, depth)) == Meaning.Holds(Rewired(p, k, tops, depth + 1), t, ctx, None)
  {
    hide Meaning.Holds;
  }

  lemma OpaqueParts(p: Pred, v: Valuation)
    ensures p.And? ==> (Opaque(p, v) <==> Opaque(p.left, v) && Opaque(p.right, v))
    ensures p.Or? ==> (Opaque(p, v) <==> Opaque(p.left, v) || Opaque(p.right, v))
    ensures p.Not? ==> (Opaque(p, v) <==> !Opaque(p.inner, v))
  {
  }

  lemma {:induction false} OpaqueRewired(p: Pred, k: nat, tops: seq<Quantifier>, t: Compile.Tables, ctx: Ctx, depth: nat)
    requires k + |TopScans(p)| <= |tops| && tops[k..k + |TopScans(p)|] == TopScans(p)
    ensures Opaque(p, WiredAt(tops, t, ctx, depth)) == Meaning.Holds(Rewired(p, k, tops, depth + 1), t, ctx, None)
    decreases p
  {
    hide *;
    TopParts(p);
    RewiredParts(p, k, tops, depth + 1);
    Meaning.HoldsParts(Rewired(p, k, tops, depth + 1), t, ctx, None);
    OpaqueParts(p, WiredAt(tops, t, ctx, depth));
    if p.And? || p.Or? {
      SplitWindow(tops, k, TopScans(p.left), TopScans(p.right));
      OpaqueRewired(p.left, k, tops, t, ctx, depth);
      OpaqueRewired(p.right, k + |TopScans(p.left)|, tops, t, ctx, depth);
    } else if p.Not? {
      OpaqueRewired(p.inner, k, tops, t, ctx, depth);
    } else {
      if p.ExistsRelated? || p.CountRelated? {
        assert tops[k] == tops[k..k + 1][0];
      }
      LeafRewired(p, k, tops, t, ctx, depth);
    }
  }

  /** An alarm is about the code, too: no evaluation of the predicate can answer true, whatever its nested
      quantifiers run. */
  lemma UnsatNeverMeans(p: Pred, t: Compile.Tables, ctx: Ctx)
    requires Unsat(Desugar(p))
    ensures !Means(p, t, ctx)
  {
    var d := Desugar(p);
    var tops := TopScans(d);
    assert tops[0..|tops|] == tops;
    OpaqueRewired(d, 0, tops, t, ctx, Compile.PRED_OPS_PER_EVAL - 1);
    UnsatExact(d);
    hide Unsat, Meaning.Holds, Desugar, Opaque, Rewired;
    assert !Opaque(d, WiredAt(tops, t, ctx, Compile.PRED_OPS_PER_EVAL - 1));
  }

  /** Two `when`s reported equivalent hold in the same contexts. */
  lemma EquivalentHolds(a: Pred, b: Pred, t: Compile.Tables, ctx: Ctx, other: Option<Sigil>)
    requires Equivalent(Desugar(a), Desugar(b))
    ensures Meaning.Holds(a, t, ctx, other) == Meaning.Holds(b, t, ctx, other)
  {
    EquivalentExact(Desugar(a), Desugar(b));
    hide Equivalent, Meaning.Holds, Desugar, Opaque;
    var v: Valuation := HoldsAt(t, ctx, other);
    OpaqueHolds(Desugar(a), t, ctx, other, v);
    OpaqueHolds(Desugar(b), t, ctx, other, v);
    Meaning.DesugarHolds(a, t, ctx, other);
    Meaning.DesugarHolds(b, t, ctx, other);
  }

  // ---------------------------------------------------------------------------------------------
  // check_fragment.

  datatype LawBody =
    | PredLaw(must: Pred, ought: Option<Name>)
    | RampLaw(res: Name)
    | SpreadLaw(res: Name)
    | ConserveLaw(res: Name, over: Rel)
    | CapLaw(mark: Pred, n: nat, require: Option<(Rel, Slot)>)

  datatype Law = Law(id: Name, when: Pred, body: LawBody)

  datatype Alarm = Contradiction(names: seq<Name>) | LockableNeedsKeyOrRite

  predicate MentionsLockable(p: Pred) {
    match p
    case Affordance(_, n) => n == LOCKABLE
    case And(a, b) => MentionsLockable(a) || MentionsLockable(b)
    case Or(a, b) => MentionsLockable(a) || MentionsLockable(b)
    case Not(a) => MentionsLockable(a)
    case ExistsRelated(_, _, body) => MentionsLockable(body)
    case CountRelated(_, _, body, _, _) => MentionsLockable(body)
    case _ => false
  }

  /** Disjuncts of an Or-tree. */
  function Disjuncts(p: Pred): seq<Pred> {
    if p.Or? then Disjuncts(p.left) + Disjuncts(p.right) else [p]
  }

  predicate IsKey(p: Pred) {
    p.ExistsRelated? && p.rel.KeyedBy? && p.body.RelIs? && p.body.r.WieldedBy?
  }

  /** `walk_or`, with its two flags. */
  function WalkOr(p: Pred, key: bool, rite: bool): (bool, bool) {
    if p.Or? then
      var (k, r) := WalkOr(p.left, key, rite);
      WalkOr(p.right, k, r)
    else if IsKey(p) then (true, rite)
    else if p.RiteActive? then (key, true)
    else (key, rite)
  }

  lemma {:induction false} WalkOrFinds(p: Pred, key: bool, rite: bool)
    ensures WalkOr(p, key, rite).0 <==> key || exists d :: d in Disjuncts(p) && IsKey(d)
    ensures WalkOr(p, key, rite).1 <==> rite || exists d :: d in Disjuncts(p) && d.RiteActive?
  {
    if p.Or? {
      var (k, r) := WalkOr(p.left, key, rite);
      WalkOrFinds(p.left, key, rite);
      WalkOrFinds(p.right, k, r);
    } else {
      assert Disjuncts(p) == [p];
      assert p in Disjuncts(p);
    }
  }

  predicate IsKeyOrRite(must: Pred) {
    var (key, rite) := WalkOr(must, false, false);
    key && rite
  }

  predicate HasKeyOrRite(laws: seq<Law>) {
    exists l :: l in laws && MentionsLockable(l.when) && l.body.PredLaw? && IsKeyOrRite(l.body.must)
  }

  /** Law `i` demands the impossible. */
  ghost predicate BadMust(l: Law) { l.body.PredLaw? && Unsat(Desugar(l.body.must)) }

  /** Two laws apply together and cannot both be met. */
  ghost predicate BadPair(a: Law, b: Law) {
    && a.body.PredLaw? && b.body.PredLaw?
    && Equivalent(Desugar(a.when), Desugar(b.when))
    && Unsat(And(Desugar(a.body.must), Desugar(b.body.must)))
  }

  function PredLaws(laws: seq<Law>): (r: seq<Law>)
    ensures forall l :: l in r <==> l in laws && l.body.PredLaw?
  {
    if laws == [] then [] else (if laws[0].body.PredLaw? then [laws[0]] else []) + PredLaws(laws[1..])
  }

  /** `check_fragment`.  It passes exactly when the Lockable rule is met, no law is bad alone and no two
      are bad together; an alarm names the first offender in order. */
  method CheckFragment(laws: seq<Law>, hasLockable: bool) returns (alarm: Option<Alarm>)
    ensures alarm == Some(LockableNeedsKeyOrRite) <==> hasLockable && !HasKeyOrRite(laws)
    ensures alarm.None? <==>
      && (hasLockable ==> HasKeyOrRite(laws))
      && (forall l :: l in laws ==> !BadMust(l))
      && (var ps := PredLaws(laws); forall i, j :: 0 <= i < j < |ps| ==> !BadPair(ps[i], ps[j]))
    ensures alarm.Some? && alarm.value.Contradiction? ==>
      || (exists l :: l in laws && BadMust(l) && alarm.value.names == [l.id])
      || (var ps := PredLaws(laws);
          exists i, j :: 0 <= i < j < |ps| && BadPair(ps[i], ps[j]) && alarm.value.names == [ps[i].id, ps[j].id])
  {
    hide BadMust, BadPair, HasKeyOrRite;
    if hasLockable && !HasKeyOrRite(laws) {
      return Some(LockableNeedsKeyOrRite);
    }
    var bad, ps := CheckMusts(laws);
    if bad.Some? {
      return Some(Contradiction([laws[bad.value].id]));
    }
    var pair := CheckPairs(ps);
    if pair.Some? {
      return Some(Contradiction([ps[pair.value.0].id, ps[pair.value.1].id]));
    }
    return None;
  }

  lemma {:induction false} PredLawsFrom(laws: seq<Law>, k: nat)
    requires k < |laws|
    ensures PredLaws(laws[k..]) == (if laws[k].body.PredLaw? then [laws[k]] else []) + PredLaws(laws[k + 1..])
  {
    assert laws[k..][0] == laws[k] && laws[k..][1..] == laws[k + 1..];
  }

  lemma PredLawsNone(laws: seq<Law>)
    requires laws == []
    ensures PredLaws(laws) == []
  {
  }

  /** One law: is it bad alone, and does it take part in the pairs? */
  method CheckMust(l: Law) returns (pred: seq<Law>, bad: bool)
    ensures bad == BadMust(l)
    ensures pred == if l.body.PredLaw? then [l] else []
  {
    if l.body.PredLaw? {
      bad := CheckUnsat(Desugar(l.body.must));
      pred := [l];
    } else {
      bad := false;
      pred := [];
    }
  }

  /** The first law that is bad alone, or all the laws to compare. */
  method CheckMusts(laws: seq<Law>) returns (bad: Option<nat>, ps: seq<Law>)
    ensures bad.Some? ==> bad.value < |laws| && BadMust(laws[bad.value])
    ensures bad.Some? ==> forall i :: 0 <= i < bad.value ==> !BadMust(laws[i])
    ensures bad.None? ==> ps == PredLaws(laws) && forall l :: l in laws ==> !BadMust(l)
  {
    hide BadMust, PredLaws;
    ps := [];
    assert laws[0..] == laws;
    for k := 0 to |laws|
      invariant PredLaws(laws) == ps + PredLaws(laws[k..])
      invariant forall i :: 0 <= i < k ==> !BadMust(laws[i])
    {
      PredLawsFrom(laws, k);
      var one, unsat := CheckMust(laws[k]);
      if unsat {
        return Some(k), ps;
      }
      ps := ps + one;
    }
    PredLawsNone(laws[|laws|..]);
    return None, ps;
  }

  /** The first pair of laws that is bad together. */
  method CheckPairs(ps: seq<Law>) returns (bad: Option<(nat, nat)>)
    requires forall l :: l in ps ==> l.body.PredLaw?
    ensures bad.None? <==> forall i, j :: 0 <= i < j < |ps| ==> !BadPair(ps[i], ps[j])
    ensures bad.Some? ==> bad.value.0 < bad.value.1 < |ps| && BadPair(ps[bad.value.0], ps[bad.value.1])
    ensures bad.Some? ==>
      forall i, j :: 0 <= i < j < |ps| && (i < bad.value.0 || (i == bad.value.0 && j < bad.value.1)) ==>
        !BadPair(ps[i], ps[j])
  {
    hide BadPair;
    for i := 0 to |ps|
      invariant forall x, y :: 0 <= x < i && x < y < |ps| ==> !BadPair(ps[x], ps[y])
    {
      for j := i + 1 to |ps|
        invariant forall y :: i < y < j ==> !BadPair(ps[i], ps[y])
      {
        var clash := CheckPair(ps[i], ps[j]);
        if clash {
          return Some((i, j));
        }
      }
    }
    return None;
  }

  method CheckPair(a: Law, b: Law) returns (bad: bool)
    requires a.body.PredLaw? && b.body.PredLaw?
    ensures bad == BadPair(a, b)
  {
    var same := CheckUnsat(Xor(Desugar(a.when), Desugar(b.when)));
    if !same {
      return false;
    }
    bad := CheckUnsat(And(Desugar(a.body.must), Desugar(b.body.must)));
  }

  /** A pair in alarm: wherever one applies so does the other, and no context meets both. */
  lemma BadPairNeverHolds(a: Law, b: Law, t: Compile.Tables, ctx: Ctx, other: Option<Sigil>)
    requires BadPair(a, b)
    ensures Meaning.Holds(a.when, t, ctx, other) == Meaning.Holds(b.when, t, ctx, other)
    ensures !(Meaning.Holds(a.body.must, t, ctx, other) && Meaning.Holds(b.body.must, t, ctx, other))
  {
    hide Unsat, Desugar, Equivalent;
    EquivalentHolds(a.when, b.when, t, ctx, other);
    BothNeverHold(a.body.must, b.body.must, t, ctx, other);
  }

  lemma BothNeverHold(p: Pred, q: Pred, t: Compile.Tables, ctx: Ctx, other: Option<Sigil>)
    requires Unsat(And(Desugar(p), Desugar(q)))
    ensures !(Meaning.Holds(p, t, ctx, other) && Meaning.Holds(q, t, ctx, other))
  {
    var both := And(p, q);
    assert Desugar(both) == And(Desugar(p), Desugar(q));
    hide Unsat, Desugar;
    UnsatNeverHolds(both, t, ctx, other);
    Meaning.HoldsParts(both, t, ctx, other);
  }
}
