/** The authored predicate language and its meaning. */
module Pred {
  import opened Prelude
  import opened Space

  type Name = string
  type Verb = nat
  type Channel = nat

  datatype Rel = In | OwnedBy | WieldedBy | KeyedBy | KnowsRel | Owes | Fears | PartOf | DerivedFrom
               | LockedBy | Dead | PilotedBy | AttachedTo
  datatype Cmp = Lt | Le | Eq | Ge | Gt
  datatype SourceKind = Player | Mind | SpaceSource | Motion | Infer | Phys | Residency
  datatype Slot = This | Target | Other | Named(name: Name)

  datatype Pred =
    | Affordance(s: Slot, n: Name)
    | RelIs(a: Slot, r: Rel, b: Slot)
    | Qty(s: Slot, n: Name, cmp: Cmp, v: int)
    | EqVerb(verb: Verb)
    | RiteActive(n: Name)
    | AabbNear(a: Slot, b: Slot, mm: int)
    | InWindow(n: Name, ch: Channel)
    | Knows(s: Slot, n: Name)
    | SourceIs(source: SourceKind)
    | AgencyClaimed(ch: Channel)
    | Burning(s: Slot)
    | OpaqueClosed(s: Slot)
    | SweptHitsOpaqueClosed
    | IslandAwake(s: Slot)
    | SelfIs(s: Slot)
    | TargetIs(s: Slot)
    | OtherIs(s: Slot)
    | RayHits(from: Slot, dir: Vec3, maxMm: int, mask: nat)
    | SimLodIs(s: Slot, lod: SimLod)
    | InPlace(s: Slot, p: Slot)
    | And(left: Pred, right: Pred)
    | Or(left: Pred, right: Pred)
    | Not(inner: Pred)
    | ExistsRelated(of: Slot, rel: Rel, body: Pred)
    | CountRelated(of: Slot, rel: Rel, body: Pred, cmp: Cmp, v: int)

  const HEAT: Name := "heat"
  const OPAQUE: Name := "Opaque"
  const IGNITE: int := 400

  predicate IsCombinator(p: Pred) {
    p.And? || p.Or? || p.Not? || p.ExistsRelated? || p.CountRelated?
  }

  predicate IsSugar(p: Pred) { p.Burning? || p.OpaqueClosed? }

  /** Leaves that survive desugaring. */
  predicate IsAtom(p: Pred) { !IsCombinator(p) && !IsSugar(p) }

  function Desugar(p: Pred): Pred {
    match p
    case Burning(s) => Qty(s, HEAT, Ge, IGNITE)
    case OpaqueClosed(s) => And(Affordance(s, OPAQUE), ExistsRelated(s, LockedBy, OtherIs(Other)))
    case And(a, b) => And(Desugar(a), Desugar(b))
    case Or(a, b) => Or(Desugar(a), Desugar(b))
    case Not(a) => Not(Desugar(a))
    case ExistsRelated(of, rel, body) => ExistsRelated(of, rel, Desugar(body))
    case CountRelated(of, rel, body, cmp, v) => CountRelated(of, rel, Desugar(body), cmp, v)
    case _ => p
  }

  predicate SugarFree(p: Pred) {
    match p
    case And(a, b) => SugarFree(a) && SugarFree(b)
    case Or(a, b) => SugarFree(a) && SugarFree(b)
    case Not(a) => SugarFree(a)
    case ExistsRelated(_, _, body) => SugarFree(body)
    case CountRelated(_, _, body, _, _) => SugarFree(body)
    case _ => !IsSugar(p)
  }

  predicate QuantifierFree(p: Pred) {
    match p
    case And(a, b) => QuantifierFree(a) && QuantifierFree(b)
    case Or(a, b) => QuantifierFree(a) && QuantifierFree(b)
    case Not(a) => QuantifierFree(a)
    case ExistsRelated(_, _, _) => false
    case CountRelated(_, _, _, _, _) => false
    case _ => true
  }

  /** Every scan body is quantifier-free: what the bytecode can express. */
  predicate Flat(p: Pred) {
    match p
    case And(a, b) => Flat(a) && Flat(b)
    case Or(a, b) => Flat(a) && Flat(b)
    case Not(a) => Flat(a)
    case ExistsRelated(_, _, body) => QuantifierFree(body)
    case CountRelated(_, _, body, _, _) => QuantifierFree(body)
    case _ => true
  }

  /** The nesting rule of the document validator: `inQuant` is set inside a scan body.  Sugar is
      accepted everywhere. */
  predicate ValidatorAccepts(p: Pred, inQuant: bool) {
    match p
    case And(a, b) => ValidatorAccepts(a, inQuant) && ValidatorAccepts(b, inQuant)
    case Or(a, b) => ValidatorAccepts(a, inQuant) && ValidatorAccepts(b, inQuant)
    case Not(a) => ValidatorAccepts(a, inQuant)
    case ExistsRelated(_, _, body) => !inQuant && ValidatorAccepts(body, true)
    case CountRelated(_, _, body, _, _) => !inQuant && ValidatorAccepts(body, true)
    case _ => true
  }

  lemma ValidParts(p: Pred, inQuant: bool)
    ensures p.And? || p.Or? ==>
      (ValidatorAccepts(p, inQuant) <==> ValidatorAccepts(p.left, inQuant) && ValidatorAccepts(p.right, inQuant))
    ensures p.Not? ==> (ValidatorAccepts(p, inQuant) <==> ValidatorAccepts(p.inner, inQuant))
    ensures p.ExistsRelated? || p.CountRelated? ==>
      (ValidatorAccepts(p, inQuant) <==> !inQuant && ValidatorAccepts(p.body, true))
    ensures !IsCombinator(p) ==> ValidatorAccepts(p, inQuant)
  {
  }

  /** `OpaqueClosed`, whose sugar hides a scan, does not occur inside a scan body. */
  predicate NoOpaqueInScan(p: Pred, inQuant: bool) {
    match p
    case And(a, b) => NoOpaqueInScan(a, inQuant) && NoOpaqueInScan(b, inQuant)
    case Or(a, b) => NoOpaqueInScan(a, inQuant) && NoOpaqueInScan(b, inQuant)
    case Not(a) => NoOpaqueInScan(a, inQuant)
    case ExistsRelated(_, _, body) => NoOpaqueInScan(body, true)
    case CountRelated(_, _, body, _, _) => NoOpaqueInScan(body, true)
    case OpaqueClosed(_) => !inQuant
    case _ => true
  }

  lemma {:induction false} DesugarSugarFree(p: Pred)
    ensures SugarFree(Desugar(p))
  {
    match p
    case And(a, b) => DesugarSugarFree(a); DesugarSugarFree(b);
    case Or(a, b) => DesugarSugarFree(a); DesugarSugarFree(b);
    case Not(a) => DesugarSugarFree(a);
    case ExistsRelated(_, _, body) => DesugarSugarFree(body);
    case CountRelated(_, _, body, _, _) => DesugarSugarFree(body);
    case _ =>
  }

  lemma {:induction false} DesugarIdempotent(p: Pred)
    requires SugarFree(p)
    ensures Desugar(p) == p
  {
    match p
    case And(a, b) => DesugarIdempotent(a); DesugarIdempotent(b);
    case Or(a, b) => DesugarIdempotent(a); DesugarIdempotent(b);
    case Not(a) => DesugarIdempotent(a);
    case ExistsRelated(_, _, body) => DesugarIdempotent(body);
    case CountRelated(_, _, body, _, _) => DesugarIdempotent(body);
    case _ =>
  }

  lemma {:induction false} QuantifierFreeIffAccepted(p: Pred)
    ensures QuantifierFree(Desugar(p)) <==> ValidatorAccepts(p, true) && NoOpaqueInScan(p, true)
  {
    match p
    case And(a, b) => QuantifierFreeIffAccepted(a); QuantifierFreeIffAccepted(b);
    case Or(a, b) => QuantifierFreeIffAccepted(a); QuantifierFreeIffAccepted(b);
    case Not(a) => QuantifierFreeIffAccepted(a);
    case _ =>
  }

  /** The validator's nesting rule alone does not make desugared scan bodies quantifier-free: the
      missing condition is exactly that `OpaqueClosed` stays out of scan bodies. */
  lemma {:induction false} FlatIffAccepted(p: Pred)
    ensures Flat(Desugar(p)) <==> ValidatorAccepts(p, false) && NoOpaqueInScan(p, false)
  {
    match p
    case And(a, b) => FlatIffAccepted(a); FlatIffAccepted(b);
    case Or(a, b) => FlatIffAccepted(a); FlatIffAccepted(b);
    case Not(a) => FlatIffAccepted(a);
    case ExistsRelated(_, _, body) => QuantifierFreeIffAccepted(body);
    case CountRelated(_, _, body, _, _) => QuantifierFreeIffAccepted(body);
    case _ =>
  }
}
