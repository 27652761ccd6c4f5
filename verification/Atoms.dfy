/** Cooked atoms, the store they read and how one atom is evaluated. */
module Atoms {
  import opened Prelude
  import opened Space
  import opened Pred

  /** A slot after cooking: names have become pin indices. */
  datatype CookedSlot = ThisSlot | TargetSlot | OtherSlot | Pin(ix: nat)

  datatype Atom =
    | AffordanceAtom(s: CookedSlot, id: nat)
    | RelAtom(a: CookedSlot, r: Rel, b: CookedSlot)
    | QtyAtom(s: CookedSlot, id: nat, cmp: Cmp, v: int)
    | EqVerbAtom(verb: Verb)
    | RiteActiveAtom(id: nat)
    | AabbNearAtom(a: CookedSlot, b: CookedSlot, mm: int)
    | InWindowAtom(id: nat, ch: Channel)
    | KnowsAtom(s: CookedSlot, id: nat)
    | SourceIsAtom(source: SourceKind)
    | AgencyClaimedAtom(ch: Channel)
    | SweptHitsAtom
    | IslandAwakeAtom(s: CookedSlot)
    | SelfIsAtom(s: CookedSlot)
    | TargetIsAtom(s: CookedSlot)
    | OtherIsAtom(s: CookedSlot)
    | RayHitsAtom(from: CookedSlot, dir: Vec3, maxMm: int, mask: nat)
    | SimLodIsAtom(s: CookedSlot, lod: SimLod)
    | InPlaceAtom(s: CookedSlot, p: CookedSlot)

  /** The projection the interpreter reads: arbitrary columns. */
  datatype Store = Store(
    hasAffordance: (Sigil, nat) -> bool,
    hasRel: (Sigil, Rel, Sigil) -> bool,
    related: (Sigil, Rel) -> seq<Sigil>,
    qty: (Sigil, nat) -> int,
    aabb: Sigil -> Option<Aabb>,
    knows: (Sigil, nat) -> bool,
    riteActive: (Sigil, nat) -> bool,
    inWindow: (nat, Channel) -> bool,
    sleepTicks: Sigil -> Option<nat>,
    simLod: Sigil -> SimLod)

  /** One proposal's bindings. */
  datatype Ctx = Ctx(
    store: Store,
    actor: Sigil,
    target: Option<Sigil>,
    pins: seq<Option<Sigil>>,
    verb: Verb,
    source: SourceKind,
    claimed: seq<Channel>,
    sweptHits: bool)

  function Resolve(slot: CookedSlot, ctx: Ctx, other: Option<Sigil>): Option<Sigil> {
    match slot
    case ThisSlot => Some(ctx.actor)
    case TargetSlot => ctx.target
    case OtherSlot => other
    case Pin(i) => if i < |ctx.pins| then ctx.pins[i] else None
  }

  predicate Compare(a: int, cmp: Cmp, b: int) {
    match cmp
    case Lt => a < b
    case Le => a <= b
    case Eq => a == b
    case Ge => a >= b
    case Gt => a > b
  }

  /** `bmin.saturating_sub(amax)` and its mirror: the gap is positive, so only the top clamps. */
  function AxisGap(amin: int, amax: int, bmin: int, bmax: int): int {
    if amax < bmin then ClampI32(bmin - amax)
    else if bmax < amin then ClampI32(amin - bmax)
    else 0
  }

  function GapSquared(a: Aabb, b: Aabb): int {
    var dx := AxisGap(a.min.x, a.max.x, b.min.x, b.max.x);
    var dy := AxisGap(a.min.y, a.max.y, b.min.y, b.max.y);
    var dz := AxisGap(a.min.z, a.max.z, b.min.z, b.max.z);
    dx * dx + dy * dy + dz * dz
  }

  /** `aabb_near`: the three squares are summed in `i64`, where the last addition can wrap. */
  predicate Near(a: Aabb, b: Aabb, max: int) {
    a.Intersects(b) || WrapI64(GapSquared(a, b)) <= max * max
  }

  lemma AxisGapRange(amin: int, amax: int, bmin: int, bmax: int)
    ensures 0 <= AxisGap(amin, amax, bmin, bmax) <= I32_MAX
  {
  }

  lemma SquareRange(d: int, bound: int)
    requires -bound <= d <= bound
    ensures 0 <= d * d <= bound * bound
  {
    var e: nat := if d < 0 then -d else d;
    assert e * e == d * d;
    assert e * e <= e * bound <= bound * bound;
  }

  lemma GapSquaredRange(a: Aabb, b: Aabb)
    ensures 0 <= GapSquared(a, b) <= 3 * (I32_MAX * I32_MAX)
  {
    AxisGapRange(a.min.x, a.max.x, b.min.x, b.max.x);
    AxisGapRange(a.min.y, a.max.y, b.min.y, b.max.y);
    AxisGapRange(a.min.z, a.max.z, b.min.z, b.max.z);
    SquareRange(AxisGap(a.min.x, a.max.x, b.min.x, b.max.x), I32_MAX);
    SquareRange(AxisGap(a.min.y, a.max.y, b.min.y, b.max.y), I32_MAX);
    SquareRange(AxisGap(a.min.z, a.max.z, b.min.z, b.max.z), I32_MAX);
  }

  /** `aabb_near` compares the squared distance it means to compare exactly when the sum of the
      squared gaps fits in `i64`.  Past that the sum wraps to a negative number and boxes far apart
      on all three axes are reported near, whatever the radius. */
  lemma NearExactIff(a: Aabb, b: Aabb, max: int)
    requires IsI32(max)
    ensures (Near(a, b, max) <==> a.Intersects(b) || GapSquared(a, b) <= max * max)
      <==> a.Intersects(b) || GapSquared(a, b) < 0x8000_0000_0000_0000
  {
    GapSquaredRange(a, b);
    SquareRange(max, 0x8000_0000);
    assert 0x8000_0000 * 0x8000_0000 == 0x4000_0000_0000_0000;
  }

  /** Two unit boxes at opposite corners of the world are within one millimetre. */
  lemma NearWraps()
    ensures var lo := Aabb(Vec3(I32_MIN, I32_MIN, I32_MIN), Vec3(I32_MIN + 1, I32_MIN + 1, I32_MIN + 1));
      var hi := Aabb(Vec3(I32_MAX - 1, I32_MAX - 1, I32_MAX - 1), Vec3(I32_MAX, I32_MAX, I32_MAX));
      !lo.Intersects(hi) && Near(lo, hi, 1)
  {
    var lo := Aabb(Vec3(I32_MIN, I32_MIN, I32_MIN), Vec3(I32_MIN + 1, I32_MIN + 1, I32_MIN + 1));
    var hi := Aabb(Vec3(I32_MAX - 1, I32_MAX - 1, I32_MAX - 1), Vec3(I32_MAX, I32_MAX, I32_MAX));
    assert GapSquared(lo, hi) == 3 * (I32_MAX * I32_MAX);
  }

  /** Closed world: an unbound slot or a missing row is false. */
  predicate EvalAtom(atom: Atom, ctx: Ctx, other: Option<Sigil>) {
    match atom
    case AffordanceAtom(s, id) =>
      var x := Resolve(s, ctx, other);
      x.Some? && ctx.store.hasAffordance(x.value, id)
    case RelAtom(a, r, b) =>
      var x, y := Resolve(a, ctx, other), Resolve(b, ctx, other);
      x.Some? && y.Some? && ctx.store.hasRel(x.value, r, y.value)
    case QtyAtom(s, id, cmp, v) =>
      var x := Resolve(s, ctx, other);
      x.Some? && Compare(ctx.store.qty(x.value, id), cmp, v)
    case EqVerbAtom(v) => ctx.verb == v
    case RiteActiveAtom(id) => ctx.store.riteActive(ctx.actor, id)
    case AabbNearAtom(a, b, mm) =>
      var x, y := Resolve(a, ctx, other), Resolve(b, ctx, other);
      x.Some? && y.Some? && ctx.store.aabb(x.value).Some? && ctx.store.aabb(y.value).Some?
      && Near(ctx.store.aabb(x.value).value, ctx.store.aabb(y.value).value, mm)
    case InWindowAtom(id, ch) => ctx.store.inWindow(id, ch)
    case KnowsAtom(s, id) =>
      var x := Resolve(s, ctx, other);
      x.Some? && ctx.store.knows(x.value, id)
    case SourceIsAtom(k) => ctx.source == k
    case AgencyClaimedAtom(ch) => ch in ctx.claimed
    case SweptHitsAtom => ctx.sweptHits
    case IslandAwakeAtom(s) =>
      var x := Resolve(s, ctx, other);
      x.Some? && ctx.store.sleepTicks(x.value) == Some(0)
    case SelfIsAtom(s) => Resolve(s, ctx, other) == Some(ctx.actor)
    case TargetIsAtom(s) => ctx.target.Some? && Resolve(s, ctx, other) == ctx.target
    case OtherIsAtom(s) => other.Some? && Resolve(s, ctx, other) == other
    case RayHitsAtom(_, _, _, _) => false
    case SimLodIsAtom(s, lod) =>
      var x := Resolve(s, ctx, other);
      x.Some? && ctx.store.simLod(x.value) == lod
    case InPlaceAtom(s, p) =>
      var x, y := Resolve(s, ctx, other), Resolve(p, ctx, other);
      x.Some? && y.Some? && ctx.store.hasRel(x.value, In, y.value)
  }
}
