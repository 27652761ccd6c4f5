/** The projection columns that rites and the kernel read and write, the events applied to them, and the
    speculative copy both work on. */
module World {
  import opened Prelude
  import opened Pred
  import opened Space
  import opened Atoms
  import opened Rites
  import opened Compile

  type Tick = nat
  type Pose = Vec3

  /** An in-progress rite. */
  datatype Machine = Machine(
    startedAt: Tick,
    waitAt: Tick,
    contactHit: bool,
    contactAgency: nat,
    pc: Pc,
    waitLeft: nat,
    target: Option<Sigil>,
    waitCh: Option<Channel>)

  datatype RiteEnd = EndSuccess | EndFail | FailBudget

  /** Trace events a rite can emit. */
  datatype Event =
    | RiteBegan(actor: Sigil, rite: nat, target: Option<Sigil>)
    | RiteAdvanced(actor: Sigil, rite: nat, pc: Pc, waitLeft: nat)
    | RiteEnded(actor: Sigil, rite: nat, status: RiteEnd)
    | QtyChanged(id: Sigil, res: nat, to: int)
    | RelAdded(a: Sigil, rel: Rel, b: Sigil)
    | RelDeleted(a: Sigil, rel: Rel, b: Sigil)
    | Emitted(a: Sigil, other: Option<Sigil>)
    | Spawned(template: nat, sigil: Sigil, at: Pose)
    | ActionAuthorized(actor: Sigil, rite: nat, instance: Tick, channel: nat)

  datatype Proj = Proj(
    loci: set<Sigil>,
    cap: nat,
    afford: set<(Sigil, nat)>,
    qty: map<(Sigil, nat), int>,
    inPlace: map<Sigil, Sigil>,
    rels: map<(Sigil, Rel), seq<Sigil>>,
    pose: map<Sigil, Pose>,
    island: map<Sigil, (nat, nat)>,
    physReq: map<Sigil, (Vec3, Vec3)>,
    rites: map<(Sigil, nat), Machine>)

  // ---------------------------------------------------------------------------------------------
  // Column writes.  A write to an unknown locus is dropped.

  function SetQty(p: Proj, s: Sigil, res: nat, v: int): Proj {
    if s in p.loci then p.(qty := p.qty[(s, res) := v]) else p
  }

  function Related(p: Proj, a: Sigil, rel: Rel): seq<Sigil> {
    if a !in p.loci then []
    else if rel.In? then (if a in p.inPlace then [p.inPlace[a]] else [])
    else if (a, rel) in p.rels then p.rels[(a, rel)]
    else []
  }

  /** `In` is a column, so a locus is in one place; other neighbours are kept in insertion order. */
  function AddRel(p: Proj, a: Sigil, rel: Rel, b: Sigil): Proj {
    if a !in p.loci then p
    else if rel.In? then p.(inPlace := p.inPlace[a := b])
    else
      var n := Related(p, a, rel);
      p.(rels := p.rels[(a, rel) := if b in n then n else n + [b]])
  }

  function Without(s: seq<Sigil>, b: Sigil): (r: seq<Sigil>)
    ensures forall x :: x in r <==> x in s && x != b
  {
    if s == [] then [] else (if s[0] == b then [] else [s[0]]) + Without(s[1..], b)
  }

  function DelRel(p: Proj, a: Sigil, rel: Rel, b: Sigil): Proj {
    if a !in p.loci then p
    else if rel.In? then
      if a in p.inPlace && p.inPlace[a] == b then p.(inPlace := p.inPlace - {a}) else p
    else if (a, rel) in p.rels then p.(rels := p.rels[(a, rel) := Without(p.rels[(a, rel)], b)])
    else p
  }

  function PutRite(p: Proj, actor: Sigil, rite: nat, m: Machine): Proj {
    if actor in p.loci then p.(rites := p.rites[(actor, rite) := m]) else p
  }

  function RiteRow(p: Proj, actor: Sigil, rite: nat): Option<Machine> {
    if actor in p.loci && (actor, rite) in p.rites then Some(p.rites[(actor, rite)]) else None
  }

  function InsertLocus(p: Proj, s: Sigil): Option<Proj> {
    if s in p.loci then Some(p)
    else if |p.loci| >= p.cap then None
    else Some(p.(loci := p.loci + {s}, island := p.island[s := (0, 0)]))
  }

  function Advance(m: Machine, pc: Pc, waitLeft: nat, tick: Tick): Machine {
    m.(pc := pc, waitLeft := waitLeft,
       waitAt := if m.pc != pc || m.waitLeft == 0 || waitLeft > m.waitLeft then tick else m.waitAt)
  }

  /** `apply_event`. */
  function ApplyEvent(p: Proj, e: Event, tick: Tick): Proj {
    match e
    case RiteBegan(actor, rite, target) =>
      PutRite(p, actor, rite, Machine(tick, tick, false, 0, 0, 0, target, None))
    case RiteAdvanced(actor, rite, pc, waitLeft) =>
      var row := RiteRow(p, actor, rite);
      if row.None? then p else PutRite(p, actor, rite, Advance(row.value, pc, waitLeft, tick))
    case RiteEnded(actor, rite, _) =>
      if actor in p.loci then p.(rites := p.rites - {(actor, rite)}) else p
    case QtyChanged(id, res, to) => SetQty(p, id, res, to)
    case RelAdded(a, rel, b) => AddRel(p, a, rel, b)
    case RelDeleted(a, rel, b) => DelRel(p, a, rel, b)
    case Emitted(_, _) => p
    case Spawned(_, s, at) =>
      var q := InsertLocus(p, s);
      if q.None? then p else q.value.(pose := q.value.pose[s := at])
    case ActionAuthorized(actor, rite, instance, channel) =>
      var row := RiteRow(p, actor, rite);
      if row.Some? && row.value.startedAt == instance
      then PutRite(p, actor, rite, row.value.(contactAgency := channel))
      else p
  }

  /** The loci an event counts as written. */
  function Touched(e: Event): set<Sigil> {
    match e
    case RiteBegan(actor, _, _) => {actor}
    case RiteAdvanced(actor, _, _, _) => {actor}
    case RiteEnded(actor, _, _) => {actor}
    case ActionAuthorized(actor, _, _, _) => {actor}
    case QtyChanged(id, _, _) => {id}
    case RelAdded(a, _, b) => {a, b}
    case RelDeleted(a, _, b) => {a, b}
    case Spawned(_, s, _) => {s}
    case Emitted(_, _) => {}
  }

  // ---------------------------------------------------------------------------------------------
  // Speculation.

  /** The value of a speculative delta. */
  datatype Spec = Spec(proj: Proj, events: seq<Event>, written: set<Sigil>, tick: Tick)

  function Push(s: Spec, e: Event): Spec {
    s.(proj := ApplyEvent(s.proj, e, s.tick), events := s.events + [e], written := s.written + Touched(e))
  }

  /** A column write that is not an event. */
  function Write(s: Spec, locus: Sigil, p: Proj): Spec {
    s.(proj := p, written := s.written + {locus})
  }

  /** A private copy of the projection plus the events it would publish. */
  class SpecDelta {
    var proj: Proj
    var events: seq<Event>
    var written: set<Sigil>
    const tick: Tick

    ghost function View(): Spec
      reads this
    {
      Spec(proj, events, written, tick)
    }

    constructor (p: Proj, now: Tick)
      ensures View() == Spec(p, [], {}, now)
    {
      proj, events, written, tick := p, [], {}, now;
    }

    /** Apply an event to the copy and queue it. */
    method PushEvent(e: Event)
      modifies this
      ensures View() == Push(old(View()), e)
    {
      written := written + Touched(e);
      proj := ApplyEvent(proj, e, tick);
      events := events + [e];
    }

    /** A column write that is not an event. */
    method Put(locus: Sigil, p: Proj)
      modifies this
      ensures View() == Write(old(View()), locus, p)
    {
      written := written + {locus};
      proj := p;
    }
  }

  // ---------------------------------------------------------------------------------------------
  // Canon.

  /** A rite bound to contact tracking: its name and the channel that may drive it. */
  datatype Track = Track(rite: Name, channel: nat)

  datatype CookedRite = CookedRite(
    id: nat,
    name: Name,
    entry: Pc,
    capSteps: nat,
    instrs: seq<Instr>,
    guards: map<Pc, nat>)

  /** Frozen tables, and the columns and the id allocator that are not modelled further. */
  datatype Canon = Canon(
    preds: seq<Program>,
    resources: map<Name, nat>,
    affordances: map<Name, nat>,
    facts: seq<Name>,
    pinNames: seq<Name>,
    pinSigils: seq<Option<Sigil>>,
    tracks: map<Sigil, Track>,
    posedHull: (Proj, Sigil) -> Option<Aabb>,
    knows: (Sigil, nat) -> bool,
    simLod: Sigil -> SimLod,
    spawnId: set<Sigil> -> Option<Sigil>)

  /** Some machine of that rite is waiting. */
  predicate InWindow(p: Proj, rite: nat) {
    exists s :: s in p.loci && (s, rite) in p.rites && p.rites[(s, rite)].waitLeft > 0
  }

  /** What predicates read from a projection. */
  function StoreOf(p: Proj, canon: Canon): Store {
    Store(
      (s: Sigil, a: nat) => s in p.loci && a < 64 && (s, a) in p.afford,
      (a: Sigil, rel: Rel, b: Sigil) => b in Related(p, a, rel),
      (a: Sigil, rel: Rel) => Related(p, a, rel),
      (s: Sigil, res: nat) => if s in p.loci && (s, res) in p.qty then p.qty[(s, res)] else 0,
      (s: Sigil) => canon.posedHull(p, s),
      canon.knows,
      (s: Sigil, rite: nat) => RiteRow(p, s, rite).Some?,
      (rite: nat, ch: Channel) => InWindow(p, rite),
      (s: Sigil) => if s in p.loci && s in p.island then Some(p.island[s].1) else None,
      canon.simLod)
  }
}
