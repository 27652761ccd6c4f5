/** Admitting one proposal. */
module Admission {
  // Preflight, declared write cells, a private speculative copy, the laws, and publication.

  import opened Prelude
  import opened Pred
  import opened Atoms
  import opened World
  import opened Distinct
  import opened Proposals
  import RiteDrive
  import Laws
  import Membership
  import RiteVm
  import Rites
  import Eval

  const VERB_LOOK: Verb := 0
  const VERB_MOVE: Verb := 1
  const VERB_USE: Verb := 2
  const VERB_FIRE: Verb := RiteDrive.VERB_FIRE
  const VERB_TIME: Verb := 7
  const HITTABLE: Name := "Hittable"
  const MAX_PLACE_ROWS: nat := 10000
  const MAX_PHYS_ISLAND_BODIES: nat := 256
  const MAX_PHYS_ISLAND_CONSTRAINTS: nat := 512
  const MAX_PHYS_ISLAND_CHILDREN: nat := 256
  const MAX_PHYS_ISLAND_WRITE_LOCI: nat := 512

  datatype Budgets = Budgets(predOps: nat, riteSteps: nat, rewindTicks: nat, evalSlo: nat)

  /** The live world. */
  datatype Live = Live(proj: Proj, trace: seq<Event>, tick: Tick, epoch: nat, canonHash: nat)

  /** One lane of one locus. */
  type Cell = (Sigil, nat)

  /** Canon tables, and the geometry and snapshot queries that are deterministic functions of the
      world and not modelled further. */
  datatype Rules = Rules(
    book: RiteDrive.Book,
    laws: seq<Laws.CookedLaw>,
    packed: Proj -> seq<Sigil>,
    players: map<nat, Sigil>,
    prefixHash: seq<Event> -> nat,
    hitscan: (Live, Proposal, Sigil) -> Result<Option<Sigil>, RejectReason>,
    sweep: (Proj, Move) -> Result<bool, RejectReason>,
    driven: (Proj, Sigil) -> bool,
    placed: (Live, Proposal) -> Option<Spec>,
    vouch: (Live, Proposal) -> Option<RejectReason>,
    contacts: (Live, Proposal) -> Option<RejectReason>,
    windowed: (Live, Sigil) -> bool,
    tracked: (Live, Sigil) -> bool,
    solve: (Live, Proposal) -> Result<Posed, RejectReason>,
    windows: (Live, Proposal, Spec, nat, nat) -> Windowed)

  /** A physical island as its bodies and constraints leave it: the bodies that swept something, and the contacts
      the laws are asked about. */
  datatype Posed = Posed(spec: Spec, swept: set<Sigil>, contacts: seq<Contact>)

  /** A contact; a channel that is none does not decode. */
  datatype Contact = Contact(actor: Sigil, target: Sigil, channel: Option<Channel>)

  /** The island after its motion windows, and the ops they used of those they were given. */
  datatype Windowed = Windowed(result: Result<Spec, RejectReason>, steps: nat, ops: nat)

  /** Everything admission threads through a tick. */
  datatype Ledger = Ledger(live: Live, written: set<Cell>, riteSteps: nat, predOps: nat)

  /** What a proposal needs from preflight. */
  datatype Entry = Entry(actor: Sigil, target: Option<Sigil>, verb: Verb, source: SourceKind, claimed: seq<Channel>,
                         swept: bool)

  /** An admission: the cells it is charged for and the delta it published. */
  datatype Grant = Grant(cells: set<Cell>, spec: Spec)

  type Outcome = Result<Grant, RejectReason>

  // ---------------------------------------------------------------------------------------------
  // Preflight.

  function TargetOf(r: Rules, t: IntentTarget): Option<Sigil> {
    match t
    case NoTarget => None
    case AtSigil(s) => Some(s)
    case AtName(n) =>
      var i := Position(r.book.canon.pinNames, n);
      if i.Some? && i.value < |r.book.canon.pinSigils| then r.book.canon.pinSigils[i.value] else None
  }

  predicate Hittable(r: Rules, live: Live, t: Sigil) {
    HITTABLE in r.book.canon.affordances
    && StoreOf(live.proj, r.book.canon).hasAffordance(t, r.book.canon.affordances[HITTABLE])
  }

  function Age(now: Tick, at: Tick): nat { if at <= now then now - at else 0 }

  /** Combat is allowed as far back as the rewind ring, everything else as far as the latency goal. */
  predicate Stale(r: Rules, b: Budgets, live: Live, verb: Verb, target: Option<Sigil>, at: Tick) {
    var combat := verb == VERB_FIRE || (verb == VERB_USE && target.Some? && Hittable(r, live, target.value));
    if b.rewindTicks > 0 && combat then Age(live.tick, at) > b.rewindTicks else Age(live.tick, at) > b.evalSlo
  }

  function PreflightMove(r: Rules, live: Live, m: Move, source: SourceKind): Result<Entry, RejectReason> {
    if m.witnessMover != m.mover then Err(WrongHull)
    else if r.driven(live.proj, m.mover) then Err(Conflict)
    else
      match r.sweep(live.proj, m)
      case Err(e) => Err(e)
      case Ok(hits) => Ok(Entry(m.mover, None, VERB_MOVE, source, [], hits))
  }

  function PreflightPlace(r: Rules, live: Live, p: Proposal): Result<Entry, RejectReason>
    requires p.Residency?
  {
    if p.canonHash != live.canonHash || p.prefix != r.prefixHash(live.trace) then Err(EpochMismatch)
    else if p.snap.place != p.place || p.snap.canonHash != p.canonHash then Err(ResidencyFault)
    else if |p.snap.rows| > MAX_PLACE_ROWS then Err(ResidencyFault)
    else if p.op.Evict? && p.place !in live.proj.loci then Err(ResidencyFault)
    else Ok(Entry(p.place, None, VERB_LOOK, SourceKind.Residency, [], false))
  }

  function Preflight(r: Rules, b: Budgets, live: Live, p: Proposal): Result<Entry, RejectReason>
    requires !p.PhysIsland?
  {
    match p
    case PlayerIntent(player, at, verb, target, claimed, _) =>
      if player !in r.players then Err(Budget)
      else if Stale(r, b, live, verb, TargetOf(r, target), at) then Err(StaleEpoch)
      else if verb == VERB_TIME && claimed == [] then Err(UnclaimedAgency)
      else Ok(Entry(r.players[player], TargetOf(r, target), verb, Player, claimed, false))
    case MindIntent(locus, verb, target) =>
      if verb == VERB_TIME then Err(UnclaimedAgency)
      else Ok(Entry(locus, TargetOf(r, target), verb, Mind, [], false))
    case InferIntent(speaker, verb, target, facts) =>
      if verb == VERB_TIME then Err(UnclaimedAgency)
      else if speaker.None? then Err(HallucinatedFact)
      else if facts != [] then Err(HallucinatedFact)
      else Ok(Entry(speaker.value, TargetOf(r, target), verb, Infer, [], false))
    case SpaceDelta(m) => PreflightMove(r, live, m, SpaceSource)
    case MotionDelta(m) => PreflightMove(r, live, m, Motion)
    case Residency(_, _, _, _, _) => PreflightPlace(r, live, p)
  }

  /** Fire under rewind is retargeted against the snapshot of its own tick. */
  function Aim(r: Rules, b: Budgets, live: Live, p: Proposal, e: Entry): Result<Entry, RejectReason> {
    if p.PlayerIntent? && b.rewindTicks > 0 && p.verb == VERB_FIRE then
      match r.hitscan(live, p, e.actor)
      case Err(x) => Err(x)
      case Ok(t) => Ok(e.(target := t))
    else Ok(e)
  }

  // ---------------------------------------------------------------------------------------------
  // Write cells.

  function Children(p: Proj, parent: Sigil): set<Sigil> {
    set s | s in p.loci && s != parent
      && (parent in Related(p, s, PilotedBy) || parent in Related(p, s, AttachedTo))
  }

  function Lane(loci: set<Sigil>, lane: nat): set<Cell> { set s | s in loci :: (s, lane) }

  function SetOf(s: seq<Sigil>): set<Sigil> { set x | x in s }

  function WriteCells(p: Proposal, actor: Sigil, proj: Proj): set<Cell>
    requires !p.PhysIsland?
  {
    match p
    case SpaceDelta(m) => Lane({m.mover} + Children(proj, m.mover), 0)
    case MotionDelta(m) => Lane({m.mover} + Children(proj, m.mover), 0)
    case Residency(place, op, _, _, snap) =>
      Lane({place} + SetOf(snap.rows)
           + (if op.Evict? then set s | s in proj.loci && place in Related(proj, s, In) else {}), 0)
    case _ => {(actor, 1)}
  }

  // ---------------------------------------------------------------------------------------------
  // Speculation and laws.

  function Begin(live: Live): Spec { Spec(live.proj, [], {}, live.tick) }

  function MoveSpec(live: Live, m: Move): Option<Spec> {
    if m.mover !in live.proj.loci then None
    else
      Some(Write(Write(Begin(live), m.mover, live.proj.(pose := live.proj.pose[m.mover := m.pose])), m.mover,
                 live.proj.(pose := live.proj.pose[m.mover := m.pose],
                            island := live.proj.island[m.mover := (m.island, m.sleep)])))
  }

  function RequestOf(e: Entry): RiteDrive.Request {
    RiteDrive.Request(e.actor, e.target, e.verb, e.source, e.claimed)
  }

  /** The delta, or the rejection, and the budgets left. */
  function Speculate(r: Rules, p: Proposal, e: Entry, s: Ledger): RiteDrive.Driven
    requires !p.PhysIsland?
  {
    match p
    case SpaceDelta(m) => RiteDrive.Driven(FromOption(MoveSpec(s.live, m), Budget), s.riteSteps, s.predOps, [])
    case MotionDelta(m) => RiteDrive.Driven(FromOption(MoveSpec(s.live, m), Budget), s.riteSteps, s.predOps, [])
    case Residency(_, _, _, _, _) =>
      RiteDrive.Driven(FromOption(r.placed(s.live, p), ResidencyFault), s.riteSteps, s.predOps, [])
    case _ => RiteDrive.Drive(r.book, RequestOf(e), Begin(s.live), s.riteSteps, s.predOps)
  }

  function FromOption<T>(x: Option<T>, e: RejectReason): Result<T, RejectReason> {
    if x.Some? then Ok(x.value) else Err(e)
  }

  function LawCase(r: Rules, e: Entry, spec: Spec): Laws.Case {
    Laws.Case(r.book.canon.preds, r.packed(spec.proj),
              Ctx(StoreOf(spec.proj, r.book.canon), e.actor, e.target, r.book.canon.pinSigils, e.verb, e.source,
                  e.claimed, e.swept))
  }

  /** Publication replaces the projection and appends the events. */
  function Publish(live: Live, spec: Spec): Live {
    live.(proj := spec.proj, trace := live.trace + spec.events)
  }

  function Charge(s: Ledger, steps: nat, ops: nat): Ledger { s.(riteSteps := steps, predOps := ops) }

  function Accept(s: Ledger, cells: set<Cell>, spec: Spec): (Outcome, Ledger) {
    (Ok(Grant(cells, spec)), s.(live := Publish(s.live, spec), written := s.written + cells))
  }

  /** A proposal other than a physical island. */
  function AdmitGrain(r: Rules, b: Budgets, p: Proposal, s: Ledger): (Outcome, Ledger)
    requires !p.PhysIsland?
  {
    match Preflight(r, b, s.live, p)
    case Err(e) => (Err(e), s)
    case Ok(entry0) =>
      match Aim(r, b, s.live, p, entry0)
      case Err(e) => (Err(e), s)
      case Ok(entry) =>
        var cells := WriteCells(p, entry.actor, s.live.proj);
        if cells * s.written != {} then (Err(Conflict), s)
        else
          var d := Speculate(r, p, entry, s);
          match d.result
          case Err(e) => (Err(e), Charge(s, d.riteSteps, d.predOps))
          case Ok(spec) =>
            var (ok, left) := Laws.AdmitAll(LawCase(r, entry, spec), r.laws, d.predOps);
            if ok.Err? then (Err(ok.error), Charge(s, d.riteSteps, left))
            else Accept(Charge(s, d.riteSteps, left), cells, spec)
  }

  // ---------------------------------------------------------------------------------------------
  // Physical islands.

  function Movers(bodies: seq<Body>): (m: seq<Sigil>)
    ensures |m| == |bodies|
    ensures forall i :: 0 <= i < |bodies| ==> m[i] == bodies[i].mover
  {
    seq(|bodies|, i requires 0 <= i < |bodies| => bodies[i].mover)
  }

  predicate Attached(p: Proj, s: Sigil) { Related(p, s, PilotedBy) != [] || Related(p, s, AttachedTo) != [] }

  /** Header, membership and body checks. */
  function ValidatePhys(r: Rules, live: Live, p: Proposal): Option<RejectReason>
    requires p.PhysIsland?
  {
    if p.epoch != live.epoch || p.tick != live.tick then Some(EpochMismatch)
    else if |p.members| > Membership.MAX_PHYS_ISLAND_MEMBERS || |p.bodies| > MAX_PHYS_ISLAND_BODIES
         || |p.constraints| > MAX_PHYS_ISLAND_CONSTRAINTS then Some(IslandTooLarge)
    else if p.bodies == [] || !Increasing(Movers(p.bodies)) || !Increasing(p.constraints) then Some(WitnessMismatch)
    else if !Membership.MembersAccepted(live.proj.loci, live.proj.island, p.id, p.members) then Some(WitnessMismatch)
    else if exists m :: m in Movers(p.bodies) && (Attached(live.proj, m) || m !in p.members) then Some(WitnessMismatch)
    else r.vouch(live, p)
  }

  function AllChildren(proj: Proj, movers: seq<Sigil>): set<Sigil> {
    if movers == [] then {} else Children(proj, movers[0]) + AllChildren(proj, movers[1..])
  }

  /** A child is itself a body of the island, or belongs to two of its bodies. */
  predicate ChildClash(proj: Proj, movers: seq<Sigil>) {
    || (exists m, c :: m in movers && c in Children(proj, m) && c in movers)
    || (exists i, j, c :: 0 <= i < j < |movers| && c in Children(proj, movers[i]) && c in Children(proj, movers[j]))
  }

  /** Bodies and their children on lane 0, constraints on lane 1. */
  function PhysCells(proj: Proj, p: Proposal): Result<set<Cell>, RejectReason>
    requires p.PhysIsland?
  {
    var movers := Movers(p.bodies);
    var kids := AllChildren(proj, movers);
    if ChildClash(proj, movers) then Err(WitnessMismatch)
    else if |kids| > MAX_PHYS_ISLAND_CHILDREN
         || |movers| + |kids| + |p.constraints| > MAX_PHYS_ISLAND_WRITE_LOCI then Err(IslandTooLarge)
    else Ok(Lane(SetOf(movers) + kids, 0) + Lane(SetOf(p.constraints), 1))
  }

  function WindowCells(r: Rules, live: Live, p: Proposal): set<Cell>
    requires p.PhysIsland?
  {
    Lane(set m | m in Movers(p.bodies) && r.windowed(live, m), 1)
  }

  /** Every locus the delta wrote, on lane 1 too when a body carries a contact track. */
  function WrittenCells(r: Rules, live: Live, p: Proposal, spec: Spec): set<Cell>
    requires p.PhysIsland?
  {
    Lane(spec.written, 0)
    + if exists m :: m in Movers(p.bodies) && r.tracked(live, m) then Lane(spec.written, 1) else {}
  }

  /** The first contact of a body. */
  function ContactOf(contacts: seq<Contact>, actor: Sigil): Option<Contact> {
    if contacts == [] then None
    else if contacts[0].actor == actor then Some(contacts[0])
    else ContactOf(contacts[1..], actor)
  }

  /** What the laws are asked about a body: its move, and the use its contact makes of what it touches. */
  function BodyCase(r: Rules, mover: Sigil, posed: Posed, spec: Spec): Laws.BodyCase {
    var contact := ContactOf(posed.contacts, mover);
    Laws.BodyCase(
      LawCase(r, Entry(mover, None, VERB_MOVE, Phys, [], mover in posed.swept), spec),
      if contact.None? then Laws.Apart
      else if contact.value.channel.None? then Laws.NoChannel
      else
        var e := Entry(mover, Some(contact.value.target), VERB_USE, Player, [contact.value.channel.value], false);
        Laws.Touching(LawCase(r, e, spec)))
  }

  function BodyCases(r: Rules, bodies: seq<Body>, posed: Posed, spec: Spec): seq<Laws.BodyCase> {
    seq(|bodies|, i requires 0 <= i < |bodies| => BodyCase(r, bodies[i].mover, posed, spec))
  }

  /** `admit_phys_laws`. */
  function PhysLaws(r: Rules, bodies: seq<Body>, posed: Posed, spec: Spec, ops: nat): (Laws.Admission, nat) {
    var cases := BodyCases(r, bodies, posed, spec);
    Laws.PhysListed(0, |r.laws|, cases);
    Laws.AdmitDocket(r.laws, Laws.PhysDocket(0, |r.laws|, cases), ops)
  }

  function LociOf(cells: set<Cell>): set<Sigil> { set c | c in cells :: c.0 }

  function Spend(budget: nat, used: nat): nat { if used <= budget then budget - used else 0 }

  function AdmitPhys(r: Rules, p: Proposal, s: Ledger): (Outcome, Ledger)
    requires p.PhysIsland?
  {
    if ValidatePhys(r, s.live, p).Some? then (Err(ValidatePhys(r, s.live, p).value), s)
    else
      match PhysCells(s.live.proj, p)
      case Err(e) => (Err(e), s)
      case Ok(declared) =>
        if declared * s.written != {} then (Err(Conflict), s)
        else if r.contacts(s.live, p).Some? then (Err(r.contacts(s.live, p).value), s)
        else
          var cells := declared + WindowCells(r, s.live, p);
          if cells * s.written != {} then (Err(Conflict), s)
          else
            match r.solve(s.live, p)
            case Err(e) => (Err(e), s)
            case Ok(posed) => AdmitPosed(r, p, posed, cells, s)
  }

  /** From the speculative island on: windows, laws, and the cells of everything written. */
  function AdmitPosed(r: Rules, p: Proposal, posed: Posed, cells: set<Cell>, s: Ledger): (Outcome, Ledger)
    requires p.PhysIsland?
  {
    var d := r.windows(s.live, p, posed.spec, s.riteSteps, s.predOps);
    var steps, ops := Spend(s.riteSteps, d.steps), Spend(s.predOps, d.ops);
    match d.result
    case Err(e) => (Err(e), Charge(s, steps, ops))
    case Ok(spec) =>
      var (ok, left) := PhysLaws(r, p.bodies, posed, spec, ops);
      var charged := Charge(s, steps, left);
      if ok.Err? then (Err(ok.error), charged)
      else
        var all := cells + WrittenCells(r, s.live, p, spec);
        if |LociOf(all)| > MAX_PHYS_ISLAND_WRITE_LOCI then (Err(IslandTooLarge), charged)
        else if all * s.written != {} then (Err(Conflict), charged)
        else Accept(charged, all, spec)
  }

  /** `admit_one`. */
  function AdmitOne(r: Rules, b: Budgets, p: Proposal, s: Ledger): (Outcome, Ledger) {
    if p.PhysIsland? then AdmitPhys(r, p, s) else AdmitGrain(r, b, p, s)
  }

  // ---------------------------------------------------------------------------------------------
  // What one admission does to the ledger.

  /** A rejection leaves the world and the ledger as they were; an admission takes cells nobody had and
      publishes exactly its delta.  Op budgets only fall. */
  ghost predicate Settles(s: Ledger, o: Outcome, t: Ledger) {
    && t.riteSteps <= s.riteSteps && t.predOps <= s.predOps
    && (o.Err? ==> t.live == s.live && t.written == s.written)
    && (o.Ok? ==> o.value.cells !! s.written)
    && (o.Ok? ==> t.written == s.written + o.value.cells && t.live == Publish(s.live, o.value.spec))
  }

  lemma RefusalSettles(s: Ledger, e: RejectReason, steps: nat, ops: nat)
    requires steps <= s.riteSteps && ops <= s.predOps
    ensures Settles(s, Err(e), Charge(s, steps, ops)) && Settles(s, Err(e), s)
  {
  }

  lemma AcceptSettles(s: Ledger, steps: nat, ops: nat, cells: set<Cell>, spec: Spec)
    requires steps <= s.riteSteps && ops <= s.predOps && cells * s.written == {}
    ensures var (o, t) := Accept(Charge(s, steps, ops), cells, spec); Settles(s, o, t)
  {
    forall c | c in cells
      ensures c !in s.written
    {
      assert c !in cells * s.written;
    }
  }

  lemma PhysSettles(r: Rules, p: Proposal, s: Ledger)
    requires p.PhysIsland?
    ensures var (o, t) := AdmitPhys(r, p, s); Settles(s, o, t)
  {
    hide ValidatePhys, PhysCells, WindowCells, AdmitPosed, Settles, LociOf;
    forall e ensures Settles(s, Err(e), s) {
      RefusalSettles(s, e, 0, 0);
    }
    var declared := PhysCells(s.live.proj, p);
    var posed := r.solve(s.live, p);
    if declared.Ok? && posed.Ok? {
      PosedSettles(r, p, posed.value, declared.value + WindowCells(r, s.live, p), s);
    }
  }

  lemma PosedSettles(r: Rules, p: Proposal, posed: Posed, cells: set<Cell>, s: Ledger)
    requires p.PhysIsland?
    ensures var (o, t) := AdmitPosed(r, p, posed, cells, s); Settles(s, o, t)
  {
    hide PhysLaws, WrittenCells, LociOf, Accept, Charge, Settles;
    var d := r.windows(s.live, p, posed.spec, s.riteSteps, s.predOps);
    var steps, ops := Spend(s.riteSteps, d.steps), Spend(s.predOps, d.ops);
    forall e ensures Settles(s, Err(e), Charge(s, steps, ops)) {
      RefusalSettles(s, e, steps, ops);
    }
    if d.result.Ok? {
      var left := PhysLaws(r, p.bodies, posed, d.result.value, ops).1;
      PhysLawsBudget(r, p.bodies, posed, d.result.value, ops);
      forall e ensures Settles(s, Err(e), Charge(s, steps, left)) {
        RefusalSettles(s, e, steps, left);
      }
      var all := cells + WrittenCells(r, s.live, p, d.result.value);
      if all * s.written == {} {
        AcceptSettles(s, steps, left, all, d.result.value);
      }
    }
  }

  lemma PhysLawsBudget(r: Rules, bodies: seq<Body>, posed: Posed, spec: Spec, ops: nat)
    ensures PhysLaws(r, bodies, posed, spec, ops).1 <= ops
  {
    var cases := BodyCases(r, bodies, posed, spec);
    Laws.PhysListed(0, |r.laws|, cases);
    DocketBudget(r.laws, Laws.PhysDocket(0, |r.laws|, cases), ops);
    hide Laws.AdmitDocket, Laws.PhysDocket, BodyCases;
  }

  lemma {:induction false} DocketBudget(laws: seq<Laws.CookedLaw>, docket: seq<Laws.Hearing>, ops: nat)
    requires Laws.Listed(docket, |laws|)
    ensures Laws.AdmitDocket(laws, docket, ops).1 <= ops
    decreases |docket|
  {
    hide Laws.AdmitLaw;
    if docket != [] && docket[0].Heard? {
      LawBudget(docket[0].c, laws[docket[0].i], ops);
      DocketBudget(laws, docket[1..], Laws.AdmitLaw(docket[0].c, laws[docket[0].i], ops).1);
    }
  }

  lemma GrainSettles(r: Rules, b: Budgets, p: Proposal, s: Ledger)
    requires !p.PhysIsland?
    ensures var (o, t) := AdmitGrain(r, b, p, s); Settles(s, o, t)
  {
    hide Preflight, Aim, WriteCells, Speculate, Laws.AdmitAll, LawCase, Accept, Charge, Settles;
    forall e ensures Settles(s, Err(e), s) {
      RefusalSettles(s, e, 0, 0);
    }
    var pre := Preflight(r, b, s.live, p);
    if pre.Ok? {
      var aimed := Aim(r, b, s.live, p, pre.value);
      if aimed.Ok? {
        SpeculateBudgets(r, p, aimed.value, s);
        var d := Speculate(r, p, aimed.value, s);
        forall e ensures Settles(s, Err(e), Charge(s, d.riteSteps, d.predOps)) {
          RefusalSettles(s, e, d.riteSteps, d.predOps);
        }
        if d.result.Ok? {
          LawsBudget(LawCase(r, aimed.value, d.result.value), r.laws, d.predOps);
          var left := Laws.AdmitAll(LawCase(r, aimed.value, d.result.value), r.laws, d.predOps).1;
          forall e ensures Settles(s, Err(e), Charge(s, d.riteSteps, left)) {
            RefusalSettles(s, e, d.riteSteps, left);
          }
          var cells := WriteCells(p, aimed.value.actor, s.live.proj);
          if cells * s.written == {} {
            AcceptSettles(s, d.riteSteps, left, cells, d.result.value);
          }
        }
      }
    }
  }

  lemma AdmitOneSettles(r: Rules, b: Budgets, p: Proposal, s: Ledger)
    ensures var (o, t) := AdmitOne(r, b, p, s); Settles(s, o, t)
  {
    hide AdmitPhys, AdmitGrain, Settles;
    if p.PhysIsland? {
      PhysSettles(r, p, s);
    } else {
      GrainSettles(r, b, p, s);
    }
  }

  lemma SpeculateBudgets(r: Rules, p: Proposal, e: Entry, s: Ledger)
    requires !p.PhysIsland?
    ensures var d := Speculate(r, p, e, s); d.riteSteps <= s.riteSteps && d.predOps <= s.predOps
  {
    hide MoveSpec, RiteVm.Burst, RiteDrive.PlanOf, RiteDrive.ApplyHit;
    if !p.SpaceDelta? && !p.MotionDelta? && !p.Residency? {
      var b, q := r.book, RequestOf(e);
      var plan := RiteDrive.PlanOf(b, q, Begin(s.live));
      if plan.Go? && plan.rite < |b.rites| {
        var rite := b.rites[plan.rite];
        BurstBudget(RiteDrive.CallOf(b, q, rite), plan.pc, plan.target, plan.spec, Min(rite.capSteps, s.riteSteps),
                    s.predOps);
        var first := RiteDrive.Ran(RiteDrive.PlanBurst(b, q, plan, s.riteSteps, s.predOps), s.riteSteps);
        if first.result.Ok? {
          HitBudget(b, q, plan.target, first.result.value, first.riteSteps, first.predOps);
        }
      }
    }
  }

  lemma HitBudget(b: RiteDrive.Book, q: RiteDrive.Request, target: Option<Sigil>, spec: Spec, steps: nat, ops: nat)
    ensures var d := RiteDrive.ApplyHit(b, q, target, spec, steps, ops); d.riteSteps <= steps && d.predOps <= ops
  {
    hide RiteDrive.FollowUp, RiteDrive.MayCollapse, RiteDrive.Collapses, RiteDrive.Victim, RiteDrive.Emits;
    if target.Some? && RiteDrive.Emits(spec.events) {
      var victim := RiteDrive.Victim(spec, target.value);
      var hit := RiteDrive.FollowUp(b, q, victim, RiteDrive.APPLY_HIT, spec, steps, ops);
      FollowUpBudget(b, q, victim, RiteDrive.APPLY_HIT, spec, steps, ops);
      if hit.result.Ok? {
        FollowUpBudget(b, q, victim, RiteDrive.COLLAPSE, hit.result.value, hit.riteSteps, hit.predOps);
      }
    }
  }

  lemma FollowUpBudget(b: RiteDrive.Book, q: RiteDrive.Request, victim: Sigil, name: Name, spec: Spec, steps: nat, ops: nat)
    ensures var d := RiteDrive.FollowUp(b, q, victim, name, spec, steps, ops); d.riteSteps <= steps && d.predOps <= ops
  {
    hide RiteVm.Burst;
    var id := RiteDrive.NamedRite(b, name);
    if id.Some? {
      var rite := b.rites[id.value];
      BurstBudget(RiteDrive.CallOf(b, q.(actor := victim), rite), rite.entry, Some(victim),
                  Push(spec, RiteBegan(victim, id.value, Some(victim))), Min(rite.capSteps, steps), ops);
    }
  }

  lemma {:induction false} BurstBudget(c: RiteVm.Call, pc: nat, target: Option<Sigil>, spec: Spec, fuel: nat, predOps: nat)
    ensures RiteVm.Burst(c, pc, target, spec, fuel, predOps).predOps <= predOps
    decreases fuel
  {
    hide RiteVm.Exec, RiteVm.Finish;
    if fuel > 0 && Rites.OpAt(c.rite.instrs, pc).Some? {
      var op, next := Rites.OpAt(c.rite.instrs, pc).value, Rites.NextPc(Rites.Pcs(c.rite.instrs), pc);
      var (r, left) := RiteVm.Exec(c, op, pc, next, target, spec, predOps);
      ExecBudget(c, op, pc, next, target, spec, predOps);
      if r.Goto? {
        BurstBudget(c, r.pc, r.target, r.spec, fuel - 1, left);
      }
    }
  }

  lemma ExecBudget(c: RiteVm.Call, op: Rites.RiteOp, pc: nat, next: Option<nat>, target: Option<Sigil>, spec: Spec,
                   predOps: nat)
    ensures RiteVm.Exec(c, op, pc, next, target, spec, predOps).1 <= predOps
  {
    hide RiteVm.ExecWait, RiteVm.ExecBind, RiteVm.ExecSpawn, RiteVm.ExecSpend, RiteVm.ExecSetq, RiteVm.ExecRel,
         RiteVm.ExecAwake, RiteVm.ExecPhysReq, RiteVm.Decide, RiteVm.Finish, RiteVm.Onward, Push, RiteVm.CtxOf,
         Eval.RunOps;
  }

  lemma {:induction false} LawsBudget(c: Laws.Case, laws: seq<Laws.CookedLaw>, ops: nat)
    ensures Laws.AdmitAll(c, laws, ops).1 <= ops
    decreases |laws|
  {
    hide Laws.AdmitLaw;
    if laws != [] {
      LawBudget(c, laws[0], ops);
      LawsBudget(c, laws[1..], Laws.AdmitLaw(c, laws[0], ops).1);
    }
  }

  lemma RowBudget(c: Laws.Case, ix: nat, ctx: Ctx, ops: nat)
    ensures Laws.EvalRow(c, ix, ctx, ops).1 <= ops
  {
    hide Eval.RunOps;
  }

  lemma LawBudget(c: Laws.Case, law: Laws.CookedLaw, ops: nat)
    ensures Laws.AdmitLaw(c, law, ops).1 <= ops
  {
    hide Laws.EvalRow, Laws.CapCount, Laws.ConserveHolds;
    RowBudget(c, law.when, c.ctx, ops);
    var left := Laws.EvalRow(c, law.when, c.ctx, ops).1;
    if law.body.CookedPred? {
      RowBudget(c, law.body.must, c.ctx, left);
    } else if law.body.CookedCap? {
      CountBudget(c, c.loci, law.body.mark, law.body.require, 0, left);
    }
  }

  lemma {:induction false} CountBudget(c: Laws.Case, loci: seq<Sigil>, mark: nat, require: Option<(Rel, CookedSlot)>,
                                       n: nat, ops: nat)
    ensures Laws.CapCount(c, loci, mark, require, n, ops).1 <= ops
    decreases |loci|
  {
    hide Laws.EvalRow, Laws.Counts;
    if loci != [] {
      var (v, left) := Laws.EvalRow(c, mark, Laws.MarkCtx(c.ctx, loci[0]), ops);
      RowBudget(c, mark, Laws.MarkCtx(c.ctx, loci[0]), ops);
      if !Laws.Counts(c, loci[0], require) {
        CountBudget(c, loci[1..], mark, require, n, ops);
      } else if v.Ok? {
        CountBudget(c, loci[1..], mark, require, if v.value then Laws.AddU16(n) else n, left);
      }
    }
  }
}
