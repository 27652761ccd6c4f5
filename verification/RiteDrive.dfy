/** Starting and resuming rites. */
module RiteDrive {
  // The machine rows a projection holds always lead back into their code.

  import opened Prelude
  import opened Pred
  import opened Rites
  import opened World
  import opened RiteVm
  import opened RiteSafety
  import opened Sorting
  import opened Distinct

  /** The rite table, and the rules that choose a rite to start. */
  datatype Book = Book(
    canon: Canon,
    rites: seq<CookedRite>,
    pick: (Proj, Verb, Option<Sigil>) -> Option<nat>,
    hasCharacter: Sigil -> bool)

  datatype Request = Request(
    actor: Sigil,
    target: Option<Sigil>,
    verb: Verb,
    source: SourceKind,
    claimed: seq<Channel>)

  /** Ids of the actor's machine rows. */
  function RowIds(p: Proj, actor: Sigil): set<nat> {
    set k | k in p.rites && k.0 == actor :: k.1
  }

  /** The actor's active rite with the lowest id. */
  function FirstRite(p: Proj, actor: Sigil): (id: Option<nat>)
    ensures id.Some? ==> RiteRow(p, actor, id.value).Some?
    ensures id.Some? ==> forall k :: k in p.rites && k.0 == actor ==> id.value <= k.1
    ensures id.None? ==> forall k :: RiteRow(p, actor, k).None?
  {
    if actor !in p.loci then None
    else if RowIds(p, actor) == {} then
      assert forall k :: (actor, k) in p.rites ==> k in RowIds(p, actor);
      None
    else
      LeastExists(RowIds(p, actor));
      var m :| Least(RowIds(p, actor), m);
      assert forall k :: k in p.rites && k.0 == actor ==> k.1 in RowIds(p, actor);
      Some(m)
  }

  function CallOf(b: Book, r: Request, rite: CookedRite): Call {
    Call(b.canon, rite, r.actor, r.verb, r.source, r.claimed)
  }

  const VERB_FIRE: Verb := 6
  const MELEE: Name := "melee"
  const APPLY_HIT: Name := "apply_hit"
  const COLLAPSE: Name := "collapse"
  const DESTRUCTIBLE: Name := "Destructible"
  const INTEGRITY: Name := "integrity"

  /** What a request does: nothing, a refusal, or a burst from some pc, which may be a hit. */
  datatype Plan = Idle | Refused(reason: RejectReason)
                | Go(rite: nat, pc: Pc, target: Option<Sigil>, spec: Spec, hit: bool)

  function PlanResume(b: Book, r: Request, id: nat, row: Machine, spec: Spec): Plan {
    if id < |b.rites| && Tracked(CallOf(b, r, b.rites[id])) then Refused(UnclaimedAgency)
    else if row.waitCh.Some? && r.source != Player then Refused(UnclaimedAgency)
    else if id >= |b.rites| then Refused(Budget)
    else Go(id, row.pc, if row.target.Some? then row.target else r.target, spec, b.rites[id].name == MELEE)
  }

  function PlanStart(b: Book, r: Request, spec: Spec): Plan {
    match b.pick(spec.proj, r.verb, r.target)
    case None => Idle
    case Some(id) =>
      if id >= |b.rites| then Idle
      else if Tracked(CallOf(b, r, b.rites[id])) && !b.hasCharacter(r.actor) then Refused(WrongHull)
      else
        Go(id, b.rites[id].entry, r.target, Push(spec, RiteBegan(r.actor, id, r.target)),
           r.verb == VERB_FIRE || (b.rites[id].name == MELEE && r.actor !in b.canon.tracks))
  }

  function PlanOf(b: Book, r: Request, spec: Spec): Plan {
    var first := FirstRite(spec.proj, r.actor);
    if first.Some? then PlanResume(b, r, first.value, RiteRow(spec.proj, r.actor, first.value).value, spec)
    else PlanStart(b, r, spec)
  }

  /** The delta a request leaves, or why it is rejected, and the bursts it ran. */
  datatype Driven = Driven(result: Result<Spec, RejectReason>, riteSteps: nat, predOps: nat, bursts: seq<Outcome>)

  function Ran(o: Outcome, riteSteps: nat): Driven {
    Driven(if o.end.Rejected? then Err(Reason(o.end.cause)) else Ok(o.spec),
           if |o.trace| <= riteSteps then riteSteps - |o.trace| else 0, o.predOps, [o])
  }

  function Then(first: Driven, next: Driven): Driven { next.(bursts := first.bursts + next.bursts) }

  function PlanBurst(b: Book, r: Request, plan: Plan, riteSteps: nat, predOps: nat): Outcome
    requires plan.Go? && plan.rite < |b.rites|
  {
    Burst(CallOf(b, r, b.rites[plan.rite]), plan.pc, plan.target, plan.spec,
          Min(b.rites[plan.rite].capSteps, riteSteps), predOps)
  }

  function Drive(b: Book, r: Request, spec: Spec, riteSteps: nat, predOps: nat): Driven {
    match PlanOf(b, r, spec)
    case Idle => Driven(Ok(spec), riteSteps, predOps, [])
    case Refused(reason) => Driven(Err(reason), riteSteps, predOps, [])
    case Go(id, pc, target, began, hit) =>
      if id >= |b.rites| then Driven(Err(Budget), riteSteps, predOps, [])
      else
        var first := Ran(PlanBurst(b, r, Go(id, pc, target, began, hit), riteSteps, predOps), riteSteps);
        if first.result.Err? || !hit then first
        else Then(first, ApplyHit(b, r, target, first.result.value, first.riteSteps, first.predOps))
  }

  // ---------------------------------------------------------------------------------------------
  // What a hit sets off.

  function RiteNames(rites: seq<CookedRite>): (names: seq<Name>)
    ensures |names| == |rites| && forall i :: 0 <= i < |rites| ==> names[i] == rites[i].name
  {
    seq(|rites|, i requires 0 <= i < |rites| => rites[i].name)
  }

  /** `named_rite`. */
  function NamedRite(b: Book, name: Name): (id: Option<nat>)
    ensures id.Some? ==> id.value < |b.rites| && b.rites[id.value].name == name
  {
    Position(RiteNames(b.rites), name)
  }

  /** The first whole a part belongs to, other than itself. */
  function FirstOther(neigh: seq<Sigil>, s: Sigil): Option<Sigil> {
    if neigh == [] then None else if neigh[0] != s then Some(neigh[0]) else FirstOther(neigh[1..], s)
  }

  function Victim(spec: Spec, s: Sigil): Sigil {
    var whole := FirstOther(Related(spec.proj, s, PartOf), s);
    if whole.Some? then whole.value else s
  }

  predicate IsDestructible(b: Book, spec: Spec, victim: Sigil) {
    DESTRUCTIBLE in b.canon.affordances
    && StoreOf(spec.proj, b.canon).hasAffordance(victim, b.canon.affordances[DESTRUCTIBLE])
  }

  predicate MayCollapse(b: Book, spec: Spec, victim: Sigil) {
    IsDestructible(b, spec, victim) && Related(spec.proj, victim, PartOf) != []
  }

  predicate Collapses(b: Book, spec: Spec, victim: Sigil) {
    && IsDestructible(b, spec, victim)
    && INTEGRITY in b.canon.resources && StoreOf(spec.proj, b.canon).qty(victim, b.canon.resources[INTEGRITY]) <= 0
  }

  predicate Emits(events: seq<Event>) { exists e :: e in events && e.Emitted? }

  /** The victim begins rite `id` on itself; a row it had for that rite is replaced. */
  function VictimBurst(b: Book, r: Request, victim: Sigil, id: nat, spec: Spec, riteSteps: nat, predOps: nat): Outcome
    requires id < |b.rites|
  {
    Burst(CallOf(b, r.(actor := victim), b.rites[id]), b.rites[id].entry, Some(victim),
          Push(spec, RiteBegan(victim, id, Some(victim))), Min(b.rites[id].capSteps, riteSteps), predOps)
  }

  /** A follow-up rite, if the book has one of that name. */
  function FollowUp(b: Book, r: Request, victim: Sigil, name: Name, spec: Spec, riteSteps: nat, predOps: nat): Driven {
    match NamedRite(b, name)
    case None => Driven(Ok(spec), riteSteps, predOps, [])
    case Some(id) => Ran(VictimBurst(b, r, victim, id, spec, riteSteps, predOps), riteSteps)
  }

  /** `drive_apply_hit` and `drive_collapse`: only after something was emitted; whether the victim is part of a
      whole is looked at before the hit takes it apart. */
  function ApplyHit(b: Book, r: Request, target: Option<Sigil>, spec: Spec, riteSteps: nat, predOps: nat): Driven {
    if target.None? || !Emits(spec.events) then Driven(Ok(spec), riteSteps, predOps, [])
    else
      var victim := Victim(spec, target.value);
      var hit := FollowUp(b, r, victim, APPLY_HIT, spec, riteSteps, predOps);
      if hit.result.Err? || !MayCollapse(b, spec, victim) || !Collapses(b, hit.result.value, victim) then hit
      else Then(hit, FollowUp(b, r, victim, COLLAPSE, hit.result.value, hit.riteSteps, hit.predOps))
  }

  // ---------------------------------------------------------------------------------------------
  // The driver as it runs.

  ghost predicate DroveTo(d: Driven, result: Result<(), RejectReason>, spec: Spec, riteSteps: nat, predOps: nat) {
    && riteSteps == d.riteSteps && predOps == d.predOps
    && (result.Ok? <==> d.result.Ok?)
    && (result.Ok? ==> spec == d.result.value)
    && (result.Err? ==> result.error == d.result.error)
  }

  /** One follow-up burst. */
  method DriveFollowUp(b: Book, r: Request, victim: Sigil, name: Name, spec: SpecDelta, riteSteps0: nat, predOps0: nat)
    returns (result: Result<(), RejectReason>, riteSteps: nat, predOps: nat)
    modifies spec
    ensures DroveTo(FollowUp(b, r, victim, name, old(spec.View()), riteSteps0, predOps0), result, spec.View(), riteSteps,
                    predOps)
  {
    hide Burst, Push;
    riteSteps, predOps := riteSteps0, predOps0;
    var id := NamedRite(b, name);
    if id.None? {
      return Ok(()), riteSteps, predOps;
    }
    var rite := b.rites[id.value];
    spec.PushEvent(RiteBegan(victim, id.value, Some(victim)));
    var c := CallOf(b, r.(actor := victim), rite);
    TraceWithin(c, rite.entry, Some(victim), spec.View(), Min(rite.capSteps, riteSteps), predOps);
    var kind;
    kind, riteSteps, predOps := RunBurst(c, spec, Some(victim), rite.entry, riteSteps, predOps);
    result := if kind.Err? then Err(kind.error) else Ok(());
  }

  /** `drive_apply_hit`. */
  method DriveHit(b: Book, r: Request, target: Option<Sigil>, spec: SpecDelta, riteSteps0: nat, predOps0: nat)
    returns (result: Result<(), RejectReason>, riteSteps: nat, predOps: nat)
    modifies spec
    ensures DroveTo(ApplyHit(b, r, target, old(spec.View()), riteSteps0, predOps0), result, spec.View(), riteSteps, predOps)
  {
    hide FollowUp, MayCollapse, Collapses, Victim;
    riteSteps, predOps := riteSteps0, predOps0;
    if target.None? || !Emits(spec.events) {
      return Ok(()), riteSteps, predOps;
    }
    var now := Spec(spec.proj, spec.events, spec.written, spec.tick);
    var victim := Victim(now, target.value);
    var collapse := MayCollapse(b, now, victim);
    result, riteSteps, predOps := DriveFollowUp(b, r, victim, APPLY_HIT, spec, riteSteps, predOps);
    if result.Err? || !collapse {
      return;
    }
    if Collapses(b, Spec(spec.proj, spec.events, spec.written, spec.tick), victim) {
      result, riteSteps, predOps := DriveFollowUp(b, r, victim, COLLAPSE, spec, riteSteps, predOps);
    }
  }

  /** The plan and its own burst. */
  method DrivePlan(b: Book, r: Request, spec: SpecDelta, riteSteps0: nat, predOps0: nat)
    returns (result: Result<(), RejectReason>, target: Option<Sigil>, hit: bool, riteSteps: nat, predOps: nat)
    modifies spec
    ensures var plan := PlanOf(b, r, old(spec.View()));
      && (plan.Idle? ==>
            result == Ok(()) && !hit && spec.View() == old(spec.View()) && riteSteps == riteSteps0 && predOps == predOps0)
      && (plan.Refused? ==> result == Err(plan.reason) && riteSteps == riteSteps0 && predOps == predOps0)
      && (plan.Go? ==> plan.rite < |b.rites| && target == plan.target && hit == plan.hit)
      && (plan.Go? ==>
            DroveTo(Ran(PlanBurst(b, r, plan, riteSteps0, predOps0), riteSteps0), result, spec.View(), riteSteps, predOps))
  {
    hide Burst, Push;
    riteSteps, predOps, target, hit := riteSteps0, predOps0, None, false;
    ghost var before := spec.View();
    var first := FirstRite(spec.proj, r.actor);
    var id, pc;
    if first.Some? {
      var row := RiteRow(spec.proj, r.actor, first.value).value;
      id := first.value;
      if id < |b.rites| && Tracked(CallOf(b, r, b.rites[id])) {
        return Err(UnclaimedAgency), target, hit, riteSteps, predOps;
      }
      if row.waitCh.Some? && r.source != Player {
        return Err(UnclaimedAgency), target, hit, riteSteps, predOps;
      }
      if id >= |b.rites| {
        return Err(Budget), target, hit, riteSteps, predOps;
      }
      pc, target := row.pc, if row.target.Some? then row.target else r.target;
      hit := b.rites[id].name == MELEE;
    } else {
      var picked := b.pick(spec.proj, r.verb, r.target);
      if picked.None? || picked.value >= |b.rites| {
        return Ok(()), target, hit, riteSteps, predOps;
      }
      id := picked.value;
      if Tracked(CallOf(b, r, b.rites[id])) && !b.hasCharacter(r.actor) {
        return Err(WrongHull), target, hit, riteSteps, predOps;
      }
      spec.PushEvent(RiteBegan(r.actor, id, r.target));
      pc, target := b.rites[id].entry, r.target;
      hit := r.verb == VERB_FIRE || (b.rites[id].name == MELEE && r.actor !in b.canon.tracks);
    }
    assert PlanOf(b, r, before) == Go(id, pc, target, spec.View(), hit);
    TraceWithin(CallOf(b, r, b.rites[id]), pc, target, spec.View(), Min(b.rites[id].capSteps, riteSteps), predOps);
    var kind;
    kind, riteSteps, predOps := RunBurst(CallOf(b, r, b.rites[id]), spec, target, pc, riteSteps, predOps);
    result := if kind.Err? then Err(kind.error) else Ok(());
  }

  /** `drive_rite`. */
  method DriveRite(b: Book, r: Request, spec: SpecDelta, riteSteps0: nat, predOps0: nat)
    returns (result: Result<(), RejectReason>, riteSteps: nat, predOps: nat)
    modifies spec
    ensures DroveTo(Drive(b, r, old(spec.View()), riteSteps0, predOps0), result, spec.View(), riteSteps, predOps)
  {
    hide PlanOf, PlanBurst, ApplyHit;
    var target, hit;
    result, target, hit, riteSteps, predOps := DrivePlan(b, r, spec, riteSteps0, predOps0);
    if result.Ok? && hit {
      result, riteSteps, predOps := DriveHit(b, r, target, spec, riteSteps, predOps);
    }
  }

  lemma {:induction false} TraceWithin(c: Call, pc: Pc, target: Option<Sigil>, spec: Spec, fuel: nat, predOps: nat)
    ensures |Burst(c, pc, target, spec, fuel, predOps).trace| <= fuel
    decreases fuel
  {
    hide Exec, OpAt, NextPc, Finish;
    if fuel > 0 && OpAt(c.rite.instrs, pc).Some? {
      var op, next := OpAt(c.rite.instrs, pc).value, NextPc(Pcs(c.rite.instrs), pc);
      var (r, left) := Exec(c, op, pc, next, target, spec, predOps);
      if r.Goto? {
        TraceWithin(c, r.pc, r.target, r.spec, fuel - 1, left);
      }
    }
  }

  // ---------------------------------------------------------------------------------------------
  // The invariant of machine rows.

  /** Rites sit at their ids and passed the control-flow check. */
  ghost predicate Checked(b: Book) {
    forall i :: 0 <= i < |b.rites| ==> b.rites[i].id == i && Sound(b.rites[i].entry, b.rites[i].instrs)
  }

  ghost predicate RowOk(b: Book, p: Proj, actor: Sigil, id: nat) {
    (actor, id) in p.rites ==>
      actor in p.loci && id < |b.rites| && p.rites[(actor, id)].pc in Pcs(b.rites[id].instrs)
  }

  /** Every machine row is a locus's and resumes at an instruction of its rite. */
  ghost predicate RowsOk(b: Book, p: Proj) {
    forall actor: Sigil, id: nat :: RowOk(b, p, actor, id)
  }

  /** The same for all rows but one. */
  ghost predicate OthersOk(b: Book, p: Proj, actor0: Sigil, id0: nat) {
    forall actor: Sigil, id: nat :: (actor, id) != (actor0, id0) ==> RowOk(b, p, actor, id)
  }

  /** A locus that does not exist has no row. */
  ghost predicate Housed(c: Call, p: Proj) { (c.actor, c.rite.id) in p.rites ==> c.actor in p.loci }

  lemma OthersKept(b: Book, c: Call, x: Spec, y: Spec)
    requires Keeps(c, x, y) && OthersOk(b, x.proj, c.actor, c.rite.id) && Housed(c, x.proj)
    ensures OthersOk(b, y.proj, c.actor, c.rite.id) && Housed(c, y.proj)
  {
    forall actor: Sigil, id: nat | (actor, id) != (c.actor, c.rite.id)
      ensures RowOk(b, y.proj, actor, id)
    {
      assert RowOk(b, x.proj, actor, id);
    }
  }

  /** The caller's row joins the others. */
  lemma OwnRow(b: Book, c: Call, p: Proj)
    requires OthersOk(b, p, c.actor, c.rite.id) && RowOk(b, p, c.actor, c.rite.id)
    ensures RowsOk(b, p)
  {
    forall actor: Sigil, id: nat
      ensures RowOk(b, p, actor, id)
    {
      if (actor, id) != (c.actor, c.rite.id) {
        assert RowOk(b, p, actor, id);
      }
    }
  }

  /** The end of a rite takes the row with it. */
  lemma FinishRows(b: Book, c: Call, status: RiteEnd, spec: Spec)
    requires OthersOk(b, spec.proj, c.actor, c.rite.id) && Housed(c, spec.proj)
    ensures RowsOk(b, Finish(c, status, spec).proj)
  {
    var after := Finish(c, status, spec);
    KeepsPush(c, spec, RiteEnded(c.actor, c.rite.id, status));
    OthersKept(b, c, spec, after);
    assert (c.actor, c.rite.id) !in after.proj.rites;
    hide Finish, OthersOk;
    OwnRow(b, c, after.proj);
  }

  lemma EndedIsFinish(c: Call, op: RiteOp, pc: Pc, next: Option<Pc>, target: Option<Sigil>, spec: Spec, predOps: nat)
    requires Exec(c, op, pc, next, target, spec, predOps).0.Ended?
    ensures Exec(c, op, pc, next, target, spec, predOps).0.spec == Finish(c, StatusEnd(op.status), spec)
  {
    ExecFlow(c, op, pc, next, target, spec, predOps);
    hide Finish;
  }

  /** A wait leaves a row that resumes inside the rite, or none. */
  lemma WaitRows(b: Book, c: Call, op: RiteOp, pc: Pc, next: Pc, target: Option<Sigil>, spec: Spec, predOps: nat)
    requires c.rite.id < |b.rites| && c.rite == b.rites[c.rite.id] && next in Pcs(c.rite.instrs)
    requires OthersOk(b, spec.proj, c.actor, c.rite.id) && Housed(c, spec.proj)
    requires op.Wait? && Exec(c, op, pc, Some(next), target, spec, predOps).0.Yielded?
    ensures RowsOk(b, Exec(c, op, pc, Some(next), target, spec, predOps).0.spec.proj)
  {
    var after := Exec(c, op, pc, Some(next), target, spec, predOps).0.spec;
    ExecKeeps(c, op, pc, Some(next), target, spec, predOps);
    WaitLoci(c, op, pc, Some(next), target, spec, predOps);
    if c.actor in spec.proj.loci {
      WaitRow(c, op, pc, Some(next), target, spec, predOps);
    }
    OthersKept(b, c, spec, after);
    hide Exec, OthersOk, Keeps;
    OwnRow(b, c, after.proj);
  }

  lemma OthersAll(b: Book, p: Proj, actor: Sigil, id: nat)
    requires RowsOk(b, p)
    ensures OthersOk(b, p, actor, id)
  {
    forall a: Sigil, i: nat
      ensures RowOk(b, p, a, i)
    {
    }
  }

  lemma BeganOthers(b: Book, c: Call, p: Proj, target: Option<Sigil>, tick: Tick)
    requires RowsOk(b, p)
    ensures var q := ApplyEvent(p, RiteBegan(c.actor, c.rite.id, target), tick);
      OthersOk(b, q, c.actor, c.rite.id) && Housed(c, q)
  {
    var q := ApplyEvent(p, RiteBegan(c.actor, c.rite.id, target), tick);
    assert RowOk(b, p, c.actor, c.rite.id);
    forall a: Sigil, i: nat | (a, i) != (c.actor, c.rite.id)
      ensures RowOk(b, q, a, i)
    {
      assert RowOk(b, p, a, i);
    }
  }

  /** Where a plan starts is an instruction of its rite. */
  lemma PlanInside(b: Book, r: Request, spec: Spec)
    requires Checked(b) && RowsOk(b, spec.proj)
    ensures var plan := PlanOf(b, r, spec);
      plan.Go? ==>
        && plan.rite < |b.rites| && plan.pc in Pcs(b.rites[plan.rite].instrs)
        && OthersOk(b, plan.spec.proj, r.actor, plan.rite)
        && Housed(CallOf(b, r, b.rites[plan.rite]), plan.spec.proj)
  {
    var plan := PlanOf(b, r, spec);
    var first := FirstRite(spec.proj, r.actor);
    if plan.Go? && first.Some? {
      assert RowOk(b, spec.proj, r.actor, first.value);
      hide FirstRite, Pcs, ApplyEvent, OthersOk, RowsOk;
      OthersAll(b, spec.proj, r.actor, first.value);
    } else if plan.Go? {
      var rite := b.rites[plan.rite];
      assert rite.id == plan.rite && Sound(rite.entry, rite.instrs);
      BeganOthers(b, CallOf(b, r, rite), spec.proj, r.target, spec.tick);
      hide FirstRite, Pcs, ApplyEvent, OthersOk, Housed, RowsOk, Checked;
    }
  }

  /** One instruction of a checked rite. */
  lemma StepRows(b: Book, c: Call, pc: Pc, target: Option<Sigil>, spec: Spec, predOps: nat)
    requires c.rite.id < |b.rites| && c.rite == b.rites[c.rite.id] && pc in Pcs(c.rite.instrs)
    requires NoDuplicates(Pcs(c.rite.instrs)) && Lands(c.rite.instrs)
    requires OthersOk(b, spec.proj, c.actor, c.rite.id) && Housed(c, spec.proj)
    ensures OpAt(c.rite.instrs, pc).Some?
    ensures var op, next := OpAt(c.rite.instrs, pc).value, NextPc(Pcs(c.rite.instrs), pc);
      var r := Exec(c, op, pc, next, target, spec, predOps).0;
      && (r.Goto? ==>
            r.pc in Pcs(c.rite.instrs) && OthersOk(b, r.spec.proj, c.actor, c.rite.id) && Housed(c, r.spec.proj))
      && (r.Yielded? || r.Ended? ==> RowsOk(b, r.spec.proj))
      && r != Failed(NoInstr) && r != Failed(NoNext)
  {
    hide Exec, OpAt, NextPc, Finish, Flow, Lands, Pcs, OthersOk, RowsOk, Housed, Keeps, Jumps, FallsThrough;
    StepFlow(c.rite.instrs, pc);
    var op, next := OpAt(c.rite.instrs, pc).value, NextPc(Pcs(c.rite.instrs), pc);
    var r := Exec(c, op, pc, next, target, spec, predOps).0;
    ExecFlow(c, op, pc, next, target, spec, predOps);
    ExecKeeps(c, op, pc, next, target, spec, predOps);
    if r.Goto? {
      OthersKept(b, c, spec, r.spec);
    } else if r.Yielded? {
      WaitFalls(op, next);
      WaitRows(b, c, op, pc, next.value, target, spec, predOps);
    } else if r.Ended? {
      EndedIsFinish(c, op, pc, next, target, spec, predOps);
      FinishRows(b, c, StatusEnd(op.status), spec);
    }
  }

  /** A burst of a checked rite, whoever calls it: it is never lost for an instruction or a successor, and
      each row it leaves, the caller's and all others, resumes inside its own rite. */
  lemma {:induction false} BurstKeepsRows(b: Book, c: Call, pc: Pc, target: Option<Sigil>, spec: Spec, fuel: nat,
                                          predOps: nat)
    requires c.rite.id < |b.rites| && c.rite == b.rites[c.rite.id] && pc in Pcs(c.rite.instrs)
    requires NoDuplicates(Pcs(c.rite.instrs)) && Lands(c.rite.instrs)
    requires OthersOk(b, spec.proj, c.actor, c.rite.id) && Housed(c, spec.proj)
    ensures var o := Burst(c, pc, target, spec, fuel, predOps);
      && o.end != Rejected(NoInstr) && o.end != Rejected(NoNext)
      && (!o.end.Rejected? ==> RowsOk(b, o.spec.proj))
    decreases fuel
  {
    hide Exec, OpAt, NextPc, Finish, Lands, Pcs, OthersOk, RowsOk, Housed;
    if fuel == 0 {
      FinishRows(b, c, FailBudget, spec);
    } else {
      StepRows(b, c, pc, target, spec, predOps);
      var op, next := OpAt(c.rite.instrs, pc).value, NextPc(Pcs(c.rite.instrs), pc);
      var (r, left) := Exec(c, op, pc, next, target, spec, predOps);
      if r.Goto? {
        BurstKeepsRows(b, c, r.pc, r.target, r.spec, fuel - 1, left);
      }
    }
  }

  /** The burst never looked for an instruction or a successor that is not there. */
  predicate Found(o: Outcome) { o.end != Rejected(NoInstr) && o.end != Rejected(NoNext) }

  /** A driven request left every row in its rite and ran no burst that got lost. */
  ghost predicate Safe(b: Book, d: Driven) {
    (forall i :: 0 <= i < |d.bursts| ==> Found(d.bursts[i])) && (d.result.Ok? ==> RowsOk(b, d.result.value.proj))
  }

  lemma ThenSafe(b: Book, first: Driven, next: Driven)
    requires Safe(b, first) && Safe(b, next)
    ensures Safe(b, Then(first, next))
  {
    hide RowsOk;
  }

  lemma RanSafe(b: Book, o: Outcome, riteSteps: nat)
    requires Found(o) && (!o.end.Rejected? ==> RowsOk(b, o.spec.proj))
    ensures Safe(b, Ran(o, riteSteps))
  {
    hide RowsOk;
  }

  lemma RiteSound(b: Book, id: nat)
    requires Checked(b) && id < |b.rites|
    ensures var rite := b.rites[id];
      rite.id == id && rite.entry in Pcs(rite.instrs) && NoDuplicates(Pcs(rite.instrs)) && Lands(rite.instrs)
  {
    assert Sound(b.rites[id].entry, b.rites[id].instrs);
    hide Pcs, Lands, Flow;
  }

  lemma BeganOthersNow(b: Book, c: Call, spec: Spec, target: Option<Sigil>)
    requires RowsOk(b, spec.proj)
    ensures var began := Push(spec, RiteBegan(c.actor, c.rite.id, target));
      OthersOk(b, began.proj, c.actor, c.rite.id) && Housed(c, began.proj)
  {
    BeganOthers(b, c, spec.proj, target, spec.tick);
    hide ApplyEvent, OthersOk, Housed, RowsOk;
  }

  lemma VictimBurstSafe(b: Book, r: Request, victim: Sigil, id: nat, spec: Spec, riteSteps: nat, predOps: nat)
    requires Checked(b) && RowsOk(b, spec.proj) && id < |b.rites|
    ensures var o := VictimBurst(b, r, victim, id, spec, riteSteps, predOps);
      Found(o) && (!o.end.Rejected? ==> RowsOk(b, o.spec.proj))
  {
    hide RowsOk, Checked, Pcs, Lands, OthersOk, Housed, Burst, Push;
    var rite := b.rites[id];
    var c := CallOf(b, r.(actor := victim), rite);
    RiteSound(b, id);
    BeganOthersNow(b, c, spec, Some(victim));
    BurstKeepsRows(b, c, rite.entry, Some(victim), Push(spec, RiteBegan(victim, id, Some(victim))),
                   Min(rite.capSteps, riteSteps), predOps);
  }

  lemma FollowUpSafe(b: Book, r: Request, victim: Sigil, name: Name, spec: Spec, riteSteps: nat, predOps: nat)
    requires Checked(b) && RowsOk(b, spec.proj)
    ensures Safe(b, FollowUp(b, r, victim, name, spec, riteSteps, predOps))
  {
    hide RowsOk, Checked, VictimBurst, Ran, NamedRite;
    var id := NamedRite(b, name);
    if id.Some? {
      VictimBurstSafe(b, r, victim, id.value, spec, riteSteps, predOps);
      RanSafe(b, VictimBurst(b, r, victim, id.value, spec, riteSteps, predOps), riteSteps);
    }
  }

  lemma HitSafe(b: Book, r: Request, target: Option<Sigil>, spec: Spec, riteSteps: nat, predOps: nat)
    requires Checked(b) && RowsOk(b, spec.proj)
    ensures Safe(b, ApplyHit(b, r, target, spec, riteSteps, predOps))
  {
    hide RowsOk, Checked, FollowUp, MayCollapse, Collapses, Victim, Emits;
    if target.Some? && Emits(spec.events) {
      var victim := Victim(spec, target.value);
      var hit := FollowUp(b, r, victim, APPLY_HIT, spec, riteSteps, predOps);
      FollowUpSafe(b, r, victim, APPLY_HIT, spec, riteSteps, predOps);
      if hit.result.Ok? {
        FollowUpSafe(b, r, victim, COLLAPSE, hit.result.value, hit.riteSteps, hit.predOps);
        ThenSafe(b, hit, FollowUp(b, r, victim, COLLAPSE, hit.result.value, hit.riteSteps, hit.predOps));
      }
    }
  }

  /** Every request, from any actor, known or not, with all that a hit sets off: each machine row left afterwards
      resumes inside its own rite, and no burst is rejected for lost control flow. */
  lemma DriveKeepsRows(b: Book, r: Request, spec: Spec, riteSteps: nat, predOps: nat)
    requires Checked(b) && RowsOk(b, spec.proj)
    ensures Safe(b, Drive(b, r, spec, riteSteps, predOps))
  {
    hide PlanOf, RowsOk, Pcs, OthersOk, Housed, ApplyHit, Lands, Checked, Safe, Ran, Then, Found;
    var plan := PlanOf(b, r, spec);
    PlanInside(b, r, spec);
    if plan.Go? {
      var o := PlanBurst(b, r, plan, riteSteps, predOps);
      RiteSound(b, plan.rite);
      PlanBurstSafe(b, r, plan, riteSteps, predOps);
      RanSafe(b, o, riteSteps);
      hide PlanBurst;
      var first := Ran(o, riteSteps);
      RanOk(o, riteSteps);
      if first.result.Ok? {
        HitSafe(b, r, plan.target, first.result.value, first.riteSteps, first.predOps);
        ThenSafe(b, first, ApplyHit(b, r, plan.target, first.result.value, first.riteSteps, first.predOps));
      }
    } else {
      NothingRun(b, spec, riteSteps, predOps);
    }
  }

  lemma RanOk(o: Outcome, riteSteps: nat)
    ensures Ran(o, riteSteps).result.Ok? ==> !o.end.Rejected? && Ran(o, riteSteps).result.value == o.spec
  {
  }

  lemma NothingRun(b: Book, spec: Spec, riteSteps: nat, predOps: nat)
    requires RowsOk(b, spec.proj)
    ensures Safe(b, Driven(Ok(spec), riteSteps, predOps, []))
    ensures forall e :: Safe(b, Driven(Err(e), riteSteps, predOps, []))
  {
    hide RowsOk;
  }

  lemma PlanBurstSafe(b: Book, r: Request, plan: Plan, riteSteps: nat, predOps: nat)
    requires plan.Go? && plan.rite < |b.rites| && b.rites[plan.rite].id == plan.rite
    requires var c := CallOf(b, r, b.rites[plan.rite]);
      && plan.pc in Pcs(c.rite.instrs) && NoDuplicates(Pcs(c.rite.instrs)) && Lands(c.rite.instrs)
      && OthersOk(b, plan.spec.proj, r.actor, plan.rite) && Housed(c, plan.spec.proj)
    ensures var o := PlanBurst(b, r, plan, riteSteps, predOps);
      Found(o) && (!o.end.Rejected? ==> RowsOk(b, o.spec.proj))
  {
    hide RowsOk, Pcs, OthersOk, Housed, Lands, Burst;
    BurstKeepsRows(b, CallOf(b, r, b.rites[plan.rite]), plan.pc, plan.target, plan.spec,
                   Min(b.rites[plan.rite].capSteps, riteSteps), predOps);
  }
}
