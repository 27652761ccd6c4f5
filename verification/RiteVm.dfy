/** The rite machine: bursts of instructions between two waits. */
module RiteVm {
  import opened Prelude
  import opened Pred
  import opened Space
  import opened Atoms
  import opened Rites
  import opened Distinct
  import opened World
  import Eval

  /** What is fixed during a burst. */
  datatype Call = Call(
    canon: Canon,
    rite: CookedRite,
    actor: Sigil,
    verb: Verb,
    source: SourceKind,
    claimed: seq<Channel>)

  /** Why a burst is rejected, told apart further than the program does. */
  datatype Cause =
    | NoInstr | NoNext | NoProgram | GuardBudget | NoResource | NoSlot | NoTemplate | NoSpawnId
    | SpawnFull | NoLocus | Unclaimed | ContactClash

  function Reason(c: Cause): RejectReason {
    match c
    case NoResource => Resource(0)
    case Unclaimed => UnclaimedAgency
    case ContactClash => WitnessMismatch
    case _ => Budget
  }

  /** Outcome of one instruction. */
  datatype Next =
    | Goto(pc: Pc, target: Option<Sigil>, spec: Spec)
    | Ended(spec: Spec)
    | Yielded(spec: Spec)
    | Failed(cause: Cause)

  function StatusEnd(s: Status): RiteEnd { if s.Success? then EndSuccess else EndFail }

  function CtxOf(c: Call, proj: Proj, target: Option<Sigil>): Ctx {
    Ctx(StoreOf(proj, c.canon), c.actor, target, c.canon.pinSigils, c.verb, c.source, c.claimed, false)
  }

  /** A pc without a predicate passes its guard. */
  function Guarded(c: Call, pc: Pc, proj: Proj, target: Option<Sigil>, predOps: nat)
    : (Result<bool, Cause>, nat)
  {
    if pc !in c.rite.guards then (Ok(true), predOps)
    else if c.rite.guards[pc] >= |c.canon.preds| then (Err(NoProgram), predOps)
    else
      var (v, left) := Eval.RunPred(c.canon.preds[c.rite.guards[pc]], CtxOf(c, proj, target), predOps);
      (if v.Ok? then Ok(v.value) else Err(GuardBudget), left)
  }

  function ResolveSlot(slot: Slot, c: Call, target: Option<Sigil>): Option<Sigil> {
    match slot
    case This => Some(c.actor)
    case Target => target
    case Other => None
    case Named(n) =>
      var i := Position(c.canon.pinNames, n);
      if i.Some? && i.value < |c.canon.pinSigils| then c.canon.pinSigils[i.value] else None
  }

  function Onward(next: Option<Pc>, target: Option<Sigil>, spec: Spec): Next {
    if next.None? then Failed(NoNext) else Goto(next.value, target, spec)
  }

  function OrElse<T>(x: Option<T>, y: T): T { if x.Some? then x.value else y }

  // ---------------------------------------------------------------------------------------------
  // One instruction.

  /** The machine row a `Wait` or a `Bind` leaves. */
  function Row(c: Call, spec: Spec, pc: Pc, waitLeft: nat, target: Option<Sigil>, ch: Option<Channel>): Machine {
    var row := RiteRow(spec.proj, c.actor, c.rite.id);
    Machine(if row.Some? then row.value.startedAt else spec.tick, spec.tick,
            row.Some? && row.value.contactHit, if row.Some? then row.value.contactAgency else 0,
            pc, waitLeft, target, ch)
  }

  predicate Clashes(c: Call, spec: Spec, target: Option<Sigil>) {
    var row := RiteRow(spec.proj, c.actor, c.rite.id);
    row.Some? && row.value.contactHit && row.value.target != target
  }

  function PutRow(c: Call, spec: Spec, pc: Pc, waitLeft: nat, target: Option<Sigil>, ch: Option<Channel>): Spec {
    Write(spec, c.actor, PutRite(spec.proj, c.actor, c.rite.id, Row(c, spec, pc, waitLeft, target, ch)))
  }

  predicate Tracked(c: Call) {
    c.actor in c.canon.tracks && c.canon.tracks[c.actor].rite == c.rite.name
  }

  /** A contact-bound rite may wait only for its player, who is recorded once. */
  function Authorized(c: Call, spec: Spec): Option<Spec> {
    if !Tracked(c) then Some(spec)
    else
      var row := RiteRow(spec.proj, c.actor, c.rite.id);
      if c.source != Player || c.canon.tracks[c.actor].channel !in c.claimed || row.None? then None
      else if row.value.contactAgency == 0 then
        Some(Push(spec, ActionAuthorized(c.actor, c.rite.id, row.value.startedAt, c.canon.tracks[c.actor].channel)))
      else Some(spec)
  }

  function ExecWait(c: Call, ticks: nat, ch: Option<Channel>, pc: Pc, next: Option<Pc>,
                    target: Option<Sigil>, spec: Spec): Next
  {
    var auth := Authorized(c, spec);
    if auth.None? then Failed(Unclaimed)
    else
      var resume := OrElse(next, pc);
      var s := Push(auth.value, RiteAdvanced(c.actor, c.rite.id, resume, ticks));
      if Clashes(c, s, target) then Failed(ContactClash)
      else Yielded(PutRow(c, s, resume, ticks, target, ch))
  }

  function Bound(c: Call, src: BindSrc, target: Option<Sigil>, spec: Spec): Option<Sigil> {
    match src
    case BindTarget => target
    case BindThis => Some(c.actor)
    case BindRelated(rel) =>
      var n := Related(spec.proj, c.actor, rel);
      if n == [] then None else Some(n[0])
  }

  function ExecBind(c: Call, src: BindSrc, pc: Pc, next: Option<Pc>, target: Option<Sigil>, spec: Spec): Next {
    var bound := Bound(c, src, target, spec);
    if Clashes(c, spec, bound) then Failed(ContactClash)
    else Onward(next, bound, PutRow(c, spec, OrElse(next, pc), 0, bound, None))
  }

  function ExecSpend(c: Call, res: Name, amount: int, fail: Pc, next: Option<Pc>, target: Option<Sigil>,
                     spec: Spec): Next
  {
    if res !in c.canon.resources then Failed(NoResource)
    else
      var rid := c.canon.resources[res];
      var have := StoreOf(spec.proj, c.canon).qty(c.actor, rid);
      if have < amount then Goto(fail, target, spec)
      else Onward(next, target, Push(spec, QtyChanged(c.actor, rid, WrapI32(have - amount))))
  }

  function ExecAwake(c: Call, slot: Slot, next: Option<Pc>, target: Option<Sigil>, spec: Spec): Next {
    var s := ResolveSlot(slot, c, target);
    if s.None? then Onward(next, target, spec)
    else Onward(next, target, Write(spec, s.value, Woken(spec.proj, s.value)))
  }

  function Woken(p: Proj, s: Sigil): Proj {
    if s !in p.loci then p
    else p.(island := p.island[s := (if s in p.island then p.island[s].0 else 0, 0)])
  }

  /** `as u16`. */
  function TemplateIx(i: nat): nat { i % (U16_MAX + 1) }

  function MarkSpawned(c: Call, spec: Spec, sigil: Sigil, template: nat): Spec {
    if template < |c.canon.facts| && c.canon.facts[template] in c.canon.affordances then
      var a := c.canon.affordances[c.canon.facts[template]];
      Write(spec, sigil, if a < 64 then spec.proj.(afford := spec.proj.afford + {(sigil, a)}) else spec.proj)
    else spec
  }

  function ExecSpawn(c: Call, name: Name, next: Option<Pc>, target: Option<Sigil>, spec: Spec): Next {
    var i := Position(c.canon.facts, name);
    if i.None? then Failed(NoTemplate)
    else
      var sigil := c.canon.spawnId(spec.proj.loci);
      if sigil.None? then Failed(NoSpawnId)
      else
        var at := if c.actor in spec.proj.pose then spec.proj.pose[c.actor] else Vec3(0, 0, 0);
        var s := Push(spec, Spawned(TemplateIx(i.value), sigil.value, at));
        if sigil.value !in s.proj.loci then Failed(SpawnFull)
        else Onward(next, target, MarkSpawned(c, s, sigil.value, TemplateIx(i.value)))
  }

  function ExecSetq(c: Call, slot: Slot, res: Name, amount: int, next: Option<Pc>, target: Option<Sigil>,
                    spec: Spec): Next
  {
    var s := ResolveSlot(slot, c, target);
    if res !in c.canon.resources then Failed(NoResource)
    else if s.None? then Failed(NoSlot)
    else Onward(next, target, Push(spec, QtyChanged(s.value, c.canon.resources[res], amount)))
  }

  function ExecRel(c: Call, add: bool, a: Slot, rel: Rel, b: Slot, next: Option<Pc>, target: Option<Sigil>,
                   spec: Spec): Next
  {
    var sa, sb := ResolveSlot(a, c, target), ResolveSlot(b, c, target);
    if sa.None? || sb.None? then Failed(NoSlot)
    else if add then Onward(next, target, Push(spec, RelAdded(sa.value, rel, sb.value)))
    else Onward(next, target, Push(spec, RelDeleted(sa.value, rel, sb.value)))
  }

  function ExecPhysReq(c: Call, lin: Vec3, ang: Vec3, next: Option<Pc>, target: Option<Sigil>, spec: Spec): Next {
    if c.actor !in spec.proj.loci then Failed(NoLocus)
    else
      Onward(next, target,
             Write(spec, c.actor, spec.proj.(physReq := spec.proj.physReq[c.actor := (lin, ang)])))
  }

  /** Where a guard or a branch goes. */
  function Decide(r: Result<bool, Cause>, yes: Next, no: Next): Next {
    match r
    case Err(cause) => Failed(cause)
    case Ok(b) => if b then yes else no
  }

  function Finish(c: Call, status: RiteEnd, spec: Spec): Spec {
    Push(spec, RiteEnded(c.actor, c.rite.id, status))
  }

  /** One instruction, and the predicate ops left. */
  function Exec(c: Call, op: RiteOp, pc: Pc, next: Option<Pc>, target: Option<Sigil>, spec: Spec, predOps: nat)
    : (Next, nat)
  {
    match op
    case Halt(st) => (Ended(Finish(c, StatusEnd(st), spec)), predOps)
    case Complete(st) => (Ended(Finish(c, StatusEnd(st), spec)), predOps)
    case Guard(_, fail) =>
      var (r, left) := Guarded(c, pc, spec.proj, target, predOps);
      (Decide(r, Onward(next, target, spec), Goto(fail, target, spec)), left)
    case Branch(_, yes, no) =>
      var (r, left) := Guarded(c, pc, spec.proj, target, predOps);
      (Decide(r, Goto(yes, target, spec), Goto(no, target, spec)), left)
    case Spend(res, amount, fail) => (ExecSpend(c, res, amount, fail, next, target, spec), predOps)
    case Wait(ticks, ch) => (ExecWait(c, ticks, ch, pc, next, target, spec), predOps)
    case Emit(_) => (Onward(next, target, Push(spec, Emitted(c.actor, target))), predOps)
    case Bind(src) => (ExecBind(c, src, pc, next, target, spec), predOps)
    case Setq(slot, res, amount) => (ExecSetq(c, slot, res, amount, next, target, spec), predOps)
    case RelAdd(a, rel, b) => (ExecRel(c, true, a, rel, b, next, target, spec), predOps)
    case RelDel(a, rel, b) => (ExecRel(c, false, a, rel, b, next, target, spec), predOps)
    case Awake(slot) => (ExecAwake(c, slot, next, target, spec), predOps)
    case Spawn(name) => (ExecSpawn(c, name, next, target, spec), predOps)
    case PhysReq(lin, ang) => (ExecPhysReq(c, lin, ang, next, target, spec), predOps)
  }

  /** How control leaves an instruction. */
  lemma ExecFlow(c: Call, op: RiteOp, pc: Pc, next: Option<Pc>, target: Option<Sigil>, spec: Spec, predOps: nat)
    ensures var r := Exec(c, op, pc, next, target, spec, predOps).0;
      && (r.Goto? ==> r.pc in Jumps(op) || (FallsThrough(op) && next == Some(r.pc)))
      && (r.Yielded? ==> op.Wait?)
      && (r.Ended? ==> Ends(op))
      && (r.Failed? ==> r.cause != NoInstr && (r.cause == NoNext ==> FallsThrough(op) && next.None?))
  {
    hide Push, Write, Row, PutRow, ResolveSlot, Eval.RunPred, CtxOf, RiteRow, Woken, MarkSpawned, StoreOf, Position,
         Authorized, Clashes, Bound, Finish;
  }

  /** A wait adds no locus. */
  lemma WaitLoci(c: Call, op: RiteOp, pc: Pc, next: Option<Pc>, target: Option<Sigil>, spec: Spec, predOps: nat)
    requires op.Wait? && Exec(c, op, pc, next, target, spec, predOps).0.Yielded?
    ensures Exec(c, op, pc, next, target, spec, predOps).0.spec.proj.loci == spec.proj.loci
  {
    assert Exec(c, op, pc, next, target, spec, predOps).0 == ExecWait(c, op.ticks, op.channel, pc, next, target, spec);
    hide Exec, Row, Clashes, Advance, SetQty, AddRel, DelRel, InsertLocus, Touched;
  }

  /** After a wait the machine row says where to resume. */
  lemma WaitRow(c: Call, op: RiteOp, pc: Pc, next: Option<Pc>, target: Option<Sigil>, spec: Spec, predOps: nat)
    requires op.Wait? && Exec(c, op, pc, next, target, spec, predOps).0.Yielded? && c.actor in spec.proj.loci
    ensures var row := RiteRow(Exec(c, op, pc, next, target, spec, predOps).0.spec.proj, c.actor, c.rite.id);
      row.Some? && row.value.pc == OrElse(next, pc) && row.value.waitLeft == op.ticks
      && row.value.target == target && row.value.waitCh == op.channel
  {
  }

  // ---------------------------------------------------------------------------------------------
  // A burst.

  datatype BurstEnd = Done | Waiting | OutOfSteps | Rejected(cause: Cause)

  /** How a burst went: `trace` lists the pcs executed, `spec` is the delta unless it was rejected. */
  datatype Outcome = Outcome(end: BurstEnd, spec: Spec, trace: seq<Pc>, predOps: nat)

  function Prepend(pc: Pc, o: Outcome): Outcome { o.(trace := [pc] + o.trace) }

  /** At most `fuel` more instructions from `pc`. */
  function Burst(c: Call, pc: Pc, target: Option<Sigil>, spec: Spec, fuel: nat, predOps: nat): Outcome
    decreases fuel
  {
    if fuel == 0 then Outcome(OutOfSteps, Finish(c, FailBudget, spec), [], predOps)
    else
      match OpAt(c.rite.instrs, pc)
      case None => Outcome(Rejected(NoInstr), spec, [pc], predOps)
      case Some(op) =>
        var (r, left) := Exec(c, op, pc, NextPc(Pcs(c.rite.instrs), pc), target, spec, predOps);
        match r
        case Goto(pc', target', spec') => Prepend(pc, Burst(c, pc', target', spec', fuel - 1, left))
        case Ended(spec') => Outcome(Done, spec', [pc], left)
        case Yielded(spec') => Outcome(Waiting, spec', [pc], left)
        case Failed(cause) => Outcome(Rejected(cause), spec, [pc], left)
  }

  // ---------------------------------------------------------------------------------------------
  // What an instruction leaves alone.

  /** Rows other than the caller's stay, loci are only added, and the caller gets a row only as a locus. */
  ghost predicate Keeps(c: Call, before: Spec, after: Spec) {
    && before.proj.loci <= after.proj.loci
    && (forall k :: k != (c.actor, c.rite.id) ==> (k in after.proj.rites <==> k in before.proj.rites))
    && (forall k :: k != (c.actor, c.rite.id) && k in before.proj.rites ==>
          after.proj.rites[k] == before.proj.rites[k])
    && ((c.actor, c.rite.id) in after.proj.rites ==>
          (c.actor, c.rite.id) in before.proj.rites || c.actor in after.proj.loci)
    && before.tick == after.tick
  }

  lemma KeepsRefl(c: Call, s: Spec)
    ensures Keeps(c, s, s)
  {
  }

  lemma KeepsTrans(c: Call, x: Spec, y: Spec, z: Spec)
    requires Keeps(c, x, y) && Keeps(c, y, z)
    ensures Keeps(c, x, z)
  {
  }

  /** The event is about the caller's machine or about no machine at all. */
  predicate Own(c: Call, e: Event) {
    match e
    case RiteBegan(actor, rite, _) => actor == c.actor && rite == c.rite.id
    case RiteAdvanced(actor, rite, _, _) => actor == c.actor && rite == c.rite.id
    case RiteEnded(actor, rite, _) => actor == c.actor && rite == c.rite.id
    case ActionAuthorized(actor, rite, _, _) => actor == c.actor && rite == c.rite.id
    case _ => true
  }

  predicate SameRows(p: Proj, q: Proj) { p.loci <= q.loci && q.rites == p.rites }

  lemma OtherEvents(p: Proj, e: Event, tick: Tick)
    requires e.QtyChanged? || e.RelAdded? || e.RelDeleted? || e.Emitted? || e.Spawned?
    ensures SameRows(p, ApplyEvent(p, e, tick))
  {
    if e.RelAdded? || e.RelDeleted? {
      RelsAlone(p, e.a, e.rel, e.b);
    }
    hide AddRel, DelRel, Advance;
  }

  lemma RelsAlone(p: Proj, a: Sigil, rel: Rel, b: Sigil)
    ensures SameRows(p, AddRel(p, a, rel, b)) && SameRows(p, DelRel(p, a, rel, b))
  {
    hide Related, Without;
  }

  lemma KeepsPush(c: Call, s: Spec, e: Event)
    requires Own(c, e)
    ensures Keeps(c, s, Push(s, e))
  {
    if e.QtyChanged? || e.RelAdded? || e.RelDeleted? || e.Emitted? || e.Spawned? {
      OtherEvents(s.proj, e, s.tick);
      hide ApplyEvent, Touched;
    } else {
      hide Advance, Touched, SetQty, AddRel, DelRel, InsertLocus;
    }
  }

  lemma KeepsWrite(c: Call, s: Spec, locus: Sigil, p: Proj)
    requires SameRows(s.proj, p)
    ensures Keeps(c, s, Write(s, locus, p))
  {
  }

  lemma KeepsRow(c: Call, s: Spec, pc: Pc, waitLeft: nat, target: Option<Sigil>, ch: Option<Channel>)
    ensures Keeps(c, s, PutRow(c, s, pc, waitLeft, target, ch))
  {
    hide Row;
  }

  lemma WaitKeeps(c: Call, ticks: nat, ch: Option<Channel>, pc: Pc, next: Option<Pc>, target: Option<Sigil>, spec: Spec)
    ensures var r := ExecWait(c, ticks, ch, pc, next, target, spec); !r.Failed? ==> Keeps(c, spec, r.spec)
  {
    hide Push, PutRow, Clashes, Keeps, RiteRow;
    var auth := Authorized(c, spec);
    if auth.Some? {
      KeepsRefl(c, spec);
      var row := RiteRow(spec.proj, c.actor, c.rite.id);
      if Tracked(c) && row.Some? && row.value.contactAgency == 0 {
        KeepsPush(c, spec, ActionAuthorized(c.actor, c.rite.id, row.value.startedAt, c.canon.tracks[c.actor].channel));
      }
      var resume := OrElse(next, pc);
      var s := Push(auth.value, RiteAdvanced(c.actor, c.rite.id, resume, ticks));
      KeepsPush(c, auth.value, RiteAdvanced(c.actor, c.rite.id, resume, ticks));
      KeepsRow(c, s, resume, ticks, target, ch);
      KeepsTrans(c, spec, auth.value, s);
      KeepsTrans(c, spec, s, PutRow(c, s, resume, ticks, target, ch));
    }
  }

  lemma SpawnKeeps(c: Call, name: Name, next: Option<Pc>, target: Option<Sigil>, spec: Spec)
    ensures var r := ExecSpawn(c, name, next, target, spec); r.Goto? ==> Keeps(c, spec, r.spec)
  {
    hide Push, Write, Keeps, Position, TemplateIx;
    var i, sigil := Position(c.canon.facts, name), c.canon.spawnId(spec.proj.loci);
    if i.Some? && sigil.Some? {
      var at := if c.actor in spec.proj.pose then spec.proj.pose[c.actor] else Vec3(0, 0, 0);
      var e := Spawned(TemplateIx(i.value), sigil.value, at);
      var s := Push(spec, e);
      KeepsPush(c, spec, e);
      forall a: nat {
        KeepsWrite(c, s, sigil.value, s.proj.(afford := s.proj.afford + {(sigil.value, a)}));
      }
      KeepsWrite(c, s, sigil.value, s.proj);
      var marked := MarkSpawned(c, s, sigil.value, TemplateIx(i.value));
      KeepsRefl(c, s);
      KeepsTrans(c, spec, s, marked);
    }
  }

  lemma WritesKeep(c: Call, op: RiteOp, pc: Pc, next: Option<Pc>, target: Option<Sigil>, spec: Spec, predOps: nat)
    requires op.Awake? || op.PhysReq? || op.Bind?
    ensures var r := Exec(c, op, pc, next, target, spec, predOps).0; r.Goto? ==> Keeps(c, spec, r.spec)
  {
    hide Keeps, Write, PutRow, ResolveSlot, Clashes, Bound;
    KeepsRefl(c, spec);
    if op.Awake? {
      var s := ResolveSlot(op.slot, c, target);
      if s.Some? {
        KeepsWrite(c, spec, s.value, Woken(spec.proj, s.value));
      }
    } else if op.PhysReq? {
      KeepsWrite(c, spec, c.actor, spec.proj.(physReq := spec.proj.physReq[c.actor := (op.lin, op.ang)]));
    } else {
      KeepsRow(c, spec, OrElse(next, pc), 0, Bound(c, op.src, target, spec), None);
    }
  }

  lemma EventsKeep(c: Call, op: RiteOp, pc: Pc, next: Option<Pc>, target: Option<Sigil>, spec: Spec, predOps: nat)
    requires !op.Awake? && !op.PhysReq? && !op.Bind? && !op.Wait? && !op.Spawn?
    ensures var r := Exec(c, op, pc, next, target, spec, predOps).0; !r.Failed? ==> Keeps(c, spec, r.spec)
  {
    hide Keeps, Push, ResolveSlot, Guarded, StoreOf;
    KeepsRefl(c, spec);
    forall e | Own(c, e)
      ensures Keeps(c, spec, Push(spec, e))
    {
      KeepsPush(c, spec, e);
    }
  }

  /** An instruction writes no machine row but its own, and loses no locus. */
  lemma ExecKeeps(c: Call, op: RiteOp, pc: Pc, next: Option<Pc>, target: Option<Sigil>, spec: Spec, predOps: nat)
    ensures var r := Exec(c, op, pc, next, target, spec, predOps).0; !r.Failed? ==> Keeps(c, spec, r.spec)
  {
    ExecFlow(c, op, pc, next, target, spec, predOps);
    if op.Wait? {
      WaitKeeps(c, op.ticks, op.channel, pc, next, target, spec);
      hide ExecWait, Keeps;
    } else if op.Spawn? {
      SpawnKeeps(c, op.template, next, target, spec);
      hide ExecSpawn, Keeps;
    } else if op.Awake? || op.PhysReq? || op.Bind? {
      WritesKeep(c, op, pc, next, target, spec, predOps);
      hide Exec, Keeps;
    } else {
      EventsKeep(c, op, pc, next, target, spec, predOps);
      hide Exec, Keeps;
    }
  }

  // ---------------------------------------------------------------------------------------------
  // The machine as it runs, on a delta it updates in place.

  datatype Control = ToPc(pc: Pc, target: Option<Sigil>) | Stop | Yield | Refuse(cause: Cause)

  predicate Agrees(n: Next, f: Control, s: Spec) {
    match n
    case Goto(pc, target, s') => f == ToPc(pc, target) && s == s'
    case Ended(s') => f == Stop && s == s'
    case Yielded(s') => f == Yield && s == s'
    case Failed(cause) => f == Refuse(cause)
  }

  function Forward(next: Option<Pc>, target: Option<Sigil>): Control {
    if next.None? then Refuse(NoNext) else ToPc(next.value, target)
  }

  method EvalGuard(c: Call, pc: Pc, proj: Proj, target: Option<Sigil>, predOps0: nat)
    returns (r: Result<bool, Cause>, predOps: nat)
    ensures (r, predOps) == Guarded(c, pc, proj, target, predOps0)
  {
    if pc !in c.rite.guards {
      return Ok(true), predOps0;
    }
    var pid := c.rite.guards[pc];
    if pid >= |c.canon.preds| {
      return Err(NoProgram), predOps0;
    }
    var v;
    v, predOps := Eval.EvalPred(c.canon.preds[pid], CtxOf(c, proj, target), predOps0);
    r := if v.Ok? then Ok(v.value) else Err(GuardBudget);
  }

  method RunWait(c: Call, ticks: nat, ch: Option<Channel>, pc: Pc, next: Option<Pc>, target: Option<Sigil>,
                 spec: SpecDelta) returns (f: Control)
    modifies spec
    ensures Agrees(ExecWait(c, ticks, ch, pc, next, target, old(spec.View())), f, spec.View())
  {
    hide Push, Write, Row, PutRite;
    if Tracked(c) {
      var channel := c.canon.tracks[c.actor].channel;
      if c.source != Player || channel !in c.claimed {
        return Refuse(Unclaimed);
      }
      var machine := RiteRow(spec.proj, c.actor, c.rite.id);
      if machine.None? {
        return Refuse(Unclaimed);
      }
      if machine.value.contactAgency == 0 {
        spec.PushEvent(ActionAuthorized(c.actor, c.rite.id, machine.value.startedAt, channel));
      }
    }
    var resume := OrElse(next, pc);
    spec.PushEvent(RiteAdvanced(c.actor, c.rite.id, resume, ticks));
    var now := Spec(spec.proj, spec.events, spec.written, spec.tick);
    if Clashes(c, now, target) {
      return Refuse(ContactClash);
    }
    spec.Put(c.actor, PutRite(spec.proj, c.actor, c.rite.id, Row(c, now, resume, ticks, target, ch)));
    return Yield;
  }

  method RunBind(c: Call, src: BindSrc, pc: Pc, next: Option<Pc>, target: Option<Sigil>, spec: SpecDelta)
    returns (f: Control)
    modifies spec
    ensures Agrees(ExecBind(c, src, pc, next, target, old(spec.View())), f, spec.View())
  {
    hide Push, Write, Row, PutRite;
    var now := Spec(spec.proj, spec.events, spec.written, spec.tick);
    var bound := Bound(c, src, target, now);
    if Clashes(c, now, bound) {
      return Refuse(ContactClash);
    }
    spec.Put(c.actor, PutRite(spec.proj, c.actor, c.rite.id, Row(c, now, OrElse(next, pc), 0, bound, None)));
    return Forward(next, bound);
  }

  method RunSpawn(c: Call, name: Name, next: Option<Pc>, target: Option<Sigil>, spec: SpecDelta)
    returns (f: Control)
    modifies spec
    ensures Agrees(ExecSpawn(c, name, next, target, old(spec.View())), f, spec.View())
  {
    hide Push, Write;
    var i := Position(c.canon.facts, name);
    if i.None? {
      return Refuse(NoTemplate);
    }
    var template := TemplateIx(i.value);
    var sigil := c.canon.spawnId(spec.proj.loci);
    if sigil.None? {
      return Refuse(NoSpawnId);
    }
    var at := if c.actor in spec.proj.pose then spec.proj.pose[c.actor] else Vec3(0, 0, 0);
    spec.PushEvent(Spawned(template, sigil.value, at));
    if sigil.value !in spec.proj.loci {
      return Refuse(SpawnFull);
    }
    if template < |c.canon.facts| && c.canon.facts[template] in c.canon.affordances {
      var a := c.canon.affordances[c.canon.facts[template]];
      spec.Put(sigil.value,
               if a < 64 then spec.proj.(afford := spec.proj.afford + {(sigil.value, a)}) else spec.proj);
    }
    return Forward(next, target);
  }

  /** The quantity, relation and request writes. */
  method RunWrite(c: Call, op: RiteOp, next: Option<Pc>, target: Option<Sigil>, spec: SpecDelta)
    returns (f: Control)
    requires op.Spend? || op.Setq? || op.RelAdd? || op.RelDel? || op.Awake? || op.PhysReq? || op.Emit?
    modifies spec
    ensures forall pc, predOps :: Agrees(Exec(c, op, pc, next, target, old(spec.View()), predOps).0, f, spec.View())
  {
    hide Push, Write, ResolveSlot, StoreOf;
    match op {
      case Emit(_) =>
        spec.PushEvent(Emitted(c.actor, target));
      case Spend(res, amount, fail) =>
        if res !in c.canon.resources {
          return Refuse(NoResource);
        }
        var have := StoreOf(spec.proj, c.canon).qty(c.actor, c.canon.resources[res]);
        if have < amount {
          return ToPc(fail, target);
        }
        spec.PushEvent(QtyChanged(c.actor, c.canon.resources[res], WrapI32(have - amount)));
      case Setq(slot, res, amount) =>
        var s := ResolveSlot(slot, c, target);
        if res !in c.canon.resources {
          return Refuse(NoResource);
        }
        if s.None? {
          return Refuse(NoSlot);
        }
        spec.PushEvent(QtyChanged(s.value, c.canon.resources[res], amount));
      case RelAdd(a, rel, b) =>
        var sa, sb := ResolveSlot(a, c, target), ResolveSlot(b, c, target);
        if sa.None? || sb.None? {
          return Refuse(NoSlot);
        }
        spec.PushEvent(RelAdded(sa.value, rel, sb.value));
      case RelDel(a, rel, b) =>
        var sa, sb := ResolveSlot(a, c, target), ResolveSlot(b, c, target);
        if sa.None? || sb.None? {
          return Refuse(NoSlot);
        }
        spec.PushEvent(RelDeleted(sa.value, rel, sb.value));
      case Awake(slot) =>
        var s := ResolveSlot(slot, c, target);
        if s.Some? {
          spec.Put(s.value, Woken(spec.proj, s.value));
        }
      case PhysReq(lin, ang) =>
        if c.actor !in spec.proj.loci {
          return Refuse(NoLocus);
        }
        spec.Put(c.actor, spec.proj.(physReq := spec.proj.physReq[c.actor := (lin, ang)]));
    }
    return Forward(next, target);
  }

  /** One pass of the loop body's `match`. */
  method RunOp(c: Call, op: RiteOp, pc: Pc, next: Option<Pc>, target: Option<Sigil>, spec: SpecDelta, predOps0: nat)
    returns (f: Control, predOps: nat)
    modifies spec
    ensures predOps == Exec(c, op, pc, next, target, old(spec.View()), predOps0).1
    ensures Agrees(Exec(c, op, pc, next, target, old(spec.View()), predOps0).0, f, spec.View())
  {
    hide Push, Write, Guarded, ExecWait, ExecBind, ExecSpawn, ExecSpend, ExecSetq, ExecRel, ExecAwake, ExecPhysReq;
    predOps := predOps0;
    if Ends(op) {
      spec.PushEvent(RiteEnded(c.actor, c.rite.id, StatusEnd(op.status)));
      f := Stop;
    } else if op.Guard? || op.Branch? {
      var ok;
      ok, predOps := EvalGuard(c, pc, spec.proj, target, predOps0);
      if ok.Err? {
        f := Refuse(ok.error);
      } else if op.Branch? {
        f := ToPc(if ok.value then op.yes else op.no, target);
      } else if ok.value {
        f := Forward(next, target);
      } else {
        f := ToPc(op.fail, target);
      }
    } else if op.Wait? {
      f := RunWait(c, op.ticks, op.channel, pc, next, target, spec);
    } else if op.Bind? {
      f := RunBind(c, op.src, pc, next, target, spec);
    } else if op.Spawn? {
      f := RunSpawn(c, op.template, next, target, spec);
    } else {
      f := RunWrite(c, op, next, target, spec);
    }
  }

  datatype BurstKind = BurstHalt | BurstWait

  function Reported(end: BurstEnd): Result<BurstKind, RejectReason> {
    match end
    case Done => Ok(BurstHalt)
    case OutOfSteps => Ok(BurstHalt)
    case Waiting => Ok(BurstWait)
    case Rejected(cause) => Err(Reason(cause))
  }

  /** `run_burst`.  The tick's step budget falls by exactly the instructions started, whatever the
      outcome. */
  method RunBurst(c: Call, spec: SpecDelta, target0: Option<Sigil>, startPc: Pc, riteSteps0: nat, predOps0: nat)
    returns (r: Result<BurstKind, RejectReason>, riteSteps: nat, predOps: nat)
    modifies spec
    ensures var o := Burst(c, startPc, target0, old(spec.View()), Min(c.rite.capSteps, riteSteps0), predOps0);
      && r == Reported(o.end)
      && riteSteps == riteSteps0 - |o.trace|
      && predOps == o.predOps
      && (r.Ok? ==> spec.View() == o.spec)
  {
    hide Exec, OpAt, NextPc, Finish;
    var cap: nat := Min(c.rite.capSteps, riteSteps0);
    ghost var o := Burst(c, startPc, target0, spec.View(), cap, predOps0);
    var steps: nat := 0;
    var pc, target := startPc, target0;
    riteSteps, predOps := riteSteps0, predOps0;
    while true
      invariant steps <= cap && riteSteps == riteSteps0 - steps
      invariant var rest := Burst(c, pc, target, spec.View(), cap - steps, predOps);
        o.end == rest.end && o.spec == rest.spec && o.predOps == rest.predOps && |o.trace| == steps + |rest.trace|
      decreases cap - steps
    {
      if steps >= cap || riteSteps == 0 {
        FinishIs(c, FailBudget, spec.View());
        spec.PushEvent(RiteEnded(c.actor, c.rite.id, FailBudget));
        return Ok(BurstHalt), riteSteps, predOps;
      }
      riteSteps := riteSteps - 1;
      steps := steps + 1;
      var instr := OpAt(c.rite.instrs, pc);
      if instr.None? {
        return Err(Budget), riteSteps, predOps;
      }
      var next := NextPc(Pcs(c.rite.instrs), pc);
      var f;
      f, predOps := RunOp(c, instr.value, pc, next, target, spec, predOps);
      match f {
        case Stop =>
          return Ok(BurstHalt), riteSteps, predOps;
        case Yield =>
          return Ok(BurstWait), riteSteps, predOps;
        case Refuse(cause) =>
          return Err(Reason(cause)), riteSteps, predOps;
        case ToPc(pc', target') =>
          pc, target := pc', target';
      }
    }
  }

  lemma FinishIs(c: Call, status: RiteEnd, spec: Spec)
    ensures Finish(c, status, spec) == Push(spec, RiteEnded(c.actor, c.rite.id, status))
  {
  }
}
