/** Admission laws. */
module Laws {
  // Evaluated against the world a proposal would leave.

  import opened Prelude
  import opened Pred
  import opened Atoms
  import opened Contradict
  import opened Pipeline
  import opened Meaning
  import opened Wiring
  import Compile
  import Eval

  datatype CookedBody =
    | CookedPred(must: nat)
    | CookedRamp
    | CookedSpread
    | CookedConserve(res: nat, over: Rel)
    | CookedCap(mark: nat, n: nat, require: Option<(Rel, CookedSlot)>)

  datatype CookedLaw = CookedLaw(id: nat, when: nat, body: CookedBody)

  type Admission = Result<(), RejectReason>

  /** The proposal's bindings, and the loci in packed order. */
  datatype Case = Case(preds: seq<Compile.Program>, loci: seq<Sigil>, ctx: Ctx)

  function EvalRow(c: Case, ix: nat, ctx: Ctx, ops: nat): (Eval.Verdict, nat) {
    if ix >= |c.preds| then (Err(Budget), ops) else Eval.RunPred(c.preds[ix], ctx, ops)
  }

  predicate ConserveHolds(ctx: Ctx, res: nat, over: Rel) {
    && ctx.store.qty(ctx.actor, res) >= 0
    && forall s :: s in ctx.store.related(ctx.actor, over) ==> ctx.store.qty(s, res) >= 0
  }

  /** The locus counts towards a cap only if it stands in the required relation. */
  predicate Counts(c: Case, s: Sigil, require: Option<(Rel, CookedSlot)>) {
    require.Some? ==>
      var b := Resolve(require.value.1, c.ctx, None);
      b.Some? && c.ctx.store.hasRel(s, require.value.0, b.value)
  }

  /** Bindings when a cap looks at locus `s`. */
  function MarkCtx(ctx: Ctx, s: Sigil): Ctx { ctx.(actor := s, sweptHits := false) }

  /** `saturating_add` on `u16`. */
  function AddU16(n: nat): nat { if n < U16_MAX then n + 1 else n }

  function CapCount(c: Case, loci: seq<Sigil>, mark: nat, require: Option<(Rel, CookedSlot)>, n: nat, ops: nat)
    : (Result<nat, RejectReason>, nat)
    decreases |loci|
  {
    if loci == [] then (Ok(n), ops)
    else if !Counts(c, loci[0], require) then CapCount(c, loci[1..], mark, require, n, ops)
    else
      var (v, left) := EvalRow(c, mark, MarkCtx(c.ctx, loci[0]), ops);
      match v
      case Err(e) => (Err(e), left)
      case Ok(b) => CapCount(c, loci[1..], mark, require, if b then AddU16(n) else n, left)
  }

  function AdmitBody(c: Case, law: CookedLaw, applies: bool, ops: nat): (Admission, nat) {
    match law.body
    case CookedPred(must) =>
      if !applies then (Ok(()), ops)
      else
        var (v, left) := EvalRow(c, must, c.ctx, ops);
        (if v.Err? then Err(v.error) else if v.value then Ok(()) else Err(LawBroken(law.id)), left)
    case CookedConserve(res, over) =>
      (if applies && !ConserveHolds(c.ctx, res, over) then Err(LawBroken(law.id)) else Ok(()), ops)
    case CookedCap(mark, n, require) =>
      if mark >= |c.preds| then (Err(Budget), ops)
      else
        var (count, left) := CapCount(c, c.loci, mark, require, 0, ops);
        (if count.Err? then Err(count.error) else if count.value > n then Err(LawBroken(law.id)) else Ok(()), left)
    case _ => (Ok(()), ops)
  }

  function AdmitLaw(c: Case, law: CookedLaw, ops: nat): (Admission, nat) {
    var (v, left) := EvalRow(c, law.when, c.ctx, ops);
    if v.Err? then (Err(v.error), left) else AdmitBody(c, law, v.value, left)
  }

  function AdmitAll(c: Case, laws: seq<CookedLaw>, ops: nat): (Admission, nat) {
    if laws == [] then (Ok(()), ops)
    else
      var (r, left) := AdmitLaw(c, laws[0], ops);
      if r.Err? then (r, left) else AdmitAll(c, laws[1..], left)
  }

  /** One law before one case, or a contact whose channel is none: its agency is not claimed. */
  datatype Hearing = Heard(c: Case, i: nat) | Unclaimed

  predicate Listed(docket: seq<Hearing>, n: nat) {
    forall k :: 0 <= k < |docket| && docket[k].Heard? ==> docket[k].i < n
  }

  function AdmitDocket(laws: seq<CookedLaw>, docket: seq<Hearing>, ops: nat): (Admission, nat)
    requires Listed(docket, |laws|)
  {
    if docket == [] then (Ok(()), ops)
    else if docket[0].Unclaimed? then (Err(UnclaimedAgency), ops)
    else
      var (r, left) := AdmitLaw(docket[0].c, laws[docket[0].i], ops);
      if r.Err? then (r, left) else AdmitDocket(laws, docket[1..], left)
  }

  /** A body of an island: its own case, and the case of its contact if it has one. */
  datatype BodyCase = BodyCase(free: Case, touch: Touch)

  datatype Touch = Apart | Touching(c: Case) | NoChannel

  function BodyHearings(m: BodyCase, i: nat): seq<Hearing> {
    [Heard(m.free, i)]
    + match m.touch
      case Apart => []
      case Touching(c) => [Heard(c, i)]
      case NoChannel => [Unclaimed]
  }

  /** Law `i` before every body. */
  function LawDocket(i: nat, ms: seq<BodyCase>): seq<Hearing> {
    if ms == [] then [] else BodyHearings(ms[0], i) + LawDocket(i, ms[1..])
  }

  /** Laws `k` up to `n`, each before every body. */
  function PhysDocket(k: nat, n: nat, ms: seq<BodyCase>): seq<Hearing>
    decreases n - k
  {
    if k >= n then [] else LawDocket(k, ms) + PhysDocket(k + 1, n, ms)
  }

  /** Every hearing is of a law there is. */
  lemma {:induction false} PhysListed(k: nat, n: nat, ms: seq<BodyCase>)
    ensures Listed(PhysDocket(k, n, ms), n)
    decreases n - k
  {
    if k < n {
      BodiesListed(k, n, ms);
      PhysListed(k + 1, n, ms);
    }
  }

  lemma {:induction false} BodiesListed(i: nat, n: nat, ms: seq<BodyCase>)
    requires i < n
    ensures Listed(LawDocket(i, ms), n)
    decreases |ms|
  {
    if ms != [] {
      BodiesListed(i, n, ms[1..]);
    }
  }

  lemma {:induction false} DocketConcat(laws: seq<CookedLaw>, a: seq<Hearing>, b: seq<Hearing>, ops: nat)
    requires Listed(a, |laws|) && Listed(b, |laws|)
    ensures Listed(a + b, |laws|)
    ensures AdmitDocket(laws, a + b, ops) ==
      var (r, left) := AdmitDocket(laws, a, ops); if r.Err? then (r, left) else AdmitDocket(laws, b, left)
    decreases |a|
  {
    hide AdmitLaw;
    if a == [] {
      assert a + b == b;
    } else {
      assert (a + b)[0] == a[0] && (a + b)[1..] == a[1..] + b;
      if a[0].Heard? {
        DocketConcat(laws, a[1..], b, AdmitLaw(a[0].c, laws[a[0].i], ops).1);
      }
    }
  }

  method RunRow(c: Case, ix: nat, ctx: Ctx, ops: nat) returns (v: Eval.Verdict, left: nat)
    ensures (v, left) == EvalRow(c, ix, ctx, ops)
  {
    if ix >= |c.preds| {
      return Err(Budget), ops;
    }
    v, left := Eval.EvalPred(c.preds[ix], ctx, ops);
  }

  method CountMarked(c: Case, mark: nat, require: Option<(Rel, CookedSlot)>, ops: nat)
    returns (r: Result<nat, RejectReason>, left: nat)
    ensures (r, left) == CapCount(c, c.loci, mark, require, 0, ops)
  {
    hide EvalRow, Counts;
    var n: nat := 0;
    left := ops;
    for k := 0 to |c.loci|
      invariant CapCount(c, c.loci[k..], mark, require, n, left) == CapCount(c, c.loci, mark, require, 0, ops)
    {
      assert c.loci[k..][0] == c.loci[k] && c.loci[k..][1..] == c.loci[k + 1..];
      if !Counts(c, c.loci[k], require) {
        continue;
      }
      var v;
      v, left := RunRow(c, mark, MarkCtx(c.ctx, c.loci[k]), left);
      if v.Err? {
        return Err(v.error), left;
      }
      if v.value {
        n := AddU16(n);
      }
    }
    return Ok(n), left;
  }

  /** `admit_law`. */
  method CheckLaw(c: Case, law: CookedLaw, ops: nat) returns (r: Admission, left: nat)
    ensures (r, left) == AdmitLaw(c, law, ops)
  {
    hide EvalRow, CapCount, ConserveHolds;
    var applies;
    applies, left := RunRow(c, law.when, c.ctx, ops);
    if applies.Err? {
      return Err(applies.error), left;
    }
    if law.body.CookedPred? && applies.value {
      var v;
      v, left := RunRow(c, law.body.must, c.ctx, left);
      r := if v.Err? then Err(v.error) else if v.value then Ok(()) else Err(LawBroken(law.id));
    } else if law.body.CookedConserve? && applies.value {
      r := if ConserveHolds(c.ctx, law.body.res, law.body.over) then Ok(()) else Err(LawBroken(law.id));
    } else if law.body.CookedCap? {
      if law.body.mark >= |c.preds| {
        return Err(Budget), left;
      }
      var count;
      count, left := CountMarked(c, law.body.mark, law.body.require, left);
      r := if count.Err? then Err(count.error)
           else if count.value > law.body.n then Err(LawBroken(law.id)) else Ok(());
    } else {
      r := Ok(());
    }
  }

  /** `admit_laws`. */
  method CheckLaws(c: Case, laws: seq<CookedLaw>, ops: nat) returns (r: Admission, left: nat)
    ensures (r, left) == AdmitAll(c, laws, ops)
  {
    hide AdmitLaw;
    left := ops;
    for k := 0 to |laws|
      invariant AdmitAll(c, laws[k..], left) == AdmitAll(c, laws, ops)
    {
      assert laws[k..][0] == laws[k] && laws[k..][1..] == laws[k + 1..];
      r, left := CheckLaw(c, laws[k], left);
      if r.Err? {
        return;
      }
    }
    r := Ok(());
  }

  lemma HearBody(laws: seq<CookedLaw>, i: nat, m: BodyCase, ops: nat)
    requires i < |laws|
    ensures Listed(BodyHearings(m, i), |laws|)
    ensures AdmitDocket(laws, BodyHearings(m, i), ops) ==
      var (r, left) := AdmitLaw(m.free, laws[i], ops);
      if r.Err? || m.touch.Apart? then (r, left)
      else if m.touch.NoChannel? then (Err(UnclaimedAgency), left)
      else AdmitLaw(m.touch.c, laws[i], left)
  {
    hide AdmitLaw;
    var docket := BodyHearings(m, i);
    var (r, left) := AdmitLaw(m.free, laws[i], ops);
    assert docket[0] == Heard(m.free, i);
    assert r.Ok? ==> r.value == ();
    if m.touch.Apart? {
      assert docket[1..] == [];
    } else {
      var rest := docket[1..];
      assert |rest| == 1 && rest[1..] == [];
      if m.touch.Touching? {
        assert rest[0] == Heard(m.touch.c, i);
        var (r', left') := AdmitLaw(m.touch.c, laws[i], left);
        assert r'.Ok? ==> r'.value == ();
        assert AdmitDocket(laws, rest, left) == (r', left');
      }
    }
  }

  /** One body before one law: its own case, then its contact. */
  method CheckBody(laws: seq<CookedLaw>, i: nat, m: BodyCase, ops: nat) returns (r: Admission, left: nat)
    requires i < |laws|
    ensures Listed(BodyHearings(m, i), |laws|) && (r, left) == AdmitDocket(laws, BodyHearings(m, i), ops)
  {
    hide AdmitLaw;
    HearBody(laws, i, m, ops);
    r, left := CheckLaw(m.free, laws[i], ops);
    if r.Err? || m.touch.Apart? {
      return;
    }
    if m.touch.NoChannel? {
      return Err(UnclaimedAgency), left;
    }
    r, left := CheckLaw(m.touch.c, laws[i], left);
  }

  /** `admit_phys_laws`. */
  method CheckPhysLaws(laws: seq<CookedLaw>, ms: seq<BodyCase>, ops: nat) returns (r: Admission, left: nat)
    ensures Listed(PhysDocket(0, |laws|, ms), |laws|)
    ensures (r, left) == AdmitDocket(laws, PhysDocket(0, |laws|, ms), ops)
  {
    hide AdmitLaw, AdmitDocket, LawDocket, PhysDocket, BodyHearings;
    r, left := Ok(()), ops;
    PhysListed(0, |laws|, ms);
    for i := 0 to |laws|
      invariant r.Ok? && Listed(PhysDocket(i, |laws|, ms), |laws|)
      invariant AdmitDocket(laws, PhysDocket(i, |laws|, ms), left) == AdmitDocket(laws, PhysDocket(0, |laws|, ms), ops)
    {
      PhysRest(laws, i, ms, left);
      assert ms[0..] == ms;
      for j := 0 to |ms|
        invariant r.Ok? && Listed(Rest(laws, i, ms, j), |laws|)
        invariant AdmitDocket(laws, Rest(laws, i, ms, j), left) == AdmitDocket(laws, PhysDocket(0, |laws|, ms), ops)
      {
        RestStep(laws, i, ms, j, left);
        r, left := CheckBody(laws, i, ms[j], left);
        if r.Err? {
          return;
        }
      }
      RestEnd(laws, i, ms);
    }
    PhysEnd(laws, ms, left);
    assert r.value == ();
  }

  /** What is left of a docket when law `i` has been before the first `j` bodies. */
  function Rest(laws: seq<CookedLaw>, i: nat, ms: seq<BodyCase>, j: nat): seq<Hearing>
    requires j <= |ms|
  {
    LawDocket(i, ms[j..]) + PhysDocket(i + 1, |laws|, ms)
  }

  lemma PhysRest(laws: seq<CookedLaw>, i: nat, ms: seq<BodyCase>, ops: nat)
    requires i < |laws|
    ensures PhysDocket(i, |laws|, ms) == Rest(laws, i, ms, 0)
  {
    assert ms[0..] == ms;
    hide LawDocket;
  }

  lemma RestStep(laws: seq<CookedLaw>, i: nat, ms: seq<BodyCase>, j: nat, ops: nat)
    requires i < |laws| && j < |ms|
    ensures Listed(BodyHearings(ms[j], i), |laws|) && Listed(Rest(laws, i, ms, j + 1), |laws|)
    ensures Listed(Rest(laws, i, ms, j), |laws|)
    ensures AdmitDocket(laws, Rest(laws, i, ms, j), ops) ==
      var (r, left) := AdmitDocket(laws, BodyHearings(ms[j], i), ops);
      if r.Err? then (r, left) else AdmitDocket(laws, Rest(laws, i, ms, j + 1), left)
  {
    BodiesListed(i, |laws|, ms[j + 1..]);
    PhysListed(i + 1, |laws|, ms);
    hide AdmitDocket, PhysDocket;
    assert ms[j..][0] == ms[j] && ms[j..][1..] == ms[j + 1..];
    assert Rest(laws, i, ms, j) == BodyHearings(ms[j], i) + Rest(laws, i, ms, j + 1);
    DocketConcat(laws, BodyHearings(ms[j], i), Rest(laws, i, ms, j + 1), ops);
  }

  lemma RestEnd(laws: seq<CookedLaw>, i: nat, ms: seq<BodyCase>)
    ensures Rest(laws, i, ms, |ms|) == PhysDocket(i + 1, |laws|, ms)
  {
    assert LawDocket(i, ms[|ms|..]) == [];
    hide LawDocket, PhysDocket;
  }

  lemma PhysEnd(laws: seq<CookedLaw>, ms: seq<BodyCase>, ops: nat)
    ensures PhysDocket(|laws|, |laws|, ms) == [] && AdmitDocket(laws, [], ops) == (Ok(()), ops)
  {
  }

  // ---------------------------------------------------------------------------------------------
  // What admission decides.

  /** Row `ix` is the program of the validated predicate `p`, and `says` reads it as its code computes it. */
  ghost predicate RowOf(c: Case, ix: nat, p: Pred, w: Compile.Tables, says: Reading) {
    ix < |c.preds| && CookedAs(p, c.preds[ix], w) && ValidatorAccepts(p, false) && Tells(says, p, w)
  }

  /** `law` is `l` after the cook that ended with tables `w`. */
  ghost predicate CookedLawOf(c: Case, l: Law, law: CookedLaw, w: Compile.Tables, says: Reading) {
    && RowOf(c, law.when, l.when, w, says)
    && match l.body
       case PredLaw(must, _) => law.body.CookedPred? && RowOf(c, law.body.must, must, w, says)
       case RampLaw(_) => law.body.CookedRamp?
       case SpreadLaw(_) => law.body.CookedSpread?
       case ConserveLaw(res, over) => law.body == CookedConserve(Compile.Lookup(w.resources, res), over)
       case CapLaw(mark, n, require) =>
         && law.body.CookedCap? && RowOf(c, law.body.mark, mark, w, says) && law.body.n == n
         && law.body.require == RequireOf(require, w)
  }

  function RequireOf(require: Option<(Rel, Slot)>, w: Compile.Tables): Option<(Rel, CookedSlot)> {
    if require.None? then None else Some((require.value.0, Compile.SlotOf(require.value.1, w)))
  }

  /** How many loci carry the mark and stand in the required relation. */
  ghost function Marked(c: Case, loci: seq<Sigil>, mark: Pred, require: Option<(Rel, CookedSlot)>, says: Reading): nat {
    if loci == [] then 0
    else
      (if Counts(c, loci[0], require) && says(mark, MarkCtx(c.ctx, loci[0])) then 1 else 0)
      + Marked(c, loci[1..], mark, require, says)
  }

  /** The number a cap law limits. */
  ghost function CapTotal(c: Case, l: Law, w: Compile.Tables, says: Reading): nat
    requires l.body.CapLaw?
  {
    Marked(c, c.loci, l.body.mark, RequireOf(l.body.require, w), says)
  }

  /** The law as intended: where its `when` applies, its body is met. */
  ghost predicate LawMet(c: Case, l: Law, w: Compile.Tables, says: Reading) {
    says(l.when, c.ctx) ==>
      match l.body
      case PredLaw(must, _) => says(must, c.ctx)
      case RampLaw(_) => true
      case SpreadLaw(_) => true
      case ConserveLaw(res, over) => ConserveHolds(c.ctx, Compile.Lookup(w.resources, res), over)
      case CapLaw(_, n, _) => CapTotal(c, l, w, says) <= n
  }

  /** What admission lets pass: a cap is enforced whether or not its `when` holds, and its count stops at the
      end of `u16`. */
  ghost predicate Passes(c: Case, l: Law, w: Compile.Tables, says: Reading) {
    if l.body.CapLaw? then Min(CapTotal(c, l, w, says), U16_MAX) <= l.body.n else LawMet(c, l, w, says)
  }

  // ---------------------------------------------------------------------------------------------
  // What it costs.

  function Total(bill: seq<nat>): nat { if bill == [] then 0 else bill[0] + Total(bill[1..]) }

  /** A run of evaluations at these prices answers throughout: none is over its own budget, and together they are
      within the ops at hand. */
  predicate Payable(bill: seq<nat>, ops: nat) {
    Total(bill) <= ops && forall i :: 0 <= i < |bill| ==> bill[i] <= Compile.PRED_OPS_PER_EVAL
  }

  /** The mark, once for each locus in the required relation. */
  function CapBill(c: Case, loci: seq<Sigil>, mark: Pred, require: Option<(Rel, CookedSlot)>, w: Compile.Tables)
    : seq<nat>
  {
    if loci == [] then []
    else
      (if Counts(c, loci[0], require) then [TotalCost(mark, w, MarkCtx(c.ctx, loci[0]))] else [])
      + CapBill(c, loci[1..], mark, require, w)
  }

  /** What a law's body evaluates. */
  ghost function BodyBill(c: Case, l: Law, w: Compile.Tables, says: Reading): seq<nat> {
    match l.body
    case PredLaw(must, _) => if says(l.when, c.ctx) then [TotalCost(must, w, c.ctx)] else []
    case CapLaw(mark, _, require) => CapBill(c, c.loci, mark, RequireOf(require, w), w)
    case _ => []
  }

  /** The price of each evaluation a law takes. */
  ghost function LawBill(c: Case, l: Law, w: Compile.Tables, says: Reading): seq<nat> {
    [TotalCost(l.when, w, c.ctx)] + BodyBill(c, l, w, says)
  }

  lemma PayFirst(x: nat, rest: seq<nat>, ops: nat)
    ensures Total([x] + rest) == x + Total(rest)
    ensures Payable([x] + rest, ops) <==> x <= Min(ops, Compile.PRED_OPS_PER_EVAL) && Payable(rest, ops - x)
  {
    var bill := [x] + rest;
    assert bill[1..] == rest;
    assert forall i :: 0 <= i < |rest| ==> bill[i + 1] == rest[i];
  }

  lemma {:induction false} PayBoth(a: seq<nat>, b: seq<nat>, ops: nat)
    ensures Total(a + b) == Total(a) + Total(b)
    ensures Payable(a + b, ops) <==> Payable(a, ops) && Payable(b, ops - Total(a))
    decreases |a|
  {
    if a == [] {
      assert a + b == b;
    } else {
      assert a + b == [a[0]] + (a[1..] + b) && a == [a[0]] + a[1..];
      PayFirst(a[0], a[1..] + b, ops);
      PayFirst(a[0], a[1..], ops);
      if a[0] <= ops {
        PayBoth(a[1..], b, ops - a[0]);
      } else {
        PayBoth(a[1..], b, 0);
      }
    }
  }

  // ---------------------------------------------------------------------------------------------
  // One law.

  /** An evaluation answers exactly when it is payable, and then as its predicate reads. */
  lemma RowExact(c: Case, ix: nat, p: Pred, w: Compile.Tables, says: Reading, ctx: Ctx, ops: nat)
    requires RowOf(c, ix, p, w, says)
    ensures EvalRow(c, ix, ctx, ops) == Outcome(says(p, ctx), TotalCost(p, w, ctx), ops)
    ensures TotalCost(p, w, ctx) >= 2
  {
    TwoOps(p, w, ctx);
    hide CookedAs, Means, Eval.RunPred, TotalCost, ValidatorAccepts;
    CookedRuns(p, c.preds[ix], w, ctx, ops);
  }

  lemma TwoOps(p: Pred, w: Compile.Tables, ctx: Ctx)
    ensures TotalCost(p, w, ctx) >= 2
  {
    PriceParts(Desugar(p), 0, TopScans(Desugar(p)), w, ctx, None, Compile.PRED_OPS_PER_EVAL);
    hide Price;
  }

  /** A count answers exactly when its bill is payable, and then with all that are marked, up to the end of `u16`. */
  lemma {:induction false} CountExact(c: Case, loci: seq<Sigil>, ix: nat, mark: Pred, require: Option<(Rel, CookedSlot)>,
                                      w: Compile.Tables, says: Reading, n: nat, ops: nat)
    requires RowOf(c, ix, mark, w, says) && n <= U16_MAX
    ensures var (r, left) := CapCount(c, loci, ix, require, n, ops);
      var bill, total := CapBill(c, loci, mark, require, w), Marked(c, loci, mark, require, says);
      && 2 * total <= Total(bill)
      && if Payable(bill, ops) then r == Ok(Min(n + total, U16_MAX)) && left == ops - Total(bill) else r == Err(Budget)
    decreases |loci|
  {
    hide RowOf, EvalRow, Counts, MarkCtx, TotalCost, Payable;
    if loci == [] {
      NothingDue(ops);
    } else if Counts(c, loci[0], require) {
      var ctx := MarkCtx(c.ctx, loci[0]);
      var hit := says(mark, ctx);
      var cost, left := TotalCost(mark, w, ctx), EvalRow(c, ix, ctx, ops).1;
      RowExact(c, ix, mark, w, says, ctx, ops);
      CountExact(c, loci[1..], ix, mark, require, w, says, if hit then AddU16(n) else n, left);
      PayFirst(cost, CapBill(c, loci[1..], mark, require, w), ops);
    } else {
      CountExact(c, loci[1..], ix, mark, require, w, says, n, ops);
      assert [] + CapBill(c, loci[1..], mark, require, w) == CapBill(c, loci[1..], mark, require, w);
    }
  }

  lemma NothingDue(ops: nat)
    ensures Total([]) == 0 && Payable([], ops)
  {
  }

  /** What a law's body answers once its `when` has. */
  lemma BodyExact(c: Case, l: Law, law: CookedLaw, w: Compile.Tables, says: Reading, ops: nat)
    requires CookedLawOf(c, l, law, w, says)
    ensures var (r, left) := AdmitBody(c, law, says(l.when, c.ctx), ops);
      var bill := BodyBill(c, l, w, says);
      if Payable(bill, ops) then r == Verdict(c, l, law, w, says) && left == ops - Total(bill) else r == Err(Budget)
    ensures l.body.CapLaw? ==> 2 * CapTotal(c, l, w, says) <= Total(BodyBill(c, l, w, says))
  {
    hide EvalRow, RowOf, ConserveHolds, CapCount, Marked, Compile.SlotOf, Compile.Lookup, TotalCost, Payable, CapBill;
    NothingDue(ops);
    if l.body.PredLaw? && says(l.when, c.ctx) {
      var cost := TotalCost(l.body.must, w, c.ctx);
      RowExact(c, law.body.must, l.body.must, w, says, c.ctx, ops);
      PayFirst(cost, [], ops);
      assert [cost] + [] == [cost];
      if cost <= ops {
        NothingDue(ops - cost);
      }
    } else if l.body.CapLaw? {
      MarkRow(c, law.body.mark, l.body.mark, w, says);
      CountExact(c, c.loci, law.body.mark, l.body.mark, law.body.require, w, says, 0, ops);
    }
  }

  lemma MarkRow(c: Case, ix: nat, p: Pred, w: Compile.Tables, says: Reading)
    requires RowOf(c, ix, p, w, says)
    ensures ix < |c.preds|
  {
  }

  /** The answer of a law whose evaluations are all paid for. */
  ghost function Verdict(c: Case, l: Law, law: CookedLaw, w: Compile.Tables, says: Reading): Admission {
    if Passes(c, l, w, says) then Ok(()) else Err(LawBroken(law.id))
  }

  /** One law, exactly: with its bill payable it is admitted when it passes and broken when it does not, for that
      bill; with its bill not payable the budget rejects. */
  lemma LawDecides(c: Case, l: Law, law: CookedLaw, w: Compile.Tables, says: Reading, ops: nat)
    requires CookedLawOf(c, l, law, w, says)
    ensures var (r, left) := AdmitLaw(c, law, ops);
      var bill := LawBill(c, l, w, says);
      if Payable(bill, ops) then r == Verdict(c, l, law, w, says) && left == ops - Total(bill) else r == Err(Budget)
    ensures l.body.CapLaw? ==> 2 * CapTotal(c, l, w, says) <= Total(LawBill(c, l, w, says))
  {
    hide EvalRow, RowOf, AdmitBody, CookedLawOf, TotalCost, Payable, BodyBill, Verdict, CapTotal, Total;
    WhenRow(c, l, law, w, says);
    var cost := TotalCost(l.when, w, c.ctx);
    RowExact(c, law.when, l.when, w, says, c.ctx, ops);
    PayFirst(cost, BodyBill(c, l, w, says), ops);
    BodyExact(c, l, law, w, says, if cost <= ops then ops - cost else 0);
  }

  lemma WhenRow(c: Case, l: Law, law: CookedLaw, w: Compile.Tables, says: Reading)
    requires CookedLawOf(c, l, law, w, says)
    ensures RowOf(c, law.when, l.when, w, says)
  {
  }

  /** More predicate ops than this no cap can count past `u16` with. */
  const CAP_EXACT_OPS: nat := 2 * (U16_MAX + 1)

  /** Within that budget an answered cap law decides its count exactly, and agrees with the law as intended
      exactly when its `when` holds or the count is within the cap. */
  lemma CapDecides(c: Case, l: Law, law: CookedLaw, w: Compile.Tables, says: Reading, ops: nat)
    requires CookedLawOf(c, l, law, w, says) && l.body.CapLaw? && ops < CAP_EXACT_OPS
    requires AdmitLaw(c, law, ops).0 != Err(Budget)
    ensures var ok, within := AdmitLaw(c, law, ops).0.Ok?, CapTotal(c, l, w, says) <= l.body.n;
      && (ok <==> within)
      && ((ok <==> LawMet(c, l, w, says)) <==> says(l.when, c.ctx) || within)
  {
    LawDecides(c, l, law, w, says, ops);
    hide CookedLawOf, AdmitLaw, CapTotal;
  }

  /** Under any budget: what passes and what is intended agree exactly when the count is within the cap or just
      one of two things lets a larger count through, a `when` that does not apply or a cap at the end of `u16`. */
  lemma PassesIffMet(c: Case, l: Law, w: Compile.Tables, says: Reading)
    ensures (Passes(c, l, w, says) <==> LawMet(c, l, w, says)) <==>
      l.body.CapLaw? ==>
        CapTotal(c, l, w, says) <= l.body.n || (says(l.when, c.ctx) <==> l.body.n < U16_MAX)
  {
    hide CapTotal;
  }

  ghost predicate CookedLaws(c: Case, ls: seq<Law>, laws: seq<CookedLaw>, w: Compile.Tables, says: Reading) {
    |ls| == |laws| && forall i :: 0 <= i < |ls| ==> CookedLawOf(c, ls[i], laws[i], w, says)
  }

  // ---------------------------------------------------------------------------------------------
  // A docket.

  /** The laws of a docket are cooked from `ls`, for the case each is heard in. */
  ghost predicate Tried(docket: seq<Hearing>, ls: seq<Law>, laws: seq<CookedLaw>, w: Compile.Tables, says: Reading) {
    && |ls| == |laws| && Listed(docket, |laws|)
    && forall k :: 0 <= k < |docket| && docket[k].Heard? ==>
         CookedLawOf(docket[k].c, ls[docket[k].i], laws[docket[k].i], w, says)
  }

  ghost predicate Clears(d: Hearing, ls: seq<Law>, w: Compile.Tables, says: Reading) {
    d.Heard? && d.i < |ls| && Passes(d.c, ls[d.i], w, says)
  }

  ghost predicate AllClear(docket: seq<Hearing>, ls: seq<Law>, w: Compile.Tables, says: Reading) {
    forall k :: 0 <= k < |docket| ==> Clears(docket[k], ls, w, says)
  }

  /** The price of each evaluation up to the first hearing that does not clear. */
  ghost function Due(docket: seq<Hearing>, ls: seq<Law>, w: Compile.Tables, says: Reading): seq<nat>
    requires Listed(docket, |ls|)
  {
    if docket == [] || docket[0].Unclaimed? then []
    else
      LawBill(docket[0].c, ls[docket[0].i], w, says)
      + if Clears(docket[0], ls, w, says) then Due(docket[1..], ls, w, says) else []
  }

  /** The answer when everything is paid for: the first hearing that does not clear decides. */
  ghost function Ruling(docket: seq<Hearing>, ls: seq<Law>, laws: seq<CookedLaw>, w: Compile.Tables, says: Reading)
    : Admission
    requires Listed(docket, |laws|)
  {
    if docket == [] then Ok(())
    else if Clears(docket[0], ls, w, says) then Ruling(docket[1..], ls, laws, w, says)
    else if docket[0].Unclaimed? then Err(UnclaimedAgency)
    else Err(LawBroken(laws[docket[0].i].id))
  }

  /** A docket, exactly: what is due is paid and the ruling given, or the budget rejects. */
  lemma {:induction false} DocketDecides(docket: seq<Hearing>, ls: seq<Law>, laws: seq<CookedLaw>, w: Compile.Tables,
                                         says: Reading, ops: nat)
    requires Tried(docket, ls, laws, w, says)
    ensures var (r, left) := AdmitDocket(laws, docket, ops);
      var due := Due(docket, ls, w, says);
      if Payable(due, ops) then r == Ruling(docket, ls, laws, w, says) && left == ops - Total(due) else r == Err(Budget)
    decreases |docket|
  {
    hide AdmitLaw, CookedLawOf, LawBill, Payable, Passes;
    if docket == [] || docket[0].Unclaimed? {
      NothingDue(ops);
    } else {
      var (c, l, law) := (docket[0].c, ls[docket[0].i], laws[docket[0].i]);
      var bill := LawBill(c, l, w, says);
      var left := AdmitLaw(c, law, ops).1;
      LawDecides(c, l, law, w, says, ops);
      if Passes(c, l, w, says) {
        DocketDecides(docket[1..], ls, laws, w, says, left);
        PayBoth(bill, Due(docket[1..], ls, w, says), ops);
        PaidFor(bill, ops);
      } else {
        assert bill + [] == bill;
      }
    }
  }

  lemma PaidFor(bill: seq<nat>, ops: nat)
    ensures Payable(bill, ops) ==> Total(bill) <= ops
  {
  }

  /** The ruling admits exactly when every hearing clears; otherwise it names the first that does not. */
  lemma {:induction false} RulingFirst(docket: seq<Hearing>, ls: seq<Law>, laws: seq<CookedLaw>, w: Compile.Tables,
                                       says: Reading)
    requires Listed(docket, |laws|)
    ensures var r := Ruling(docket, ls, laws, w, says);
      && (r.Ok? <==> AllClear(docket, ls, w, says))
      && (r.Err? ==>
            exists k :: 0 <= k < |docket| && !Clears(docket[k], ls, w, says)
              && (forall j :: 0 <= j < k ==> Clears(docket[j], ls, w, says))
              && r.error == if docket[k].Unclaimed? then UnclaimedAgency else LawBroken(laws[docket[k].i].id))
    decreases |docket|
  {
    hide Clears;
    if docket != [] && Clears(docket[0], ls, w, says) {
      RulingFirst(docket[1..], ls, laws, w, says);
      var r := Ruling(docket[1..], ls, laws, w, says);
      assert forall k :: 0 <= k < |docket[1..]| ==> docket[1..][k] == docket[k + 1];
      if r.Err? {
        var k :| 0 <= k < |docket[1..]| && !Clears(docket[1..][k], ls, w, says)
          && (forall j :: 0 <= j < k ==> Clears(docket[1..][j], ls, w, says))
          && r.error == if docket[1..][k].Unclaimed? then UnclaimedAgency else LawBroken(laws[docket[1..][k].i].id);
        forall j | 0 <= j < k + 1
          ensures Clears(docket[j], ls, w, says)
        {
          if j > 0 {
            assert Clears(docket[1..][j - 1], ls, w, says);
          }
        }
        assert !Clears(docket[k + 1], ls, w, says);
      } else {
        forall k | 0 <= k < |docket|
          ensures Clears(docket[k], ls, w, says)
        {
          if k > 0 {
            assert Clears(docket[1..][k - 1], ls, w, says);
          }
        }
      }
    }
  }

  // ---------------------------------------------------------------------------------------------
  // All laws before one case.

  /** Laws `k` up to `n` before `c`. */
  function Sitting(c: Case, k: nat, n: nat): (docket: seq<Hearing>)
    requires k <= n
    ensures |docket| == n - k && forall j :: 0 <= j < n - k ==> docket[j] == Heard(c, k + j)
    decreases n - k
  {
    if k == n then [] else [Heard(c, k)] + Sitting(c, k + 1, n)
  }

  lemma {:induction false} SittingIsAll(c: Case, laws: seq<CookedLaw>, k: nat, ops: nat)
    requires k <= |laws|
    ensures AdmitAll(c, laws[k..], ops) == AdmitDocket(laws, Sitting(c, k, |laws|), ops)
    decreases |laws| - k
  {
    hide AdmitLaw;
    if k < |laws| {
      assert laws[k..][0] == laws[k] && laws[k..][1..] == laws[k + 1..];
      var docket := Sitting(c, k, |laws|);
      assert docket[0] == Heard(c, k) && docket[1..] == Sitting(c, k + 1, |laws|);
      SittingIsAll(c, laws, k + 1, AdmitLaw(c, laws[k], ops).1);
    }
  }

  /** What admission evaluates up to the first law that does not pass, and its answer when that is paid for. */
  ghost function LawsDue(c: Case, ls: seq<Law>, w: Compile.Tables, says: Reading): seq<nat> {
    Due(Sitting(c, 0, |ls|), ls, w, says)
  }

  ghost function LawsRuling(c: Case, ls: seq<Law>, laws: seq<CookedLaw>, w: Compile.Tables, says: Reading): Admission
    requires |ls| == |laws|
  {
    Ruling(Sitting(c, 0, |ls|), ls, laws, w, says)
  }

  /** Admission decides the laws, exactly: when what is due is payable it costs just that and gives the ruling;
      otherwise the budget rejects. */
  lemma AdmissionDecides(c: Case, ls: seq<Law>, laws: seq<CookedLaw>, w: Compile.Tables, says: Reading, ops: nat)
    requires CookedLaws(c, ls, laws, w, says)
    ensures var (r, left) := AdmitAll(c, laws, ops);
      var due := LawsDue(c, ls, w, says);
      if Payable(due, ops) then r == LawsRuling(c, ls, laws, w, says) && left == ops - Total(due) else r == Err(Budget)
  {
    hide AdmitDocket, CookedLawOf, Payable, Due, Ruling, AdmitAll;
    assert laws[0..] == laws;
    SittingIsAll(c, laws, 0, ops);
    DocketDecides(Sitting(c, 0, |laws|), ls, laws, w, says, ops);
  }

  /** The ruling passes exactly when every law passes; a broken law it names is the first that does not. */
  lemma RulingNames(c: Case, ls: seq<Law>, laws: seq<CookedLaw>, w: Compile.Tables, says: Reading)
    requires |ls| == |laws|
    ensures match LawsRuling(c, ls, laws, w, says)
      case Ok(_) => forall l :: l in ls ==> Passes(c, l, w, says)
      case Err(e) =>
        exists k :: 0 <= k < |ls| && e == LawBroken(laws[k].id) && !Passes(c, ls[k], w, says)
          && forall j :: 0 <= j < k ==> Passes(c, ls[j], w, says)
  {
    hide Passes, Ruling;
    var docket := Sitting(c, 0, |ls|);
    RulingFirst(docket, ls, laws, w, says);
    assert forall k :: 0 <= k < |ls| ==> docket[k] == Heard(c, k);
    forall k | 0 <= k < |ls|
      ensures Clears(docket[k], ls, w, says) <==> Passes(c, ls[k], w, says)
    {
    }
  }

  /** Admitted exactly when every law passes and every evaluation is payable. */
  lemma AdmittedIff(c: Case, ls: seq<Law>, laws: seq<CookedLaw>, w: Compile.Tables, says: Reading, ops: nat)
    requires CookedLaws(c, ls, laws, w, says)
    ensures AdmitAll(c, laws, ops).0.Ok? <==>
      (forall l :: l in ls ==> Passes(c, l, w, says)) && Payable(LawsDue(c, ls, w, says), ops)
  {
    hide AdmitAll, CookedLawOf, Payable, LawsDue, LawsRuling, Passes;
    AdmissionDecides(c, ls, laws, w, says, ops);
    RulingNames(c, ls, laws, w, says);
  }

  /** Within the cap budget, what admission passes meets every law as intended. */
  lemma AdmittedMeetsLaws(c: Case, ls: seq<Law>, laws: seq<CookedLaw>, w: Compile.Tables, says: Reading, ops: nat)
    requires CookedLaws(c, ls, laws, w, says) && ops < CAP_EXACT_OPS && AdmitAll(c, laws, ops).0.Ok?
    ensures forall l :: l in ls ==> LawMet(c, l, w, says)
  {
    hide *;
    AdmittedIff(c, ls, laws, w, says, ops);
    forall l | l in ls
      ensures LawMet(c, l, w, says)
    {
      var k :| 0 <= k < |ls| && ls[k] == l;
      ReachedMeets(c, ls, laws, w, says, ops, k);
    }
  }

  lemma ReachedMeets(c: Case, ls: seq<Law>, laws: seq<CookedLaw>, w: Compile.Tables, says: Reading, ops: nat, k: nat)
    requires CookedLaws(c, ls, laws, w, says) && ops < CAP_EXACT_OPS && k < |ls|
    requires (forall l :: l in ls ==> Passes(c, l, w, says)) && Payable(LawsDue(c, ls, w, says), ops)
    ensures LawMet(c, ls[k], w, says)
  {
    hide CookedLawOf, Passes, LawMet, Due, Payable, LawBill, CapTotal, AdmitLaw;
    PaidFor(LawsDue(c, ls, w, says), ops);
    BillWithin(c, ls, w, says, 0, k);
    LawDecides(c, ls[k], laws[k], w, says, ops);
    PassedIsMet(c, ls[k], w, says, ops);
  }

  /** The bill of a law that is reached is part of what is due. */
  lemma {:induction false} BillWithin(c: Case, ls: seq<Law>, w: Compile.Tables, says: Reading, k: nat, i: nat)
    requires k <= i < |ls| && forall j :: k <= j < i ==> Passes(c, ls[j], w, says)
    ensures Total(LawBill(c, ls[i], w, says)) <= Total(Due(Sitting(c, k, |ls|), ls, w, says))
    decreases i - k
  {
    hide Passes, LawBill;
    var docket := Sitting(c, k, |ls|);
    assert docket[0] == Heard(c, k) && docket[1..] == Sitting(c, k + 1, |ls|);
    var bill := LawBill(c, ls[k], w, says);
    PayBoth(bill, if Passes(c, ls[k], w, says) then Due(docket[1..], ls, w, says) else [], 0);
    if k < i {
      BillWithin(c, ls, w, says, k + 1, i);
    }
  }

  lemma PassedIsMet(c: Case, l: Law, w: Compile.Tables, says: Reading, ops: nat)
    requires Passes(c, l, w, says) && ops < CAP_EXACT_OPS
    requires l.body.CapLaw? ==> 2 * CapTotal(c, l, w, says) <= ops
    ensures LawMet(c, l, w, says)
  {
    hide CapTotal;
  }

  // ---------------------------------------------------------------------------------------------
  // All laws before every body of an island.

  /** The body passes the law, and so does its contact, whose channel is one. */
  ghost predicate Suits(m: BodyCase, l: Law, w: Compile.Tables, says: Reading) {
    && Passes(m.free, l, w, says) && !m.touch.NoChannel?
    && (m.touch.Touching? ==> Passes(m.touch.c, l, w, says))
  }

  /** Physical admission passes exactly when every body suits every law and what is due is payable. */
  lemma PhysAdmittedIff(ms: seq<BodyCase>, ls: seq<Law>, laws: seq<CookedLaw>, w: Compile.Tables, says: Reading, ops: nat)
    requires forall m :: m in ms ==>
      CookedLaws(m.free, ls, laws, w, says) && (m.touch.Touching? ==> CookedLaws(m.touch.c, ls, laws, w, says))
    requires |ls| == |laws|
    ensures Listed(PhysDocket(0, |laws|, ms), |laws|)
    ensures var docket := PhysDocket(0, |laws|, ms);
      AdmitDocket(laws, docket, ops).0.Ok? <==>
        (forall m, l :: m in ms && l in ls ==> Suits(m, l, w, says)) && Payable(Due(docket, ls, w, says), ops)
  {
    hide AdmitDocket, CookedLawOf, Payable, Due, Ruling, PhysDocket, AllClear, Suits;
    var docket := PhysDocket(0, |laws|, ms);
    PhysListed(0, |laws|, ms);
    PhysTried(0, ms, ls, laws, w, says);
    PhysClears(0, ms, ls, w, says);
    DocketDecides(docket, ls, laws, w, says, ops);
    RulingFirst(docket, ls, laws, w, says);
    assert forall l :: l in ls <==> exists i :: 0 <= i < |ls| && ls[i] == l;
  }

  lemma {:induction false} PhysTried(k: nat, ms: seq<BodyCase>, ls: seq<Law>, laws: seq<CookedLaw>, w: Compile.Tables,
                                     says: Reading)
    requires forall m :: m in ms ==>
      CookedLaws(m.free, ls, laws, w, says) && (m.touch.Touching? ==> CookedLaws(m.touch.c, ls, laws, w, says))
    requires |ls| == |laws|
    ensures Tried(PhysDocket(k, |laws|, ms), ls, laws, w, says)
    decreases |laws| - k
  {
    hide CookedLawOf;
    if k < |laws| {
      BodiesTried(k, ms, ls, laws, w, says);
      PhysTried(k + 1, ms, ls, laws, w, says);
    }
  }

  lemma {:induction false} BodiesTried(i: nat, ms: seq<BodyCase>, ls: seq<Law>, laws: seq<CookedLaw>, w: Compile.Tables,
                                       says: Reading)
    requires forall m :: m in ms ==>
      CookedLaws(m.free, ls, laws, w, says) && (m.touch.Touching? ==> CookedLaws(m.touch.c, ls, laws, w, says))
    requires i < |ls| == |laws|
    ensures Tried(LawDocket(i, ms), ls, laws, w, says)
    decreases |ms|
  {
    hide CookedLawOf;
    if ms != [] {
      BodiesTried(i, ms[1..], ls, laws, w, says);
      assert ms[0] in ms;
    }
  }

  lemma {:induction false} PhysClears(k: nat, ms: seq<BodyCase>, ls: seq<Law>, w: Compile.Tables, says: Reading)
    ensures AllClear(PhysDocket(k, |ls|, ms), ls, w, says) <==>
      forall m, i :: m in ms && k <= i < |ls| ==> Suits(m, ls[i], w, says)
    decreases |ls| - k
  {
    hide Clears, Suits, LawDocket;
    if k < |ls| {
      BodiesClear(k, ms, ls, w, says);
      PhysClears(k + 1, ms, ls, w, says);
      ConcatClears(LawDocket(k, ms), PhysDocket(k + 1, |ls|, ms), ls, w, says);
    }
  }

  lemma ConcatClears(a: seq<Hearing>, b: seq<Hearing>, ls: seq<Law>, w: Compile.Tables, says: Reading)
    ensures AllClear(a + b, ls, w, says) <==> AllClear(a, ls, w, says) && AllClear(b, ls, w, says)
  {
    hide Clears;
    assert forall j :: 0 <= j < |a| ==> (a + b)[j] == a[j];
    assert forall j :: 0 <= j < |b| ==> (a + b)[|a| + j] == b[j];
  }

  lemma {:induction false} BodiesClear(i: nat, ms: seq<BodyCase>, ls: seq<Law>, w: Compile.Tables, says: Reading)
    requires i < |ls|
    ensures AllClear(LawDocket(i, ms), ls, w, says) <==> forall m :: m in ms ==> Suits(m, ls[i], w, says)
    decreases |ms|
  {
    hide Clears, Suits, BodyHearings;
    if ms != [] {
      BodyClears(ms[0], i, ls, w, says);
      BodiesClear(i, ms[1..], ls, w, says);
      ConcatClears(BodyHearings(ms[0], i), LawDocket(i, ms[1..]), ls, w, says);
      assert ms == [ms[0]] + ms[1..];
    }
  }

  lemma BodyClears(m: BodyCase, i: nat, ls: seq<Law>, w: Compile.Tables, says: Reading)
    requires i < |ls|
    ensures AllClear(BodyHearings(m, i), ls, w, says) <==> Suits(m, ls[i], w, says)
  {
    hide Passes;
    var docket := BodyHearings(m, i);
    assert docket[0] == Heard(m.free, i);
    if m.touch.Apart? {
      assert docket == [docket[0]];
    } else {
      assert docket == [docket[0], docket[1]];
      assert m.touch.Touching? ==> docket[1] == Heard(m.touch.c, i);
      assert m.touch.NoChannel? ==> docket[1] == Unclaimed;
    }
  }

  // ---------------------------------------------------------------------------------------------
  // Laws in alarm.

  /** A law in alarm can never be passed where it applies: every proposal in such a context is rejected,
      whatever its budget and however the nested quantifiers of any law are wired. */
  lemma AlarmMeansRejection(c: Case, ls: seq<Law>, laws: seq<CookedLaw>, w: Compile.Tables, ops: nat, a: Law)
    requires CookedLaws(c, ls, laws, w, AsWired(w)) && a in ls && BadMust(a)
    requires Means(a.when, w, c.ctx)
    ensures AdmitAll(c, laws, ops).0.Err?
  {
    hide *;
    AdmittedIff(c, ls, laws, w, AsWired(w), ops);
    BadMustFails(c, a, w);
  }

  lemma BadMustFails(c: Case, a: Law, w: Compile.Tables)
    requires BadMust(a) && Means(a.when, w, c.ctx)
    ensures !Passes(c, a, w, AsWired(w))
  {
    UnsatNeverMeans(a.body.must, w, c.ctx);
    hide Unsat, Desugar, Means;
  }

  /** The same on an island, for any of its bodies. */
  lemma PhysAlarmMeansRejection(ms: seq<BodyCase>, ls: seq<Law>, laws: seq<CookedLaw>, w: Compile.Tables, ops: nat,
                                a: Law, m: BodyCase)
    requires forall b :: b in ms ==>
      CookedLaws(b.free, ls, laws, w, AsWired(w)) && (b.touch.Touching? ==> CookedLaws(b.touch.c, ls, laws, w, AsWired(w)))
    requires |ls| == |laws| && a in ls && BadMust(a) && m in ms && Means(a.when, w, m.free.ctx)
    ensures Listed(PhysDocket(0, |laws|, ms), |laws|)
    ensures AdmitDocket(laws, PhysDocket(0, |laws|, ms), ops).0.Err?
  {
    hide *;
    PhysAdmittedIff(ms, ls, laws, w, AsWired(w), ops);
    BadMustFails(m.free, a, w);
    FreeFails(m, a, w);
  }

  lemma FreeFails(m: BodyCase, a: Law, w: Compile.Tables)
    requires !Passes(m.free, a, w, AsWired(w))
    ensures !Suits(m, a, w, AsWired(w))
  {
    hide Passes;
  }

  /** The law applies and its body fails, as wired. */
  ghost predicate Breaks(l: Law, w: Compile.Tables, ctx: Ctx)
    requires l.body.PredLaw?
  {
    Means(l.when, w, ctx) && !Means(l.body.must, w, ctx)
  }

  /** The code of the predicate answers other than was written. */
  ghost predicate Misreads(p: Pred, w: Compile.Tables, ctx: Ctx) { Means(p, w, ctx) != Holds(p, w, ctx, None) }

  /** Two laws in alarm, exactly: a proposal is rejected just when one of the two breaks as wired, another law does
      not pass, or what is due is not payable.  Where they apply as written and it is admitted all the same, one of
      their four predicates is misread. */
  lemma PairRejectedIff(c: Case, ls: seq<Law>, laws: seq<CookedLaw>, w: Compile.Tables, ops: nat, a: Law, b: Law)
    requires CookedLaws(c, ls, laws, w, AsWired(w)) && a in ls && b in ls && BadPair(a, b)
    ensures AdmitAll(c, laws, ops).0.Err? <==>
      || Breaks(a, w, c.ctx) || Breaks(b, w, c.ctx)
      || (exists l :: l in ls && l != a && l != b && !Passes(c, l, w, AsWired(w)))
      || !Payable(LawsDue(c, ls, w, AsWired(w)), ops)
    ensures Holds(a.when, w, c.ctx, None) && AdmitAll(c, laws, ops).0.Ok? ==>
      || Misreads(a.when, w, c.ctx) || Misreads(b.when, w, c.ctx)
      || Misreads(a.body.must, w, c.ctx) || Misreads(b.body.must, w, c.ctx)
  {
    hide *;
    PredPasses(c, a, w);
    PredPasses(c, b, w);
    AreMusts(a, b);
    AdmittedIff(c, ls, laws, w, AsWired(w), ops);
    PairMisreads(c, w, a, b);
  }

  lemma AreMusts(a: Law, b: Law)
    requires BadPair(a, b)
    ensures a.body.PredLaw? && b.body.PredLaw?
  {
    hide Unsat, Equivalent, Desugar;
  }

  lemma PredPasses(c: Case, l: Law, w: Compile.Tables)
    ensures l.body.PredLaw? ==> (Passes(c, l, w, AsWired(w)) <==> !Breaks(l, w, c.ctx))
  {
    hide Means;
  }

  /** Two laws in alarm that apply as written and break neither are misread somewhere. */
  lemma PairMisreads(c: Case, w: Compile.Tables, a: Law, b: Law)
    requires BadPair(a, b) && a.body.PredLaw? && b.body.PredLaw?
    ensures Holds(a.when, w, c.ctx, None) && !Breaks(a, w, c.ctx) && !Breaks(b, w, c.ctx) ==>
      || Misreads(a.when, w, c.ctx) || Misreads(b.when, w, c.ctx)
      || Misreads(a.body.must, w, c.ctx) || Misreads(b.body.must, w, c.ctx)
  {
    BadPairNeverHolds(a, b, w, c.ctx, None);
    hide BadPair, Means, Holds;
  }

  /** Faithful predicates are not misread: where a pair in alarm applies, it always rejects.  The other laws may be
      wired as they will. */
  lemma PairAlarmMeansRejection(c: Case, ls: seq<Law>, laws: seq<CookedLaw>, w: Compile.Tables, ops: nat, a: Law, b: Law)
    requires CookedLaws(c, ls, laws, w, AsWired(w)) && a in ls && b in ls && BadPair(a, b)
    requires Faithful(a.when) && Faithful(b.when) && Faithful(a.body.must) && Faithful(b.body.must)
    requires Means(a.when, w, c.ctx)
    ensures AdmitAll(c, laws, ops).0.Err?
  {
    PairRejectedIff(c, ls, laws, w, ops, a, b);
    FaithfulMeans(a.when, w, c.ctx);
    FaithfulMeans(b.when, w, c.ctx);
    FaithfulMeans(a.body.must, w, c.ctx);
    FaithfulMeans(b.body.must, w, c.ctx);
    hide CookedLaws, BadPair, AdmitAll, Means, Holds, Payable, LawsDue, Passes, Faithful;
  }
}
