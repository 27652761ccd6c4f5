/** What compiled code computes, quantifier by quantifier. */
module Wiring {
  // A scan op runs the payload at the scan counter, and the counter starts from 0 in every scan body.  So the k-th
  // quantifier of a body is not itself but the k-th quantifier of the whole predicate outside scan bodies.

  import opened Prelude
  import opened Pred
  import opened Atoms
  import opened Compile
  import opened Meaning

  /** A quantifier. */
  type Quantifier = p: Pred | p.ExistsRelated? || p.CountRelated? witness ExistsRelated(This, In, EqVerb(0))

  /** The quantifiers of `p` outside scan bodies, in code order. */
  function TopScans(p: Pred): seq<Quantifier> {
    match p
    case And(a, b) => TopScans(a) + TopScans(b)
    case Or(a, b) => TopScans(a) + TopScans(b)
    case Not(a) => TopScans(a)
    case ExistsRelated(_, _, _) => [p]
    case CountRelated(_, _, _, _, _) => [p]
    case _ => []
  }

  function WithBody(q: Quantifier, body: Pred): Quantifier {
    if q.ExistsRelated? then ExistsRelated(q.of, q.rel, body) else CountRelated(q.of, q.rel, body, q.cmp, q.v)
  }

  /** What a scan op pushes when no payload is left. */
  const Never: Pred := And(EqVerb(0), Not(EqVerb(0)))

  /** `p` as code that starts at scan counter `k` runs it: each quantifier becomes the one of `tops` at the
      counter, whose body starts over from 0.  Unfolded to `depth` bodies inside each other. */
  function Rewired(p: Pred, k: nat, tops: seq<Quantifier>, depth: nat): Pred
    decreases depth, 1, p
  {
    match p
    case And(a, b) => And(Rewired(a, k, tops, depth), Rewired(b, k + |TopScans(a)|, tops, depth))
    case Or(a, b) => Or(Rewired(a, k, tops, depth), Rewired(b, k + |TopScans(a)|, tops, depth))
    case Not(a) => Not(Rewired(a, k, tops, depth))
    case ExistsRelated(_, _, _) => RewiredScan(k, tops, depth)
    case CountRelated(_, _, _, _, _) => RewiredScan(k, tops, depth)
    case _ => p
  }

  function RewiredScan(k: nat, tops: seq<Quantifier>, depth: nat): Pred
    decreases depth, 0
  {
    if k >= |tops| then Never
    else if depth == 0 then tops[k]
    else WithBody(tops[k], Rewired(tops[k].body, 0, tops, depth - 1))
  }

  /** More than any evaluation may cost. */
  const UNPAYABLE: nat := PRED_OPS_PER_EVAL + 1

  /** Interpreter ops of the same run.  Past `depth` bodies inside each other it cannot be paid for. */
  function Price(p: Pred, k: nat, tops: seq<Quantifier>, t: Tables, ctx: Ctx, other: Option<Sigil>, depth: nat): nat
    decreases depth, 1, p
  {
    match p
    case And(a, b) => Price(a, k, tops, t, ctx, other, depth) + Price(b, k + |TopScans(a)|, tops, t, ctx, other, depth) + 1
    case Or(a, b) => Price(a, k, tops, t, ctx, other, depth) + Price(b, k + |TopScans(a)|, tops, t, ctx, other, depth) + 1
    case Not(a) => Price(a, k, tops, t, ctx, other, depth) + 1
    case ExistsRelated(_, _, _) => 1 + ScanPrice(k, tops, t, ctx, other, depth)
    case CountRelated(_, _, _, _, _) => 1 + ScanPrice(k, tops, t, ctx, other, depth)
    case _ => 1
  }

  function ScanPrice(k: nat, tops: seq<Quantifier>, t: Tables, ctx: Ctx, other: Option<Sigil>, depth: nat): nat
    decreases depth, 0
  {
    if k >= |tops| then 0
    else
      var neigh := Neighbors(tops[k].of, tops[k].rel, t, ctx, other);
      if depth == 0 then (if neigh == [] then 0 else UNPAYABLE)
      else ListPrice(tops[k].body, tops, t, ctx, neigh, depth - 1)
  }

  function ListPrice(body: Pred, tops: seq<Quantifier>, t: Tables, ctx: Ctx, neigh: seq<Sigil>, depth: nat): nat
    decreases depth, 2, |neigh|
  {
    if neigh == [] then 0
    else
      Price(body, 0, tops, t, ctx, Some(neigh[0]), depth) + 1 + ListPrice(body, tops, t, ctx, neigh[1..], depth)
  }

  // ---------------------------------------------------------------------------------------------
  // What an evaluation computes.

  /** What the compiled code of `p` decides.  Deeper than one op a level nothing can be paid for. */
  ghost predicate Means(p: Pred, t: Tables, ctx: Ctx) {
    Holds(Rewired(Desugar(p), 0, TopScans(Desugar(p)), PRED_OPS_PER_EVAL), t, ctx, None)
  }

  /** Total ops of one evaluation, the final `Halt` included. */
  function TotalCost(p: Pred, t: Tables, ctx: Ctx): nat {
    Price(Desugar(p), 0, TopScans(Desugar(p)), t, ctx, None, PRED_OPS_PER_EVAL) + 1
  }

  lemma RewiredParts(p: Pred, k: nat, tops: seq<Quantifier>, depth: nat)
    ensures var r := Rewired(p, k, tops, depth);
      && (p.And? ==> r == And(Rewired(p.left, k, tops, depth), Rewired(p.right, k + |TopScans(p.left)|, tops, depth)))
      && (p.Or? ==> r == Or(Rewired(p.left, k, tops, depth), Rewired(p.right, k + |TopScans(p.left)|, tops, depth)))
      && (p.Not? ==> r == Not(Rewired(p.inner, k, tops, depth)))
      && (p.ExistsRelated? || p.CountRelated? ==> r == RewiredScan(k, tops, depth))
      && (!IsCombinator(p) ==> r == p)
  {
    hide RewiredScan;
  }

  lemma PriceParts(p: Pred, k: nat, tops: seq<Quantifier>, t: Tables, ctx: Ctx, other: Option<Sigil>, depth: nat)
    ensures var c := Price(p, k, tops, t, ctx, other, depth);
      && (p.And? || p.Or? ==>
            c == Price(p.left, k, tops, t, ctx, other, depth)
              + Price(p.right, k + |TopScans(p.left)|, tops, t, ctx, other, depth) + 1)
      && (p.Not? ==> c == Price(p.inner, k, tops, t, ctx, other, depth) + 1)
      && (p.ExistsRelated? || p.CountRelated? ==> c == ScanPrice(k, tops, t, ctx, other, depth) + 1)
      && (!IsCombinator(p) ==> c == 1)
      && c >= 1
  {
    hide ScanPrice;
  }

  lemma TopParts(p: Pred)
    ensures p.And? || p.Or? ==> TopScans(p) == TopScans(p.left) + TopScans(p.right)
    ensures p.Not? ==> TopScans(p) == TopScans(p.inner)
    ensures p.ExistsRelated? || p.CountRelated? ==> TopScans(p) == [p]
    ensures !IsCombinator(p) ==> TopScans(p) == []
  {
  }

  lemma NeverHolds(t: Tables, ctx: Ctx, other: Option<Sigil>)
    ensures !Holds(Never, t, ctx, other)
  {
    HoldsParts(Never, t, ctx, other);
    HoldsParts(Not(EqVerb(0)), t, ctx, other);
    hide Holds;
  }

  // ---------------------------------------------------------------------------------------------
  // When the code means what was written.

  /** Every quantifier, in scan bodies too, stands where it is found again among `tops`. */
  predicate Echoes(p: Pred, k: nat, tops: seq<Quantifier>) {
    match p
    case And(a, b) => Echoes(a, k, tops) && Echoes(b, k + |TopScans(a)|, tops)
    case Or(a, b) => Echoes(a, k, tops) && Echoes(b, k + |TopScans(a)|, tops)
    case Not(a) => Echoes(a, k, tops)
    case ExistsRelated(_, _, body) => k < |tops| && tops[k] == p && Echoes(body, 0, tops)
    case CountRelated(_, _, body, _, _) => k < |tops| && tops[k] == p && Echoes(body, 0, tops)
    case _ => true
  }

  /** How deep scan bodies lie inside each other. */
  function ScanDepth(p: Pred): nat {
    match p
    case And(a, b) => Max(ScanDepth(a), ScanDepth(b))
    case Or(a, b) => Max(ScanDepth(a), ScanDepth(b))
    case Not(a) => ScanDepth(a)
    case ExistsRelated(_, _, body) => 1 + ScanDepth(body)
    case CountRelated(_, _, body, _, _) => 1 + ScanDepth(body)
    case _ => 0
  }

  /** The compiled code runs every quantifier as written. */
  predicate Faithful(p: Pred) {
    Echoes(Desugar(p), 0, TopScans(Desugar(p))) && ScanDepth(Desugar(p)) <= PRED_OPS_PER_EVAL
  }

  lemma EchoParts(p: Pred, k: nat, tops: seq<Quantifier>)
    ensures p.And? || p.Or? ==>
      && (Echoes(p, k, tops) <==> Echoes(p.left, k, tops) && Echoes(p.right, k + |TopScans(p.left)|, tops))
      && ScanDepth(p) == Max(ScanDepth(p.left), ScanDepth(p.right))
    ensures p.Not? ==> (Echoes(p, k, tops) <==> Echoes(p.inner, k, tops)) && ScanDepth(p) == ScanDepth(p.inner)
    ensures p.ExistsRelated? || p.CountRelated? ==>
      && (Echoes(p, k, tops) <==> k < |tops| && tops[k] == p && Echoes(p.body, 0, tops))
      && ScanDepth(p) == 1 + ScanDepth(p.body)
    ensures !IsCombinator(p) ==> Echoes(p, k, tops) && ScanDepth(p) == 0
  {
    hide TopScans;
  }

  lemma {:induction false} EchoRewired(p: Pred, k: nat, tops: seq<Quantifier>, depth: nat)
    requires Echoes(p, k, tops)
    ensures Rewired(p, k, tops, depth) == p
    decreases p
  {
    if p.And? || p.Or? {
      EchoRewired(p.left, k, tops, depth);
      EchoRewired(p.right, k + |TopScans(p.left)|, tops, depth);
    } else if p.Not? {
      EchoRewired(p.inner, k, tops, depth);
    } else if (p.ExistsRelated? || p.CountRelated?) && depth > 0 {
      EchoRewired(p.body, 0, tops, depth - 1);
    }
  }

  lemma {:induction false} EchoPrice(p: Pred, k: nat, tops: seq<Quantifier>, t: Tables, ctx: Ctx,
                                     other: Option<Sigil>, depth: nat)
    requires Echoes(p, k, tops) && ScanDepth(p) <= depth
    ensures Price(p, k, tops, t, ctx, other, depth) == Cost(p, t, ctx, other)
    decreases p, 0
  {
    hide Neighbors;
    if p.And? || p.Or? {
      EchoPrice(p.left, k, tops, t, ctx, other, depth);
      EchoPrice(p.right, k + |TopScans(p.left)|, tops, t, ctx, other, depth);
    } else if p.Not? {
      EchoPrice(p.inner, k, tops, t, ctx, other, depth);
    } else if p.ExistsRelated? || p.CountRelated? {
      EchoListPrice(p.body, tops, t, ctx, Neighbors(p.of, p.rel, t, ctx, other), depth - 1);
    }
  }

  lemma {:induction false} EchoListPrice(body: Pred, tops: seq<Quantifier>, t: Tables, ctx: Ctx, neigh: seq<Sigil>,
                                         depth: nat)
    requires Echoes(body, 0, tops) && ScanDepth(body) <= depth
    ensures ListPrice(body, tops, t, ctx, neigh, depth) == ListCost(body, t, ctx, neigh)
    decreases body, 1, |neigh|
  {
    hide Price, Cost, Echoes, ScanDepth;
    if neigh != [] {
      EchoPrice(body, 0, tops, t, ctx, Some(neigh[0]), depth);
      EchoListPrice(body, tops, t, ctx, neigh[1..], depth);
    }
  }

  /** Faithful code decides the authored meaning and charges the authored cost. */
  lemma FaithfulMeans(p: Pred, t: Tables, ctx: Ctx)
    requires Faithful(p)
    ensures Means(p, t, ctx) == Holds(p, t, ctx, None)
    ensures TotalCost(p, t, ctx) == Cost(Desugar(p), t, ctx, None) + 1
  {
    var d := Desugar(p);
    EchoRewired(d, 0, TopScans(d), PRED_OPS_PER_EVAL);
    EchoPrice(d, 0, TopScans(d), t, ctx, None, PRED_OPS_PER_EVAL);
    hide Holds, Rewired, Price, Cost, Echoes;
    DesugarHolds(p, t, ctx, None);
  }

  /** A predicate with quantifier-free scan bodies is faithful. */
  lemma FlatFaithful(p: Pred)
    requires Flat(Desugar(p))
    ensures Faithful(p)
  {
    var d := Desugar(p);
    hide Desugar, Echoes, TopScans, ScanDepth;
    assert [] + TopScans(d) + [] == TopScans(d);
    FlatEchoes(d, [], []);
  }

  lemma {:induction false} FlatEchoes(p: Pred, before: seq<Quantifier>, after: seq<Quantifier>)
    requires Flat(p)
    ensures Echoes(p, |before|, before + TopScans(p) + after)
    ensures ScanDepth(p) <= 1
    decreases p
  {
    var tops := before + TopScans(p) + after;
    if p.And? || p.Or? {
      var l, r := TopScans(p.left), TopScans(p.right);
      FlatEchoes(p.left, before, r + after);
      FlatEchoes(p.right, before + l, after);
      assert before + l + (r + after) == tops && before + l + r + after == tops;
    } else if p.Not? {
      FlatEchoes(p.inner, before, after);
    } else if p.ExistsRelated? || p.CountRelated? {
      QuantifierFreeEchoes(p.body, 0, tops);
      assert tops[|before|] == p;
    }
  }

  lemma {:induction false} QuantifierFreeEchoes(p: Pred, k: nat, tops: seq<Quantifier>)
    requires QuantifierFree(p)
    ensures Echoes(p, k, tops) && ScanDepth(p) == 0 && TopScans(p) == []
    decreases p
  {
    if p.And? || p.Or? {
      QuantifierFreeEchoes(p.left, k, tops);
      QuantifierFreeEchoes(p.right, k, tops);
    } else if p.Not? {
      QuantifierFreeEchoes(p.inner, k, tops);
    }
  }

  // ---------------------------------------------------------------------------------------------
  // Readings.

  /** How predicates are read: as authored, or as wired. */
  type Reading = (Pred, Ctx) -> bool

  ghost function AsAuthored(w: Tables): Reading { (p: Pred, ctx: Ctx) => Holds(p, w, ctx, None) }

  ghost function AsWired(w: Tables): Reading { (p: Pred, ctx: Ctx) => Means(p, w, ctx) }

  /** The reading of this predicate is what its code computes. */
  ghost predicate Tells(says: Reading, p: Pred, w: Tables) {
    forall ctx: Ctx :: says(p, ctx) == Means(p, w, ctx)
  }

  lemma FaithfulTells(p: Pred, w: Tables)
    requires Faithful(p)
    ensures Tells(AsAuthored(w), p, w)
  {
    hide Holds, Means, Faithful;
    forall ctx: Ctx
      ensures AsAuthored(w)(p, ctx) == Means(p, w, ctx)
    {
      FaithfulMeans(p, w, ctx);
    }
  }
}
