/** The compiler as the program runs it: one shared interner, and tables and code that are appended to in
    place. */
module Emitter {
  import opened Prelude
  import opened Pred
  import opened Atoms
  import opened Compile
  import opened Distinct

  /** Shared intern tables for one cook. */
  class Interner {
    var affordances: map<Name, nat>
    var resources: map<Name, nat>
    var rites: map<Name, nat>
    var facts: map<Name, nat>
    var pins: map<Name, nat>
    var strictPins: bool

    ghost function View(): Tables
      reads this
    {
      Tables(affordances, resources, rites, facts, pins, strictPins)
    }

    constructor ()
      ensures View() == NoTables
    {
      affordances, resources, rites, facts, pins := map[], map[], map[], map[], map[];
      strictPins := false;
    }

    /** Known names keep their id; a new name takes the next dense id while it fits in `u16`. */
    method InternAffordance(n: Name) returns (r: Result<nat, CookError>)
      modifies this
      ensures match CookAffordance(old(View()), n)
        case Ok(t) => View() == t && r == Ok(t.affordances[n]) && n in t.affordances
        case Err(e) => View() == old(View()) && r == Err(e)
    {
      if n in affordances {
        return Ok(affordances[n]);
      }
      var id := |affordances|;
      if id > U16_MAX {
        return Err(TableFull);
      }
      affordances := affordances[n := id];
      return Ok(id);
    }

    method InternResource(n: Name) returns (r: Result<nat, CookError>)
      modifies this
      ensures match CookResource(old(View()), n)
        case Ok(t) => View() == t && r == Ok(t.resources[n]) && n in t.resources
        case Err(e) => View() == old(View()) && r == Err(e)
    {
      if n in resources {
        return Ok(resources[n]);
      }
      var id := |resources|;
      if id > U8_MAX {
        return Err(TableFull);
      }
      resources := resources[n := id];
      return Ok(id);
    }

    method InternRite(n: Name) returns (r: Result<nat, CookError>)
      modifies this
      ensures match CookRite(old(View()), n)
        case Ok(t) => View() == t && r == Ok(t.rites[n]) && n in t.rites
        case Err(e) => View() == old(View()) && r == Err(e)
    {
      if n in rites {
        return Ok(rites[n]);
      }
      var id := |rites|;
      if id > U16_MAX {
        return Err(TableFull);
      }
      rites := rites[n := id];
      return Ok(id);
    }

    method InternFact(n: Name) returns (r: Result<nat, CookError>)
      modifies this
      ensures match CookFact(old(View()), n)
        case Ok(t) => View() == t && r == Ok(t.facts[n]) && n in t.facts
        case Err(e) => View() == old(View()) && r == Err(e)
    {
      if n in facts {
        return Ok(facts[n]);
      }
      var id := |facts|;
      if id > U16_MAX {
        return Err(TableFull);
      }
      facts := facts[n := id];
      return Ok(id);
    }

    /** Bind a slot; an unseen name is an error once the pins are closed. */
    method BindSlot(s: Slot) returns (r: Result<CookedSlot, CookError>)
      modifies this
      ensures match CookSlot(old(View()), s)
        case Ok(t) => View() == t && r == Ok(SlotOf(s, t))
        case Err(e) => View() == old(View()) && r == Err(e)
    {
      match s
      case This => return Ok(ThisSlot);
      case Target => return Ok(TargetSlot);
      case Other => return Ok(OtherSlot);
      case Named(n) =>
        if n in pins {
          return Ok(Pin(pins[n]));
        }
        if strictPins {
          return Err(UnboundName(n));
        }
        var id := |pins|;
        if id > U16_MAX {
          return Err(TableFull);
        }
        pins := pins[n := id];
        return Ok(Pin(id));
    }

    method BindSlots(a: Slot, b: Slot) returns (r: Result<(CookedSlot, CookedSlot), CookError>)
      modifies this
      ensures match CookSlots(old(View()), a, b)
        case Ok(t) => View() == t && r == Ok((SlotOf(a, t), SlotOf(b, t)))
        case Err(e) => r == Err(e)
    {
      ghost var t0 := View();
      var x := BindSlot(a);
      if x.Err? {
        return Err(x.error);
      }
      ghost var t1 := View();
      SlotStep(t0, a);
      var y := BindSlot(b);
      if y.Err? {
        return Err(y.error);
      }
      SlotStep(t1, b);
      return Ok((x.value, y.value));
    }

    /** Cook one atom, interning its names left to right. */
    method CookAtom(p: Pred) returns (r: Result<Atom, CookError>)
      requires IsAtom(p)
      modifies this
      ensures match CookAtomNames(p, old(View()))
        case Ok(t) => View() == t && r == Ok(AtomOf(p, t))
        case Err(e) => r == Err(e)
    {
      if p.Affordance? || p.Qty? || p.Knows? {
        r := CookNamed(p);
      } else if p.RelIs? || p.AabbNear? || p.InPlace? {
        r := CookPair(p);
      } else if p.IslandAwake? || p.SelfIs? || p.TargetIs? || p.OtherIs? || p.RayHits? || p.SimLodIs? {
        r := CookUnary(p);
      } else if p.RiteActive? || p.InWindow? {
        var id := InternRite(p.n);
        if id.Err? { return Err(id.error); }
        return Ok(if p.RiteActive? then RiteActiveAtom(id.value) else InWindowAtom(id.value, p.ch));
      } else if p.EqVerb? {
        return Ok(EqVerbAtom(p.verb));
      } else if p.SourceIs? {
        return Ok(SourceIsAtom(p.source));
      } else if p.AgencyClaimed? {
        return Ok(AgencyClaimedAtom(p.ch));
      } else {
        return Ok(SweptHitsAtom);
      }
    }

    /** The atoms that cook a slot and then intern a name. */
    method CookNamed(p: Pred) returns (r: Result<Atom, CookError>)
      requires p.Affordance? || p.Qty? || p.Knows?
      modifies this
      ensures match CookAtomNames(p, old(View()))
        case Ok(t) => View() == t && r == Ok(AtomOf(p, t))
        case Err(e) => r == Err(e)
    {
      var x := BindSlot(p.s);
      if x.Err? { return Err(x.error); }
      var id;
      if p.Affordance? {
        id := InternAffordance(p.n);
      } else if p.Qty? {
        id := InternResource(p.n);
      } else {
        id := InternFact(p.n);
      }
      if id.Err? { return Err(id.error); }
      if p.Affordance? {
        return Ok(AffordanceAtom(x.value, id.value));
      } else if p.Qty? {
        return Ok(QtyAtom(x.value, id.value, p.cmp, p.v));
      } else {
        return Ok(KnowsAtom(x.value, id.value));
      }
    }

    /** The atoms that cook two slots. */
    method CookPair(p: Pred) returns (r: Result<Atom, CookError>)
      requires p.RelIs? || p.AabbNear? || p.InPlace?
      modifies this
      ensures match CookAtomNames(p, old(View()))
        case Ok(t) => View() == t && r == Ok(AtomOf(p, t))
        case Err(e) => r == Err(e)
    {
      var xy := BindSlots(if p.InPlace? then p.s else p.a, if p.InPlace? then p.p else p.b);
      if xy.Err? { return Err(xy.error); }
      var (x, y) := xy.value;
      if p.RelIs? {
        return Ok(RelAtom(x, p.r, y));
      } else if p.AabbNear? {
        return Ok(AabbNearAtom(x, y, p.mm));
      } else {
        return Ok(InPlaceAtom(x, y));
      }
    }

    /** The atoms that cook one slot and nothing else. */
    method CookUnary(p: Pred) returns (r: Result<Atom, CookError>)
      requires p.IslandAwake? || p.SelfIs? || p.TargetIs? || p.OtherIs? || p.RayHits? || p.SimLodIs?
      modifies this
      ensures match CookAtomNames(p, old(View()))
        case Ok(t) => View() == t && r == Ok(AtomOf(p, t))
        case Err(e) => r == Err(e)
    {
      var x := BindSlot(if p.RayHits? then p.from else p.s);
      if x.Err? { return Err(x.error); }
      if p.IslandAwake? {
        return Ok(IslandAwakeAtom(x.value));
      } else if p.SelfIs? {
        return Ok(SelfIsAtom(x.value));
      } else if p.TargetIs? {
        return Ok(TargetIsAtom(x.value));
      } else if p.OtherIs? {
        return Ok(OtherIsAtom(x.value));
      } else if p.RayHits? {
        return Ok(RayHitsAtom(x.value, p.dir, p.maxMm, p.mask));
      } else {
        return Ok(SimLodIsAtom(x.value, p.lod));
      }
    }
  }

  /** `intern_atom`: the position of an equal atom, or the next one. */
  method InternAtom(atom: Atom, table0: seq<Atom>) returns (ix: nat, table: seq<Atom>)
    ensures table == AddAtom(table0, atom) && ix == AtomIx(table, atom)
  {
    table := table0;
    for i := 0 to |table0|
      invariant forall j :: 0 <= j < i ==> table0[j] != atom
    {
      if table0[i] == atom {
        IndexIsFirst(table0, atom, i);
        return i % (U16_MAX + 1), table0;
      }
    }
    table := table0 + [atom];
    IndexIsFirst(table, atom, |table0|);
    ix := |table0| % (U16_MAX + 1);
  }

  lemma {:induction false} IndexIsFirst(table: seq<Atom>, atom: Atom, i: nat)
    requires i < |table| && table[i] == atom && forall j :: 0 <= j < i ==> table[j] != atom
    ensures IndexIn(table, atom) == i
  {
    if i > 0 {
      IndexIsFirst(table[1..], atom, i - 1);
    }
  }

  /** What emitting `p` on top of the given tables and code produces. */
  ghost predicate Emitted(p: Pred, t: Tables, atoms0: seq<Atom>, scans0: seq<Scan>, ops0: seq<Op>,
                          u: Tables, atoms: seq<Atom>, scans: seq<Scan>, ops: seq<Op>)
  {
    && CookNames(p, t) == Ok(u)
    && atoms == AddAtoms(atoms0, AtomsMet(p, u))
    && scans == scans0 + ScansOf(p, u, atoms)
    && ops == ops0 + Postfix(p, u, atoms)
  }

  lemma EmittedBoth(p: Pred, a: Pred, b: Pred, op: Op, t: Tables, u: Tables, w: Tables,
                    atoms0: seq<Atom>, atoms1: seq<Atom>, atoms2: seq<Atom>,
                    scans0: seq<Scan>, scans1: seq<Scan>, scans2: seq<Scan>,
                    ops0: seq<Op>, ops1: seq<Op>, ops2: seq<Op>)
    requires (p == And(a, b) && op == AndOp) || (p == Or(a, b) && op == OrOp)
    requires SugarFree(a) && SugarFree(b)
    requires Emitted(a, t, atoms0, scans0, ops0, u, atoms1, scans1, ops1)
    requires Emitted(b, u, atoms1, scans1, ops1, w, atoms2, scans2, ops2)
    ensures Emitted(p, t, atoms0, scans0, ops0, w, atoms2, scans2, ops2 + [op])
  {
    NamesStep(a, t);
    NamesStep(b, u);
    hide Grows, HasNames, BodiesFit, SugarFree, AddAtoms;
    AtomsMetStable(a, u, w);
    AddAtomsFacts(atoms0, AtomsMet(a, u));
    AddAtomsFacts(atoms1, AtomsMet(b, w));
    AddAtomsConcat(atoms0, AtomsMet(a, w), AtomsMet(b, w));
    PostfixStable(a, u, w, atoms1, atoms2);
    ScansStable(a, u, w, atoms1, atoms2);
    EmittedJoin(p, a, b, op, w, atoms2, scans0, ops0);
  }

  lemma EmittedJoin(p: Pred, a: Pred, b: Pred, op: Op, w: Tables, table: seq<Atom>,
                    scans0: seq<Scan>, ops0: seq<Op>)
    requires (p == And(a, b) && op == AndOp) || (p == Or(a, b) && op == OrOp)
    ensures (scans0 + ScansOf(a, w, table)) + ScansOf(b, w, table) == scans0 + ScansOf(p, w, table)
    ensures (ops0 + Postfix(a, w, table)) + Postfix(b, w, table) + [op] == ops0 + Postfix(p, w, table)
  {
    var x, y := Postfix(a, w, table), Postfix(b, w, table);
    var sx, sy := ScansOf(a, w, table), ScansOf(b, w, table);
    assert Postfix(p, w, table) == x + y + [op] && ScansOf(p, w, table) == sx + sy;
    hide *;
    ConcatAssoc(ops0, x, y);
    ConcatAssoc(ops0, x + y, [op]);
    ConcatAssoc(scans0, sx, sy);
  }

  lemma ConcatAssoc<T>(a: seq<T>, b: seq<T>, c: seq<T>)
    ensures (a + b) + c == a + (b + c)
  {
  }

  lemma EmittedAtom(p: Pred, t: Tables, u: Tables, atoms0: seq<Atom>, scans0: seq<Scan>,
                    ops0: seq<Op>, atoms: seq<Atom>)
    requires IsAtom(p) && CookAtomNames(p, t) == Ok(u)
    requires atoms == AddAtom(atoms0, AtomOf(p, u))
    ensures Emitted(p, t, atoms0, scans0, ops0, u, atoms, scans0,
                    ops0 + [PushAtom(AtomIx(atoms, AtomOf(p, u)))])
  {
    var more := AtomsMet(p, u);
    assert more == [AtomOf(p, u)] && more[1..] == [];
  }

  lemma EmittedScan(p: Pred, t: Tables, u: Tables, w: Tables, atoms0: seq<Atom>, atoms: seq<Atom>,
                    dropped: seq<Scan>, code: seq<Op>, scans0: seq<Scan>, ops0: seq<Op>)
    requires (p.ExistsRelated? || p.CountRelated?) && SugarFree(p)
    requires Emitted(p.body, t, atoms0, [], [], u, atoms, dropped, code)
    requires |code| + 1 <= PRED_OPS_PER_EVAL && CookSlot(u, p.of) == Ok(w)
    ensures var count := if p.ExistsRelated? then None else Some((p.cmp, p.v));
      Emitted(p, t, atoms0, scans0, ops0, w, atoms,
              scans0 + [Scan(SlotOf(p.of, w), p.rel, code + [Halt], count)],
              ops0 + [if p.ExistsRelated? then ExistsOp else CountOp])
  {
    NamesStep(p.body, t);
    SlotStep(u, p.of);
    assert CookNames(p, t) == Ok(w);
    hide Grows, HasNames, BodiesFit, SugarFree, AddAtoms, CookNames;
    AtomsMetStable(p.body, u, w);
    AddAtomsFacts(atoms0, AtomsMet(p.body, u));
    PostfixStable(p.body, u, w, atoms, atoms);
    assert code == Postfix(p.body, u, atoms);
  }

  /** `emit` and, for scan bodies, `emit_nested`: a body is emitted into fresh code and its own scan
      list, which is then dropped. */
  method Emit(p: Pred, intern: Interner, atoms0: seq<Atom>, scans0: seq<Scan>, ops0: seq<Op>)
    returns (failed: Option<CookError>, atoms: seq<Atom>, scans: seq<Scan>, ops: seq<Op>)
    requires SugarFree(p)
    modifies intern
    ensures failed.None? ==>
      Emitted(p, old(intern.View()), atoms0, scans0, ops0, intern.View(), atoms, scans, ops)
    ensures failed.Some? ==> CookNames(p, old(intern.View())) == Err(failed.value)
    decreases p
  {
    ghost var t := intern.View();
    failed, atoms, scans, ops := None, atoms0, scans0, ops0;
    if p.And? || p.Or? {
      failed, atoms, scans, ops := Emit(p.left, intern, atoms, scans, ops);
      if failed.Some? { return; }
      ghost var u, atoms1, scans1, ops1 := intern.View(), atoms, scans, ops;
      failed, atoms, scans, ops := Emit(p.right, intern, atoms, scans, ops);
      if failed.Some? { return; }
      var op := if p.And? then AndOp else OrOp;
      EmittedBoth(p, p.left, p.right, op, t, u, intern.View(), atoms0, atoms1, atoms,
                  scans0, scans1, scans, ops0, ops1, ops);
      ops := ops + [op];
    } else if p.Not? {
      failed, atoms, scans, ops := Emit(p.inner, intern, atoms, scans, ops);
      if failed.Some? { return; }
      ops := ops + [NotOp];
    } else if p.ExistsRelated? || p.CountRelated? {
      var dropped: seq<Scan>, code: seq<Op>;
      failed, atoms, dropped, code := Emit(p.body, intern, atoms, [], []);
      if failed.Some? { return; }
      ghost var u := intern.View();
      if |code| + 1 > PRED_OPS_PER_EVAL {
        failed := Some(PredTooLarge);
        return;
      }
      var of := intern.BindSlot(p.of);
      if of.Err? {
        failed := Some(of.error);
        return;
      }
      EmittedScan(p, t, u, intern.View(), atoms0, atoms, dropped, code, scans0, ops0);
      scans := scans + [Scan(of.value, p.rel, code + [Halt],
                             if p.ExistsRelated? then None else Some((p.cmp, p.v)))];
      ops := ops + [if p.ExistsRelated? then ExistsOp else CountOp];
    } else {
      var atom := intern.CookAtom(p);
      if atom.Err? {
        failed := Some(atom.error);
        return;
      }
      var ix: nat;
      ix, atoms := InternAtom(atom.value, atoms);
      EmittedAtom(p, t, intern.View(), atoms0, scans0, ops0, atoms);
      ops := ops + [PushAtom(ix)];
    }
  }

  lemma EmittedAlone(p: Pred, t: Tables, u: Tables, atoms: seq<Atom>, scans: seq<Scan>, ops: seq<Op>)
    requires Emitted(p, t, [], [], [], u, atoms, scans, ops)
    ensures CookNames(p, t) == Ok(u) && atoms == AddAtoms([], AtomsMet(p, u))
    ensures scans == ScansOf(p, u, atoms) && ops == Postfix(p, u, atoms)
  {
  }

  /** `compile_pred_with`. */
  method CompilePredWith(p: Pred, intern: Interner) returns (r: Result<Program, CookError>)
    modifies intern
    ensures match Compiled(p, old(intern.View()))
      case Ok((prog, t)) => r == Ok(prog) && intern.View() == t
      case Err(e) => r == Err(e)
  {
    DesugarSugarFree(p);
    var failed, atoms, scans, ops := Emit(Desugar(p), intern, [], [], []);
    if failed.Some? {
      return Err(failed.value);
    }
    EmittedAlone(Desugar(p), old(intern.View()), intern.View(), atoms, scans, ops);
    ops := ops + [Halt];
    if |ops| > PRED_OPS_PER_EVAL {
      return Err(PredTooLarge);
    }
    return Ok(Program(ops, atoms, scans));
  }
}
