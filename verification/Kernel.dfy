/** One tick of the commit kernel. */
module Kernel {
  // Key order, equivalence classes, admit or reject.

  import opened Prelude
  import opened World
  import opened Sorting
  import opened Proposals
  import opened Admission

  /** An admission with the item it belongs to. */
  datatype Entered = Entered(item: Item, grant: Grant)

  type Reject = (Kind, RejectReason)

  /** What a tick has done so far. */
  datatype Tally = Tally(ledger: Ledger, events: seq<Event>, rejects: seq<Reject>, log: seq<Entered>)

  function Conflicts(cls: seq<Item>): seq<Reject> {
    if cls == [] then [] else [(KindOf(cls[0].p), Conflict)] + Conflicts(cls[1..])
  }

  /** One equivalence class: ambiguous members all lose, identical retries collapse to one admission. */
  function Process(r: Rules, b: Budgets, cls: seq<Item>, t: Tally): Tally
    requires cls != []
  {
    if !Uniform(cls) then t.(rejects := t.rejects + Conflicts(cls))
    else
      var (o, ledger) := AdmitOne(r, b, cls[0].p, t.ledger);
      match o
      case Ok(g) => Tally(ledger, t.events + g.spec.events, t.rejects, t.log + [Entered(cls[0], g)])
      case Err(e) => Tally(ledger, t.events, t.rejects + [(KindOf(cls[0].p), e)], t.log)
  }

  /** The pass over a key-sorted batch. */
  function Run(r: Rules, b: Budgets, s: seq<Item>, t: Tally): Tally
    decreases |s|
  {
    if s == [] then t
    else
      var n := ClassLength(s);
      Run(r, b, s[n..], Process(r, b, s[..n], t))
  }

  function Admitted(r: Rules, b: Budgets, batch: seq<Item>, t: Tally): Tally {
    Run(r, b, Sort(batch, Before), t)
  }

  // ---------------------------------------------------------------------------------------------
  // Arrival order does not matter.

  lemma CountSplit(s: seq<Item>, n: nat, x: Item)
    requires n <= |s|
    ensures multiset(s)[x] == multiset(s[..n])[x] + multiset(s[n..])[x]
  {
    assert s == s[..n] + s[n..];
  }

  /** In a sorted batch the leading class holds every item of its key. */
  lemma ClassCount(s: seq<Item>, x: Item)
    requires s != [] && Sorted(s, Before)
    ensures multiset(s[..ClassLength(s)])[x] == if KeyOf(x) == KeyOf(s[0]) then multiset(s)[x] else 0
  {
    var n := ClassLength(s);
    ClassComplete(s);
    CountSplit(s, n, x);
    if KeyOf(x) == KeyOf(s[0]) {
      assert x !in s[n..];
      assert multiset(s[n..])[x] == 0;
    } else {
      assert x !in s[..n];
      assert multiset(s[..n])[x] == 0;
    }
  }

  /** Two sorted orders of one batch start with the same key. */
  lemma SameFirstKey(a: seq<Item>, b: seq<Item>)
    requires Sorted(a, Before) && Sorted(b, Before) && multiset(a) == multiset(b) && a != []
    ensures b != [] && KeyOf(a[0]) == KeyOf(b[0])
  {
    hide KeyOf, Uniform;
    assert a[0] in multiset(b) && |multiset(a)| == |multiset(b)|;
    assert b[0] in multiset(a);
    var i :| 0 <= i < |b| && b[i] == a[0];
    var j :| 0 <= j < |a| && a[j] == b[0];
    assert KeyLe(KeyOf(b[0]), KeyOf(a[0])) by {
      if i > 0 { assert Before(b[0], b[i]); } else { BeforeTotal(); assert Before(b[0], b[0]); }
    }
    assert KeyLe(KeyOf(a[0]), KeyOf(b[0])) by {
      if j > 0 { assert Before(a[0], a[j]); } else { BeforeTotal(); assert Before(a[0], a[0]); }
    }
    KeyAntisymmetric(KeyOf(a[0]), KeyOf(b[0]));
  }

  /** Two sorted orders of one batch have the same leading class and the same rest, as multisets. */
  lemma SameFirstClass(a: seq<Item>, b: seq<Item>)
    requires Sorted(a, Before) && Sorted(b, Before) && multiset(a) == multiset(b) && a != []
    ensures b != []
    ensures multiset(a[..ClassLength(a)]) == multiset(b[..ClassLength(b)])
    ensures multiset(a[ClassLength(a)..]) == multiset(b[ClassLength(b)..])
  {
    hide KeyOf, ClassLength;
    SameFirstKey(a, b);
    var n, m := ClassLength(a), ClassLength(b);
    forall x
      ensures multiset(a[..n])[x] == multiset(b[..m])[x]
      ensures multiset(a[n..])[x] == multiset(b[m..])[x]
    {
      ClassCount(a, x);
      ClassCount(b, x);
      CountSplit(a, n, x);
      CountSplit(b, m, x);
    }
    assert multiset(a[..n]) == multiset(b[..m]);
    assert multiset(a[n..]) == multiset(b[m..]);
  }

  lemma {:induction false} ConflictsAlike(cls: seq<Item>, kind: Kind, i: nat)
    requires forall it :: it in cls ==> KindOf(it.p) == kind
    requires i < |cls|
    ensures |Conflicts(cls)| == |cls| && Conflicts(cls)[i] == (kind, Conflict)
  {
    if |cls| > 1 {
      ConflictsAlike(cls[1..], kind, if i > 0 then i - 1 else 0);
    }
  }

  /** A class is processed the same in any internal order. */
  lemma ProcessOrder(r: Rules, b: Budgets, x: seq<Item>, y: seq<Item>, t: Tally)
    requires x != [] && y != [] && multiset(x) == multiset(y)
    requires forall i :: 0 <= i < |x| ==> KeyOf(x[i]) == KeyOf(x[0])
    ensures Process(r, b, x, t) == Process(r, b, y, t)
  {
    hide AdmitOne;
    assert |multiset(x)| == |x| && |multiset(y)| == |y|;
    forall it | it in y
      ensures it in x
    {
      assert it in multiset(x);
    }
    forall it | it in x
      ensures it in y
    {
      assert it in multiset(y);
    }
    if Uniform(x) {
      UniformSame(x, y);
    } else {
      var i :| 0 <= i < |x| && x[i].p != x[0].p;
      assert x[i] in y && x[0] in y;
      assert !Uniform(y);
      AmbiguousSame(x, y);
    }
  }

  lemma UniformSame(x: seq<Item>, y: seq<Item>)
    requires x != [] && |x| == |y| && Uniform(x) && forall it :: it in y ==> it in x
    requires forall i :: 0 <= i < |x| ==> KeyOf(x[i]) == KeyOf(x[0])
    ensures Uniform(y) && y[0] == x[0]
  {
    forall i | 0 <= i < |y|
      ensures y[i] == x[0]
    {
      assert y[i] in x;
      var j :| 0 <= j < |x| && x[j] == y[i];
    }
  }

  lemma AmbiguousSame(x: seq<Item>, y: seq<Item>)
    requires x != [] && |x| == |y| && forall it :: it in y ==> it in x
    requires forall i :: 0 <= i < |x| ==> KeyOf(x[i]) == KeyOf(x[0])
    ensures Conflicts(x) == Conflicts(y)
  {
    hide KeyOf, KindOf, Conflicts;
    forall it | it in x
      ensures KindOf(it.p) == KindOf(x[0].p)
    {
      KeyFixesKind(it, x[0]);
    }
    ConflictsAlike(x, KindOf(x[0].p), 0);
    ConflictsAlike(y, KindOf(x[0].p), 0);
    forall i | 0 <= i < |x|
      ensures Conflicts(x)[i] == Conflicts(y)[i]
    {
      ConflictsAlike(x, KindOf(x[0].p), i);
      ConflictsAlike(y, KindOf(x[0].p), i);
    }
  }

  lemma {:induction false} RunOrder(r: Rules, b: Budgets, x: seq<Item>, y: seq<Item>, t: Tally)
    requires Sorted(x, Before) && Sorted(y, Before) && multiset(x) == multiset(y)
    ensures Run(r, b, x, t) == Run(r, b, y, t)
    decreases |x|
  {
    hide Process, KeyOf, ClassLength;
    assert |multiset(x)| == |x| && |multiset(y)| == |y|;
    if x != [] {
      SameFirstClass(x, y);
      ClassComplete(x);
      ClassComplete(y);
      var n, m := ClassLength(x), ClassLength(y);
      ProcessOrder(r, b, x[..n], y[..m], t);
      RunOrder(r, b, x[n..], y[m..], Process(r, b, x[..n], t));
    }
  }

  /** A tick is a function of the multiset of queued proposals: whatever order they arrived in, world,
      ledger, events, rejects and budgets are the same. */
  lemma ArrivalOrderIrrelevant(r: Rules, b: Budgets, x: seq<Item>, y: seq<Item>, t: Tally)
    requires multiset(x) == multiset(y)
    ensures Admitted(r, b, x, t) == Admitted(r, b, y, t)
  {
    hide Run;
    BeforeTotal();
    SortSorted(x, Before);
    SortSorted(y, Before);
    RunOrder(r, b, Sort(x, Before), Sort(y, Before), t);
  }

  // ---------------------------------------------------------------------------------------------
  // Retries.

  /** Every queued item of this key is this very item. */
  predicate Unambiguous(batch: seq<Item>, it: Item) {
    forall q :: q in batch && KeyOf(q) == KeyOf(it) ==> q == it
  }

  /** A second copy next to the first keeps a sorted batch sorted. */
  lemma DoubledSorted(s: seq<Item>, i: nat)
    requires Sorted(s, Before) && i < |s|
    ensures var d := s[..i] + [s[i]] + s[i..];
      Sorted(d, Before) && multiset(d) == multiset(s + [s[i]])
  {
    var d := s[..i] + [s[i]] + s[i..];
    BeforeTotal();
    forall a, c | 0 <= a < c < |d|
      ensures Before(d[a], d[c])
    {
      var x, y := if a <= i then a else a - 1, if c <= i then c else c - 1;
      assert d[a] == s[x] && d[c] == s[y];
    }
    assert s == s[..i] + s[i..];
  }

  lemma RunStep(r: Rules, b: Budgets, s: seq<Item>, t: Tally)
    requires s != []
    ensures var n := ClassLength(s); Run(r, b, s, t) == Run(r, b, s[n..], Process(r, b, s[..n], t))
  {
    hide Process, ClassLength;
  }

  function Doubled(s: seq<Item>, i: nat): seq<Item>
    requires i < |s|
  {
    s[..i] + [s[i]] + s[i..]
  }

  lemma DoubledInHead(r: Rules, b: Budgets, s: seq<Item>, i: nat, t: Tally)
    requires Sorted(s, Before) && s != [] && i < ClassLength(s) && Unambiguous(s, s[i])
    ensures Run(r, b, Doubled(s, i), t) == Run(r, b, s, t)
  {
    hide Process, KeyOf, Run, ClassLength, Unambiguous;
    var d, n := Doubled(s, i), ClassLength(s);
    DoubledHead(s, i);
    UniformProcess(r, b, s[..n], d[..n + 1], t);
    assert d[n + 1..] == s[n..];
    RunStep(r, b, s, t);
    RunStep(r, b, d, t);
  }

  lemma DoubledParts(s: seq<Item>, i: nat, n: nat)
    requires n <= i < |s|
    ensures Doubled(s, i)[..n] == s[..n] && Doubled(s, i)[n..] == Doubled(s[n..], i - n)
    ensures s[n..][i - n] == s[i]
  {
  }

  /** Doubling an item of an unambiguous class changes nothing about the run. */
  lemma {:induction false} RunDoubled(r: Rules, b: Budgets, s: seq<Item>, i: nat, t: Tally)
    requires Sorted(s, Before) && i < |s| && Unambiguous(s, s[i])
    ensures Run(r, b, Doubled(s, i), t) == Run(r, b, s, t)
    decreases |s|
  {
    hide Process, KeyOf, Run, ClassLength, Doubled;
    var n := ClassLength(s);
    ClassComplete(s);
    if i < n {
      DoubledInHead(r, b, s, i, t);
    } else {
      DoubledTail(s, i);
      DoubledParts(s, i, n);
      assert forall q :: q in s[n..] ==> q in s;
      RunDoubled(r, b, s[n..], i - n, Process(r, b, s[..n], t));
      RunStep(r, b, s, t);
      RunStep(r, b, Doubled(s, i), t);
    }
  }

  lemma RunLengthIs(s: seq<Item>, k: Key, n: nat)
    requires n <= |s| && (forall i :: 0 <= i < n ==> KeyOf(s[i]) == k) && (n < |s| ==> KeyOf(s[n]) != k)
    ensures RunLength(s, k) == n
  {
  }

  /** The copy lands in the leading class, which is one longer. */
  lemma DoubledHead(s: seq<Item>, i: nat)
    requires Sorted(s, Before) && s != [] && i < ClassLength(s) && Unambiguous(s, s[i])
    ensures var d, n := Doubled(s, i), ClassLength(s);
      && ClassLength(d) == n + 1
      && (forall k :: 0 <= k < n ==> s[k] == s[0])
      && (forall k :: 0 <= k <= n ==> d[k] == s[0])
  {
    hide KeyOf;
    var d, n := Doubled(s, i), ClassLength(s);
    ClassComplete(s);
    forall k | 0 <= k < n
      ensures s[k] == s[i]
    {
      assert s[k] in s;
    }
    forall k | 0 <= k < |d|
      ensures d[k] == s[if k <= i then k else k - 1]
    {
    }
    RunLengthIs(d, KeyOf(s[0]), n + 1);
  }

  /** The copy lands behind the leading class, which stays. */
  lemma DoubledTail(s: seq<Item>, i: nat)
    requires Sorted(s, Before) && s != [] && ClassLength(s) <= i < |s|
    ensures Doubled(s, i) != [] && ClassLength(Doubled(s, i)) == ClassLength(s)
  {
    hide KeyOf;
    var d, n := Doubled(s, i), ClassLength(s);
    ClassComplete(s);
    forall k | 0 <= k <= i
      ensures d[k] == s[k]
    {
    }
    RunLengthIs(d, KeyOf(s[0]), n);
  }

  lemma UniformProcess(r: Rules, b: Budgets, x: seq<Item>, y: seq<Item>, t: Tally)
    requires x != [] && y != [] && x[0] == y[0]
    requires (forall k :: 0 <= k < |x| ==> x[k] == x[0]) && (forall k :: 0 <= k < |y| ==> y[k] == x[0])
    ensures Process(r, b, x, t) == Process(r, b, y, t)
  {
    hide AdmitOne, Conflicts;
  }

  /** An identical retry of an unambiguous proposal has no effect at all. */
  lemma RetryIdempotent(r: Rules, b: Budgets, batch: seq<Item>, it: Item, t: Tally)
    requires it in batch && Unambiguous(batch, it)
    ensures Admitted(r, b, batch + [it], t) == Admitted(r, b, batch, t)
  {
    hide Run, KeyOf;
    var s := Sort(batch, Before);
    BeforeTotal();
    SortSorted(batch, Before);
    SortElements(batch, Before);
    assert forall q :: q in s <==> q in Elements(s);
    assert it in Elements(batch);
    var i :| 0 <= i < |s| && s[i] == it;
    DoubledSorted(s, i);
    RunDoubled(r, b, s, i, t);
    SortSorted(batch + [it], Before);
    RunOrder(r, b, Sort(batch + [it], Before), Doubled(s, i), t);
  }

  // ---------------------------------------------------------------------------------------------
  // The ledger of a tick.

  /** All cells the log is charged for. */
  ghost function Charged(log: seq<Entered>): set<Cell> {
    if log == [] then {} else Charged(log[..|log| - 1]) + log[|log| - 1].grant.cells
  }

  /** The world after publishing the log's deltas in order. */
  ghost function Replayed(live: Live, log: seq<Entered>): Live {
    if log == [] then live else Publish(Replayed(live, log[..|log| - 1]), log[|log| - 1].grant.spec)
  }

  ghost function EventsOf(log: seq<Entered>): seq<Event> {
    if log == [] then [] else EventsOf(log[..|log| - 1]) + log[|log| - 1].grant.spec.events
  }

  ghost predicate CellsDisjoint(log: seq<Entered>) {
    forall i, j :: 0 <= i < j < |log| ==> log[i].grant.cells !! log[j].grant.cells
  }

  /** The ledger holds exactly the cells of what was admitted, no two admissions share a cell, and the
      world is what their deltas, and nothing else, made of the starting world. */
  ghost predicate Balanced(start: Ledger, t: Tally) {
    && t.ledger.written == start.written + Charged(t.log)
    && CellsDisjoint(t.log)
    && t.ledger.live == Replayed(start.live, t.log)
    && t.events == EventsOf(t.log)
    && t.ledger.riteSteps <= start.riteSteps && t.ledger.predOps <= start.predOps
  }

  lemma {:induction false} ChargedAt(log: seq<Entered>, i: nat)
    requires i < |log|
    ensures log[i].grant.cells <= Charged(log)
  {
    if i < |log| - 1 {
      ChargedAt(log[..|log| - 1], i);
    }
  }

  lemma LogGrows(start: Ledger, t: Tally, e: Entered, ledger: Ledger)
    requires Balanced(start, t) && e.grant.cells !! t.ledger.written
    requires ledger.written == t.ledger.written + e.grant.cells && ledger.live == Publish(t.ledger.live, e.grant.spec)
    requires ledger.riteSteps <= t.ledger.riteSteps && ledger.predOps <= t.ledger.predOps
    ensures Balanced(start, Tally(ledger, t.events + e.grant.spec.events, t.rejects, t.log + [e]))
  {
    hide Publish;
    var log := t.log + [e];
    assert log[..|log| - 1] == t.log;
    forall i, j | 0 <= i < j < |log|
      ensures log[i].grant.cells !! log[j].grant.cells
    {
      if j == |t.log| {
        ChargedAt(t.log, i);
      } else {
        assert log[i] == t.log[i] && log[j] == t.log[j];
      }
    }
  }

  lemma ProcessBalanced(r: Rules, b: Budgets, cls: seq<Item>, start: Ledger, t: Tally)
    requires cls != [] && Balanced(start, t)
    ensures Balanced(start, Process(r, b, cls, t))
  {
    hide AdmitOne, Charged, Replayed, EventsOf, CellsDisjoint;
    if Uniform(cls) {
      var (o, ledger) := AdmitOne(r, b, cls[0].p, t.ledger);
      AdmitOneSettles(r, b, cls[0].p, t.ledger);
      if o.Ok? {
        LogGrows(start, t, Entered(cls[0], o.value), ledger);
      }
    }
  }

  lemma {:induction false} RunBalanced(r: Rules, b: Budgets, s: seq<Item>, start: Ledger, t: Tally)
    requires Balanced(start, t)
    ensures Balanced(start, Run(r, b, s, t))
    decreases |s|
  {
    hide Process, Balanced, ClassLength;
    if s != [] {
      var n := ClassLength(s);
      ProcessBalanced(r, b, s[..n], start, t);
      RunBalanced(r, b, s[n..], start, Process(r, b, s[..n], t));
    }
  }

  /** In every tick, from any world and any budgets, for any batch. */
  lemma TickBalanced(r: Rules, b: Budgets, batch: seq<Item>, start: Ledger, rejects: seq<Reject>)
    ensures Balanced(start, Admitted(r, b, batch, Tally(start, [], rejects, [])))
  {
    hide Run;
    RunBalanced(r, b, Sort(batch, Before), start, Tally(start, [], rejects, []));
  }

  // ---------------------------------------------------------------------------------------------
  // Everybody is answered.

  /** Retries dropped without an answer of their own. */
  function Collapsed(s: seq<Item>): nat
    decreases |s|
  {
    if s == [] then 0
    else
      var n := ClassLength(s);
      (if Uniform(s[..n]) then n - 1 else 0) + Collapsed(s[n..])
  }

  lemma {:induction false} ConflictsCount(cls: seq<Item>)
    ensures |Conflicts(cls)| == |cls|
  {
    if cls != [] {
      ConflictsCount(cls[1..]);
    }
  }

  /** Batch size = admitted + rejected + collapsed retries. */
  lemma {:induction false} EveryItemCounted(r: Rules, b: Budgets, s: seq<Item>, t: Tally)
    ensures var u := Run(r, b, s, t);
      |u.log| - |t.log| + |u.rejects| - |t.rejects| + Collapsed(s) == |s|
    decreases |s|
  {
    hide AdmitOne, Conflicts, ClassLength, Uniform;
    if s != [] {
      var n := ClassLength(s);
      ConflictsCount(s[..n]);
      EveryItemCounted(r, b, s[n..], Process(r, b, s[..n], t));
    }
  }

  /** `t` was only added to. */
  ghost predicate GrewFrom(t: Tally, u: Tally) { t.log <= u.log && t.rejects <= u.rejects }

  lemma {:induction false} RunGrows(r: Rules, b: Budgets, s: seq<Item>, t: Tally)
    ensures GrewFrom(t, Run(r, b, s, t))
    decreases |s|
  {
    hide AdmitOne, Conflicts, ClassLength, Uniform;
    if s != [] {
      var n := ClassLength(s);
      RunGrows(r, b, s[n..], Process(r, b, s[..n], t));
    }
  }

  /** What one equivalence class left: its admission, or its rejects. */
  datatype Slice = Slice(items: seq<Item>, log: seq<Entered>, rejects: seq<Reject>)

  function SliceOf(r: Rules, b: Budgets, cls: seq<Item>, t: Tally): Slice
    requires cls != []
  {
    var u := Process(r, b, cls, t);
    Slice(cls, u.log[Min(|t.log|, |u.log|)..], u.rejects[Min(|t.rejects|, |u.rejects|)..])
  }

  function Slices(r: Rules, b: Budgets, s: seq<Item>, t: Tally): seq<Slice>
    decreases |s|
  {
    if s == [] then []
    else
      var n := ClassLength(s);
      [SliceOf(r, b, s[..n], t)] + Slices(r, b, s[n..], Process(r, b, s[..n], t))
  }

  function ItemsOf(slices: seq<Slice>): seq<Item> {
    if slices == [] then [] else slices[0].items + ItemsOf(slices[1..])
  }

  function LogOf(slices: seq<Slice>): seq<Entered> {
    if slices == [] then [] else slices[0].log + LogOf(slices[1..])
  }

  function RejectsOf(slices: seq<Slice>): seq<Reject> {
    if slices == [] then [] else slices[0].rejects + RejectsOf(slices[1..])
  }

  /** A class of identical items is admitted once or rejected once, under its own item or kind; an ambiguous
      class is not admitted and gets one Conflict for each item. */
  ghost predicate OwnAnswer(x: Slice) {
    && x.items != []
    && if Uniform(x.items) then
         || (|x.log| == 1 && x.log[0].item == x.items[0] && x.rejects == [])
         || (x.log == [] && |x.rejects| == 1 && x.rejects[0].0 == KindOf(x.items[0].p))
       else x.log == [] && x.rejects == Conflicts(x.items)
  }

  lemma SliceOwn(r: Rules, b: Budgets, cls: seq<Item>, t: Tally)
    requires cls != []
    ensures var x, u := SliceOf(r, b, cls, t), Process(r, b, cls, t);
      OwnAnswer(x) && u.log == t.log + x.log && u.rejects == t.rejects + x.rejects
  {
    hide AdmitOne, Conflicts, KindOf;
  }

  /** The batch, its log and its rejects are the classes, one after the other: what was pending before stays in
      front, and each class owns its slice. */
  lemma {:induction false} RunIsSlices(r: Rules, b: Budgets, s: seq<Item>, t: Tally)
    ensures var u, slices := Run(r, b, s, t), Slices(r, b, s, t);
      && ItemsOf(slices) == s && u.log == t.log + LogOf(slices) && u.rejects == t.rejects + RejectsOf(slices)
      && forall k :: 0 <= k < |slices| ==> OwnAnswer(slices[k])
    decreases |s|
  {
    hide AdmitOne, Process, SliceOf, OwnAnswer, ClassLength;
    if s != [] {
      var n := ClassLength(s);
      var mid := Process(r, b, s[..n], t);
      SliceOwn(r, b, s[..n], t);
      SliceItems(r, b, s[..n], t);
      RunIsSlices(r, b, s[n..], mid);
      var x, rest := SliceOf(r, b, s[..n], t), Slices(r, b, s[n..], mid);
      assert Slices(r, b, s, t)[1..] == rest;
      assert s[..n] + s[n..] == s;
      assert t.log + x.log + LogOf(rest) == t.log + (x.log + LogOf(rest));
      assert t.rejects + x.rejects + RejectsOf(rest) == t.rejects + (x.rejects + RejectsOf(rest));
    }
  }

  lemma SliceItems(r: Rules, b: Budgets, cls: seq<Item>, t: Tally)
    requires cls != []
    ensures SliceOf(r, b, cls, t).items == cls
  {
    hide Process;
  }

  /** Slice `k` holds every copy of `it` and of every rival under its key, and nothing else. */
  ghost predicate Owns(s: seq<Item>, slices: seq<Slice>, k: nat, it: Item) {
    && k < |slices|
    && (forall q :: q in slices[k].items <==> q in s && KeyOf(q) == KeyOf(it))
    && (forall j, q :: 0 <= j < |slices| && j != k && q in slices[j].items ==> KeyOf(q) != KeyOf(it))
    && (Uniform(slices[k].items) <==> Unambiguous(s, it))
  }

  lemma {:induction false} EveryItemAnswered(r: Rules, b: Budgets, s: seq<Item>, t: Tally, it: Item)
    requires Sorted(s, Before) && it in s
    ensures exists k :: Owns(s, Slices(r, b, s, t), k, it)
    decreases |s|
  {
    hide KeyOf, KindOf, ClassLength, AdmitOne, Process;
    var n := ClassLength(s);
    ClassComplete(s);
    var mid := Process(r, b, s[..n], t);
    var slices, rest := Slices(r, b, s, t), Slices(r, b, s[n..], mid);
    SliceItems(r, b, s[..n], t);
    assert slices == [SliceOf(r, b, s[..n], t)] + rest;
    SliceKeys(r, b, s[n..], mid);
    Around(s, n);
    hide SliceOf, Slices;
    if KeyOf(it) == KeyOf(s[0]) {
      HeadUniform(s, it);
      assert Owns(s, slices, 0, it);
    } else {
      EveryItemAnswered(r, b, s[n..], mid, it);
      TailUnambiguous(s, it);
      var k :| Owns(s[n..], rest, k, it);
      Shift(s, slices, rest, n, k, it);
    }
  }

  lemma Around(s: seq<Item>, n: nat)
    requires n <= |s|
    ensures forall q :: q in s <==> q in s[..n] || q in s[n..]
  {
    assert s == s[..n] + s[n..];
  }

  lemma Shift(s: seq<Item>, slices: seq<Slice>, rest: seq<Slice>, n: nat, k: nat, it: Item)
    requires slices != [] && slices[1..] == rest && n <= |s| && slices[0].items == s[..n]
    requires Owns(s[n..], rest, k, it) && (Unambiguous(s, it) <==> Unambiguous(s[n..], it))
    requires forall q :: q in s[..n] ==> KeyOf(q) != KeyOf(it)
    ensures Owns(s, slices, k + 1, it)
  {
    hide KeyOf, Uniform, Unambiguous;
    Around(s, n);
    assert slices[k + 1] == rest[k];
    forall j, q | 0 <= j < |slices| && j != k + 1 && q in slices[j].items
      ensures KeyOf(q) != KeyOf(it)
    {
      if j > 0 {
        assert slices[j] == rest[j - 1];
      }
    }
  }

  lemma {:induction false} SliceKeys(r: Rules, b: Budgets, s: seq<Item>, t: Tally)
    ensures forall j, q :: 0 <= j < |Slices(r, b, s, t)| && q in Slices(r, b, s, t)[j].items ==> q in s
    decreases |s|
  {
    hide Process, ClassLength;
    if s != [] {
      var n := ClassLength(s);
      SliceItems(r, b, s[..n], t);
      SliceKeys(r, b, s[n..], Process(r, b, s[..n], t));
      Around(s, n);
    }
  }

  lemma TailUnambiguous(s: seq<Item>, it: Item)
    requires Sorted(s, Before) && s != [] && KeyOf(it) != KeyOf(s[0])
    ensures Unambiguous(s, it) <==> Unambiguous(s[ClassLength(s)..], it)
  {
    hide KeyOf;
    var n := ClassLength(s);
    ClassComplete(s);
    assert s == s[..n] + s[n..];
    forall q | q in s && KeyOf(q) == KeyOf(it)
      ensures q in s[n..]
    {
    }
  }

  lemma HeadUniform(s: seq<Item>, it: Item)
    requires Sorted(s, Before) && it in s && KeyOf(it) == KeyOf(s[0])
    ensures Uniform(s[..ClassLength(s)]) <==> Unambiguous(s, it)
    ensures Uniform(s[..ClassLength(s)]) ==> s[0] == it
  {
    var n := ClassLength(s);
    ClassComplete(s);
    var i :| 0 <= i < |s| && s[i] == it;
    assert i < n && s[..n][i] == it && s[..n][0] == s[0];
    if Uniform(s[..n]) {
      forall q | q in s && KeyOf(q) == KeyOf(it)
        ensures q == it
      {
        var k :| 0 <= k < |s| && s[k] == q;
        assert k < n && s[..n][k] == q;
      }
    }
    if Unambiguous(s, it) {
      forall k | 0 <= k < n
        ensures s[..n][k] == it
      {
        assert s[k] in s;
      }
    }
  }

  /** Nothing of an ambiguous class is ever admitted. */
  lemma {:induction false} GrantsUnambiguous(r: Rules, b: Budgets, s: seq<Item>, t: Tally, k: nat)
    requires Sorted(s, Before) && |t.log| <= k < |Run(r, b, s, t).log|
    ensures var it := Run(r, b, s, t).log[k].item; it in s && Unambiguous(s, it)
    decreases |s|
  {
    hide KeyOf, ClassLength, AdmitOne, Conflicts;
    var n := ClassLength(s);
    ClassComplete(s);
    var p := Process(r, b, s[..n], t);
    RunGrows(r, b, s[n..], p);
    var u := Run(r, b, s, t);
    if k < |p.log| {
      assert u.log[k] == p.log[k];
      assert p.log[k].item == s[0];
      HeadUniform(s, s[0]);
    } else {
      GrantsUnambiguous(r, b, s[n..], p, k);
      var it := u.log[k].item;
      var j :| 0 <= j < |s[n..]| && s[n..][j] == it;
      assert s[n + j] == it;
      TailUnambiguous(s, it);
    }
  }
}
