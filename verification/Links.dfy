/** Reachability and connectivity over finite sets of edges: directed paths, undirected links, and what adding
    one edge does to the components. */
module Links {
  import opened Prelude

  type Edges = set<(Sigil, Sigil)>

  ghost predicate Walk(edges: Edges, p: seq<Sigil>) {
    |p| > 0 && forall i :: 0 <= i < |p| - 1 ==> (p[i], p[i + 1]) in edges
  }

  /** Some walk leads from `a` to `b`. */
  ghost predicate Path(edges: Edges, a: Sigil, b: Sigil) {
    exists p :: Walk(edges, p) && p[0] == a && p[|p| - 1] == b
  }

  /** `t` is reachable from some member of `from`. */
  ghost predicate Reaches(edges: Edges, from: set<Sigil>, t: Sigil) {
    exists s :: s in from && Path(edges, s, t)
  }

  ghost function Flip(edges: Edges): Edges {
    set e | e in edges :: (e.1, e.0)
  }

  ghost function Both(edges: Edges): Edges {
    edges + Flip(edges)
  }

  /** `a` and `b` are joined by an undirected path. */
  ghost predicate Linked(edges: Edges, a: Sigil, b: Sigil) {
    Path(Both(edges), a, b)
  }

  lemma PathRefl(edges: Edges, a: Sigil)
    ensures Path(edges, a, a)
  {
    assert Walk(edges, [a]) && [a][0] == a && [a][|[a]| - 1] == a;
  }

  lemma PathStep(edges: Edges, a: Sigil, b: Sigil, c: Sigil)
    requires Path(edges, a, b) && (b, c) in edges
    ensures Path(edges, a, c)
  {
    var p :| Walk(edges, p) && p[0] == a && p[|p| - 1] == b;
    var q := p + [c];
    assert Walk(edges, q) && q[0] == a && q[|q| - 1] == c;
  }

  lemma PathTrans(edges: Edges, a: Sigil, b: Sigil, c: Sigil)
    requires Path(edges, a, b) && Path(edges, b, c)
    ensures Path(edges, a, c)
  {
    var p :| Walk(edges, p) && p[0] == a && p[|p| - 1] == b;
    var q :| Walk(edges, q) && q[0] == b && q[|q| - 1] == c;
    var r := p + q[1..];
    assert Walk(edges, r) && r[0] == a && r[|r| - 1] == c;
  }

  lemma PathMono(edges: Edges, more: Edges, a: Sigil, b: Sigil)
    requires edges <= more && Path(edges, a, b)
    ensures Path(more, a, b)
  {
    var p :| Walk(edges, p) && p[0] == a && p[|p| - 1] == b;
    assert Walk(more, p);
  }

  /** A set holding `a` and closed under the edges holds everything `a` reaches. */
  lemma ClosedUnderPath(edges: Edges, s: set<Sigil>, a: Sigil, b: Sigil)
    requires a in s && Path(edges, a, b)
    requires forall e :: e in edges && e.0 in s ==> e.1 in s
    ensures b in s
  {
    var p :| Walk(edges, p) && p[0] == a && p[|p| - 1] == b;
    var i := 0;
    while i < |p| - 1
      invariant 0 <= i < |p| && p[i] in s
    {
      assert (p[i], p[i + 1]) in edges;
      i := i + 1;
    }
  }

  lemma LinkedRefl(edges: Edges, a: Sigil)
    ensures Linked(edges, a, a)
  {
    PathRefl(Both(edges), a);
  }

  lemma LinkedTrans(edges: Edges, a: Sigil, b: Sigil, c: Sigil)
    requires Linked(edges, a, b) && Linked(edges, b, c)
    ensures Linked(edges, a, c)
  {
    PathTrans(Both(edges), a, b, c);
  }

  lemma LinkedSym(edges: Edges, a: Sigil, b: Sigil)
    requires Linked(edges, a, b)
    ensures Linked(edges, b, a)
  {
    var both := Both(edges);
    var p :| Walk(both, p) && p[0] == a && p[|p| - 1] == b;
    var i := 0;
    PathRefl(both, a);
    while i < |p| - 1
      invariant 0 <= i < |p| && Path(both, p[i], a)
    {
      var x, y := p[i], p[i + 1];
      assert (x, y) in both;
      assert (y, x) in both by {
        if (x, y) in edges { assert (y, x) in Flip(edges); }
      }
      PathRefl(both, y);
      PathStep(both, y, y, x);
      PathTrans(both, y, x, a);
      i := i + 1;
    }
  }

  lemma LinkedMono(edges: Edges, more: Edges, a: Sigil, b: Sigil)
    requires edges <= more && Linked(edges, a, b)
    ensures Linked(more, a, b)
  {
    PathMono(Both(edges), Both(more), a, b);
  }

  lemma LinkedEdge(edges: Edges, u: Sigil, v: Sigil)
    requires (u, v) in edges
    ensures Linked(edges, u, v) && Linked(edges, v, u)
  {
    var both := Both(edges);
    PathRefl(both, u);
    PathStep(both, u, u, v);
    LinkedSym(edges, u, v);
  }

  /** `a` and `b` are linked once `u` and `v` are joined on top of `edges`. */
  ghost predicate LinkedVia(edges: Edges, u: Sigil, v: Sigil, a: Sigil, b: Sigil) {
    || Linked(edges, a, b)
    || (Linked(edges, a, u) && Linked(edges, v, b))
    || (Linked(edges, a, v) && Linked(edges, u, b))
  }

  lemma LinkedViaStep(edges: Edges, u: Sigil, v: Sigil, a: Sigil, x: Sigil, y: Sigil)
    requires LinkedVia(edges, u, v, a, x) && (x, y) in Both(edges + {(u, v)})
    ensures LinkedVia(edges, u, v, a, y)
  {
    LinkedRefl(edges, u);
    LinkedRefl(edges, v);
    if (x, y) in Both(edges) {
      PathRefl(Both(edges), x);
      PathStep(Both(edges), x, x, y);
      if Linked(edges, a, x) {
        LinkedTrans(edges, a, x, y);
      } else if Linked(edges, a, u) && Linked(edges, v, x) {
        LinkedTrans(edges, v, x, y);
      } else {
        LinkedTrans(edges, u, x, y);
      }
    } else {
      assert (x, y) == (u, v) || (x, y) == (v, u);
    }
  }

  /** Adding one edge merges exactly the two components it touches. */
  lemma LinkedAdd(edges: Edges, u: Sigil, v: Sigil, a: Sigil, b: Sigil)
    ensures Linked(edges + {(u, v)}, a, b) <==> LinkedVia(edges, u, v, a, b)
  {
    var more := edges + {(u, v)};
    if Linked(more, a, b) {
      var p :| Walk(Both(more), p) && p[0] == a && p[|p| - 1] == b;
      LinkedRefl(edges, a);
      var i := 0;
      while i < |p| - 1
        invariant 0 <= i < |p| && LinkedVia(edges, u, v, a, p[i])
      {
        LinkedViaStep(edges, u, v, a, p[i], p[i + 1]);
        i := i + 1;
      }
    }
    if LinkedVia(edges, u, v, a, b) {
      LinkedEdge(more, u, v);
      if Linked(edges, a, b) {
        LinkedMono(edges, more, a, b);
      } else if Linked(edges, a, u) && Linked(edges, v, b) {
        LinkedMono(edges, more, a, u);
        LinkedMono(edges, more, v, b);
        LinkedTrans(more, a, u, v);
        LinkedTrans(more, a, v, b);
      } else {
        LinkedMono(edges, more, a, v);
        LinkedMono(edges, more, u, b);
        LinkedTrans(more, a, v, u);
        LinkedTrans(more, a, u, b);
      }
    }
  }

  /** Without edges every locus is alone. */
  lemma LinkedEmpty(a: Sigil, b: Sigil)
    ensures Linked({}, a, b) <==> a == b
  {
    if a == b {
      LinkedRefl({}, a);
    } else if Linked({}, a, b) {
      ClosedUnderPath(Both({}), {a}, a, b);
    }
  }
}
