/** Segment against box, exactly. */
module Slab {
  // The three integer copies of rational slab clipping.

  import opened Prelude
  import opened Space

  /** A fraction, its denominator positive where a comment does not say otherwise. */
  datatype Frac = Frac(n: int, d: int)

  const ZERO: Frac := Frac(0, 1)
  const ONE: Frac := Frac(1, 1)

  ghost function Val(f: Frac): real
    requires f.d != 0
  {
    f.n as real / f.d as real
  }

  /** `frac_cmp(a, b) == Greater` and `== Less`, denominators positive. */
  predicate Above(a: Frac, b: Frac) { a.n * b.d > b.n * a.d }
  predicate Below(a: Frac, b: Frac) { a.n * b.d < b.n * a.d }

  function PosDen(n: int, d: int): (f: Frac)
    requires d != 0
    ensures f.d > 0
  {
    if d < 0 then Frac(-n, -d) else Frac(n, d)
  }

  // ---------------------------------------------------------------------------------------------
  // Fractions as reals.

  lemma MulPos(x: real, y: real, k: real)
    requires k > 0.0
    ensures x <= y <==> x * k <= y * k
  {
  }

  lemma ValTimes(f: Frac)
    requires f.d != 0
    ensures Val(f) * f.d as real == f.n as real
  {
  }

  lemma CmpVal(a: Frac, b: Frac)
    requires a.d > 0 && b.d > 0
    ensures Above(a, b) <==> Val(a) > Val(b)
    ensures Below(a, b) <==> Val(a) < Val(b)
  {
    var ad, bd := a.d as real, b.d as real;
    var k := ad * bd;
    assert k > 0.0;
    ValTimes(a);
    ValTimes(b);
    assert Val(a) * k == (Val(a) * ad) * bd;
    assert Val(b) * k == (Val(b) * bd) * ad;
    assert (a.n * b.d) as real == a.n as real * bd;
    assert (b.n * a.d) as real == b.n as real * ad;
    MulPos(Val(a), Val(b), k);
    MulPos(Val(b), Val(a), k);
    hide Val;
  }

  lemma PosDenVal(n: int, d: int)
    requires d != 0
    ensures Val(PosDen(n, d)) == n as real / d as real
  {
    if d < 0 {
      var x, y := n as real / d as real, (-n) as real / (-d) as real;
      assert x * d as real == n as real;
      assert y * (-d) as real == (-n) as real;
    }
  }

  // ---------------------------------------------------------------------------------------------
  // What is decided.

  /** Coordinate `o + t * d` lies in the closed range. */
  ghost predicate OnAxis(o: int, d: int, lo: int, hi: int, t: real) {
    lo as real <= o as real + t * d as real <= hi as real
  }

  /** The point at parameter `t` lies in the closed box. */
  ghost predicate Hits(box: Aabb, o: Vec3, d: Vec3, t: real) {
    && OnAxis(o.x, d.x, box.min.x, box.max.x, t)
    && OnAxis(o.y, d.y, box.min.y, box.max.y, t)
    && OnAxis(o.z, d.z, box.min.z, box.max.z, t)
  }

  lemma CrossForward(o: real, k: real, lo: real, hi: real, t: real)
    requires k > 0.0
    ensures lo <= o + t * k <= hi <==> (lo - o) / k <= t <= (hi - o) / k
  {
    var a, b := (lo - o) / k, (hi - o) / k;
    assert a * k == lo - o && b * k == hi - o;
    MulPos(a, t, k);
    MulPos(t, b, k);
  }

  lemma DivNeg(x: real, k: real)
    requires k < 0.0
    ensures x / k == (-x) / (-k)
  {
    var q, p := x / k, (-x) / (-k);
    assert q * k == x && p * -k == -x;
  }

  lemma CrossBackward(o: real, k: real, lo: real, hi: real, t: real)
    requires k < 0.0
    ensures lo <= o + t * k <= hi <==> (hi - o) / k <= t <= (lo - o) / k
  {
    CrossForward(-o, -k, -hi, -lo, t);
    DivNeg(hi - o, k);
    DivNeg(lo - o, k);
    assert t * -k == -(t * k);
  }

  /** Where the line crosses the two faces of an axis, entering first. */
  lemma AxisCrossings(o: int, d: int, lo: int, hi: int, t: real)
    requires d != 0
    ensures OnAxis(o, d, lo, hi, t) <==>
      (if d > 0 then Val(PosDen(lo - o, d)) <= t <= Val(PosDen(hi - o, d))
       else Val(PosDen(hi - o, d)) <= t <= Val(PosDen(lo - o, d)))
  {
    PosDenVal(lo - o, d);
    PosDenVal(hi - o, d);
    assert (lo - o) as real == lo as real - o as real && (hi - o) as real == hi as real - o as real;
    hide Val, PosDen;
    if d > 0 {
      CrossForward(o as real, d as real, lo as real, hi as real, t);
    } else {
      CrossBackward(o as real, d as real, lo as real, hi as real, t);
    }
  }

  // ---------------------------------------------------------------------------------------------
  // The running interval.

  datatype Interval = Interval(lo: Frac, hi: Frac)

  ghost predicate Proper(i: Interval) { i.lo.d > 0 && i.hi.d > 0 }

  ghost predicate Within(i: Interval, t: real)
    requires Proper(i)
  {
    Val(i.lo) <= t <= Val(i.hi)
  }

  const UNIT: Interval := Interval(ZERO, ONE)

  /** Raise the lower bound, lower the upper bound. */
  function Narrow(i: Interval, enter: Frac, exit: Frac): Interval {
    Interval(if Above(enter, i.lo) then enter else i.lo, if Below(exit, i.hi) then exit else i.hi)
  }

  lemma NarrowWithin(i: Interval, enter: Frac, exit: Frac, t: real)
    requires Proper(i) && enter.d > 0 && exit.d > 0
    ensures Proper(Narrow(i, enter, exit))
    ensures Within(Narrow(i, enter, exit), t) <==> Within(i, t) && Val(enter) <= t <= Val(exit)
  {
    CmpVal(enter, i.lo);
    CmpVal(exit, i.hi);
    hide Val, Above, Below;
  }

  /** `clip_axis` and `clip`: `None` when a line parallel to the axis runs outside. */
  function ClipAxis(o: int, d: int, lo: int, hi: int, i: Interval): Option<Interval> {
    if d == 0 then (if lo <= o <= hi then Some(i) else None)
    else
      Some(Narrow(i, PosDen(if d > 0 then lo - o else hi - o, d), PosDen(if d > 0 then hi - o else lo - o, d)))
  }

  lemma ClipAxisExact(o: int, d: int, lo: int, hi: int, i: Interval, t: real)
    requires Proper(i)
    ensures var c := ClipAxis(o, d, lo, hi, i);
      && (c.Some? ==> Proper(c.value))
      && (Within(i, t) && OnAxis(o, d, lo, hi, t) <==> c.Some? && Within(c.value, t))
  {
    if d == 0 {
      ParallelAxis(o, lo, hi, t);
    } else {
      AxisCrossings(o, d, lo, hi, t);
      var enter := PosDen(if d > 0 then lo - o else hi - o, d);
      var exit := PosDen(if d > 0 then hi - o else lo - o, d);
      NarrowWithin(i, enter, exit, t);
      hide Val, OnAxis, PosDen, Narrow, Within;
      assert ClipAxis(o, d, lo, hi, i) == Some(Narrow(i, enter, exit));
    }
  }

  /** All three axes. */
  function ClipBox(box: Aabb, o: Vec3, d: Vec3, i: Interval): Option<Interval> {
    match ClipAxis(o.x, d.x, box.min.x, box.max.x, i)
    case None => None
    case Some(a) =>
      match ClipAxis(o.y, d.y, box.min.y, box.max.y, a)
      case None => None
      case Some(b) => ClipAxis(o.z, d.z, box.min.z, box.max.z, b)
  }

  lemma ClipBoxExact(box: Aabb, o: Vec3, d: Vec3, i: Interval, t: real)
    requires Proper(i)
    ensures var c := ClipBox(box, o, d, i);
      && (c.Some? ==> Proper(c.value))
      && (Within(i, t) && Hits(box, o, d, t) <==> c.Some? && Within(c.value, t))
  {
    hide OnAxis, ClipAxis, Within;
    ClipAxisExact(o.x, d.x, box.min.x, box.max.x, i, t);
    var a := ClipAxis(o.x, d.x, box.min.x, box.max.x, i);
    if a.Some? {
      ClipAxisExact(o.y, d.y, box.min.y, box.max.y, a.value, t);
      var b := ClipAxis(o.y, d.y, box.min.y, box.max.y, a.value);
      if b.Some? {
        ClipAxisExact(o.z, d.z, box.min.z, box.max.z, b.value, t);
      }
    }
  }

  lemma UnitWithin(t: real)
    ensures Within(UNIT, t) <==> 0.0 <= t <= 1.0
  {
    assert Val(ZERO) == 0.0 && Val(ONE) == 1.0;
  }

  /** Parameters of the closed segment at which the box is hit. */
  ghost predicate HitsIn(box: Aabb, o: Vec3, d: Vec3, t: real) { 0.0 <= t <= 1.0 && Hits(box, o, d, t) }

  lemma EmptyMisses(box: Aabb, o: Vec3, d: Vec3, t: real)
    requires box.IsEmpty()
    ensures !Hits(box, o, d, t)
  {
  }

  lemma StillHits(box: Aabb, o: Vec3, t: real)
    ensures Hits(box, o, Vec3(0, 0, 0), t) <==> box.ContainsPoint(o)
  {
    assert t * 0.0 == 0.0;
  }

  // ---------------------------------------------------------------------------------------------
  // segment_hit.

  predicate Rejected(i: Interval) { Above(i.lo, i.hi) || Above(i.lo, ONE) || Below(i.hi, ZERO) }

  function SegmentHitOf(box: Aabb, o: Vec3, d: Vec3): Option<Frac> {
    if box.IsEmpty() then None
    else if d == Vec3(0, 0, 0) then (if box.ContainsPoint(o) then Some(ZERO) else None)
    else
      match ClipBox(box, o, d, UNIT)
      case None => None
      case Some(i) => if Rejected(i) then None else Some(i.lo)
  }

  /** The clipped interval is rejected exactly when it is empty; otherwise it is the set of hits. */
  lemma ClippedExact(box: Aabb, o: Vec3, d: Vec3)
    ensures var c := ClipBox(box, o, d, UNIT);
      && (c.Some? ==> Proper(c.value) && (Rejected(c.value) <==> Val(c.value.lo) > Val(c.value.hi)))
      && (forall t :: HitsIn(box, o, d, t) <==> c.Some? && Within(c.value, t))
  {
    hide ClipBox, Hits, Above, Below, Val;
    var c := ClipBox(box, o, d, UNIT);
    forall t
      ensures c.Some? ==> Proper(c.value)
      ensures HitsIn(box, o, d, t) <==> c.Some? && Within(c.value, t)
    {
      ClipBoxExact(box, o, d, UNIT, t);
      UnitWithin(t);
    }
    ClipBoxExact(box, o, d, UNIT, 0.0);
    if c.Some? {
      CmpVal(c.value.lo, c.value.hi);
      CmpVal(c.value.lo, ONE);
      CmpVal(c.value.hi, ZERO);
      UnitVals();
      if Val(c.value.lo) <= Val(c.value.hi) {
        assert Within(c.value, Val(c.value.lo)) && Within(c.value, Val(c.value.hi));
        assert HitsIn(box, o, d, Val(c.value.lo)) && HitsIn(box, o, d, Val(c.value.hi));
      }
    }
  }

  lemma UnitVals()
    ensures Val(ZERO) == 0.0 && Val(ONE) == 1.0
  {
  }

  /** `segment_hit` finds a hit exactly when some point of the closed segment lies in the closed box, and
      what it returns is the first such parameter. */
  lemma SegmentHitExact(box: Aabb, o: Vec3, d: Vec3)
    ensures var h := SegmentHitOf(box, o, d);
      && (h.Some? <==> exists t :: HitsIn(box, o, d, t))
      && (h.Some? ==> h.value.d > 0 && HitsIn(box, o, d, Val(h.value)))
      && (h.Some? ==> forall t :: HitsIn(box, o, d, t) ==> Val(h.value) <= t)
  {
    hide Hits, ClipBox, Val, Rejected;
    if box.IsEmpty() {
      forall t ensures !HitsIn(box, o, d, t) {
        EmptyMisses(box, o, d, t);
      }
    } else if d == Vec3(0, 0, 0) {
      UnitVals();
      forall t ensures HitsIn(box, o, d, t) <==> 0.0 <= t <= 1.0 && box.ContainsPoint(o) {
        StillHits(box, o, t);
      }
      assert HitsIn(box, o, d, 0.0) <==> box.ContainsPoint(o);
    } else {
      ClippedExact(box, o, d);
      var c := ClipBox(box, o, d, UNIT);
      if c.Some? && !Rejected(c.value) {
        assert Within(c.value, Val(c.value.lo));
      }
    }
  }

  // ---------------------------------------------------------------------------------------------
  // slab_interval.

  function SlabIntervalOf(box: Aabb, o: Vec3, d: Vec3): Option<(Interval, bool)> {
    if box.IsEmpty() then None
    else if d == Vec3(0, 0, 0) then (if box.ContainsPoint(o) then Some((UNIT, true)) else None)
    else
      match ClipBox(box, o, d, UNIT)
      case None => None
      case Some(i) =>
        if Rejected(i) then None
        else Some((if Below(i.lo, ZERO) then i.(lo := ZERO) else i, box.ContainsPoint(o)))
  }

  /** `slab_interval` returns the same entry as `segment_hit`, and with it the last parameter: between the
      two, and nowhere else on the segment, the box is hit.  The flag says whether it starts inside. */
  lemma SlabIntervalExact(box: Aabb, o: Vec3, d: Vec3)
    ensures var h, s := SegmentHitOf(box, o, d), SlabIntervalOf(box, o, d);
      && (s.Some? <==> h.Some?)
      && (s.Some? ==> s.value.0.lo == h.value && Proper(s.value.0))
      && (s.Some? ==> Val(s.value.0.lo) <= Val(s.value.0.hi))
      && (s.Some? ==> forall t :: HitsIn(box, o, d, t) <==> Within(s.value.0, t))
      && (s.Some? ==> s.value.1 == box.ContainsPoint(o))
  {
    hide Hits, ClipBox, Val, Rejected, Above;
    UnitVals();
    if !box.IsEmpty() && d == Vec3(0, 0, 0) {
      forall t ensures HitsIn(box, o, d, t) <==> 0.0 <= t <= 1.0 && box.ContainsPoint(o) {
        StillHits(box, o, t);
      }
    } else if !box.IsEmpty() {
      ClippedExact(box, o, d);
      var c := ClipBox(box, o, d, UNIT);
      if c.Some? && !Rejected(c.value) {
        assert Within(c.value, Val(c.value.lo));
        assert HitsIn(box, o, d, Val(c.value.lo));
        CmpVal(c.value.lo, ZERO);
      }
    }
  }

  // ---------------------------------------------------------------------------------------------
  // open_segment_hits_aabb: denominators keep the sign of the direction.

  predicate SignedAbove(a: Frac, b: Frac)
    requires a.d != 0 && b.d != 0
  {
    Above(PosDen(a.n, a.d), PosDen(b.n, b.d))
  }

  predicate SignedBelow(a: Frac, b: Frac)
    requires a.d != 0 && b.d != 0
  {
    Below(PosDen(a.n, a.d), PosDen(b.n, b.d))
  }

  lemma SignedCmpVal(a: Frac, b: Frac)
    requires a.d != 0 && b.d != 0
    ensures SignedAbove(a, b) <==> Val(a) > Val(b)
    ensures SignedBelow(a, b) <==> Val(a) < Val(b)
  {
    PosDenVal(a.n, a.d);
    PosDenVal(b.n, b.d);
    CmpVal(PosDen(a.n, a.d), PosDen(b.n, b.d));
    assert Val(a) == a.n as real / a.d as real && Val(b) == b.n as real / b.d as real;
  }

  ghost predicate Signed(i: Interval) { i.lo.d != 0 && i.hi.d != 0 }

  ghost predicate Between(i: Interval, t: real)
    requires Signed(i)
  {
    Val(i.lo) <= t <= Val(i.hi)
  }

  function SignedNarrow(i: Interval, enter: Frac, exit: Frac): Interval
    requires i.lo.d != 0 && i.hi.d != 0 && enter.d != 0 && exit.d != 0
  {
    Interval(if SignedAbove(enter, i.lo) then enter else i.lo, if SignedBelow(exit, i.hi) then exit else i.hi)
  }

  /** `slab_axis` between the coordinates `a` and `b`; it stops as soon as the interval is empty. */
  function SlabAxis(a: int, b: int, lo: int, hi: int, i: Interval): (r: Option<Interval>)
    requires i.lo.d != 0 && i.hi.d != 0
    ensures r.Some? ==> r.value.lo.d != 0 && r.value.hi.d != 0
  {
    var d := b - a;
    if d == 0 then (if lo <= a <= hi then Some(i) else None)
    else
      var near, far := Frac(lo - a, d), Frac(hi - a, d);
      var swap := SignedAbove(near, far);
      var n := SignedNarrow(i, if swap then far else near, if swap then near else far);
      if SignedAbove(n.lo, n.hi) then None else Some(n)
  }

  lemma SignedNarrowBetween(i: Interval, enter: Frac, exit: Frac, t: real)
    requires Signed(i) && enter.d != 0 && exit.d != 0
    ensures Signed(SignedNarrow(i, enter, exit))
    ensures Between(SignedNarrow(i, enter, exit), t) <==> Between(i, t) && Val(enter) <= t <= Val(exit)
  {
    SignedCmpVal(enter, i.lo);
    SignedCmpVal(exit, i.hi);
    hide Val, SignedAbove, SignedBelow;
  }

  /** Crossing order, whichever way the segment runs. */
  lemma SignedCrossings(a: int, d: int, lo: int, hi: int, t: real)
    requires d != 0 && lo <= hi
    ensures var near, far := Val(Frac(lo - a, d)), Val(Frac(hi - a, d));
      && (OnAxis(a, d, lo, hi, t) <==> (if near > far then far <= t <= near else near <= t <= far))
  {
    AxisCrossings(a, d, lo, hi, t);
    PosDenVal(lo - a, d);
    PosDenVal(hi - a, d);
    CmpVal(PosDen(lo - a, d), PosDen(hi - a, d));
    FaceOrder(a, d, lo, hi);
    assert Val(Frac(lo - a, d)) == Val(PosDen(lo - a, d));
    assert Val(Frac(hi - a, d)) == Val(PosDen(hi - a, d));
    hide Val, PosDen, OnAxis, Above, Below;
  }

  lemma FaceOrder(a: int, d: int, lo: int, hi: int)
    requires d != 0 && lo <= hi
    ensures d > 0 ==> !Above(PosDen(lo - a, d), PosDen(hi - a, d))
    ensures d < 0 ==> !Below(PosDen(lo - a, d), PosDen(hi - a, d))
  {
    if d > 0 {
      assert (lo - a) * d <= (hi - a) * d;
    } else {
      assert (lo - a) * d >= (hi - a) * d;
      assert -(lo - a) * -d == (lo - a) * d && -(hi - a) * -d == (hi - a) * d;
    }
  }

  lemma SlabAxisExact(a: int, b: int, lo: int, hi: int, i: Interval, t: real)
    requires Signed(i) && lo <= hi
    ensures var r := SlabAxis(a, b, lo, hi, i);
      && (Between(i, t) && OnAxis(a, b - a, lo, hi, t) <==> r.Some? && Between(r.value, t))
      && (r.Some? && b != a ==> Val(r.value.lo) <= Val(r.value.hi))
      && (r.Some? && b == a ==> r.value == i)
  {
    hide Val, SignedAbove, SignedBelow, OnAxis, SignedNarrow;
    var d := b - a;
    if d == 0 {
      ParallelAxis(a, lo, hi, t);
    } else {
      var near, far := Frac(lo - a, d), Frac(hi - a, d);
      SignedCrossings(a, d, lo, hi, t);
      SignedCmpVal(near, far);
      var swap := SignedAbove(near, far);
      var enter, exit := if swap then far else near, if swap then near else far;
      SignedNarrowBetween(i, enter, exit, t);
      var n := SignedNarrow(i, enter, exit);
      SignedCmpVal(n.lo, n.hi);
    }
  }

  lemma ParallelAxis(o: int, lo: int, hi: int, t: real)
    ensures OnAxis(o, 0, lo, hi, t) <==> lo <= o <= hi
  {
    assert t * 0.0 == 0.0;
  }

  function OpenSegmentHitsOf(a: Vec3, b: Vec3, hull: Aabb): bool {
    if hull.IsEmpty() || a == b then false
    else
      match SlabAxis(a.x, b.x, hull.min.x, hull.max.x, UNIT)
      case None => false
      case Some(x) =>
        match SlabAxis(a.y, b.y, hull.min.y, hull.max.y, x)
        case None => false
        case Some(y) =>
          match SlabAxis(a.z, b.z, hull.min.z, hull.max.z, y)
          case None => false
          case Some(z) => SignedAbove(z.hi, ZERO) && SignedBelow(z.lo, ONE)
  }

  function Minus(b: Vec3, a: Vec3): Vec3 { Vec3(b.x - a.x, b.y - a.y, b.z - a.z) }

  /** The interval left when no axis stops. */
  function OpenInterval(a: Vec3, b: Vec3, hull: Aabb): (r: Option<Interval>)
    ensures r.Some? ==> r.value.lo.d != 0 && r.value.hi.d != 0
  {
    match SlabAxis(a.x, b.x, hull.min.x, hull.max.x, UNIT)
    case None => None
    case Some(x) =>
      match SlabAxis(a.y, b.y, hull.min.y, hull.max.y, x)
      case None => None
      case Some(y) => SlabAxis(a.z, b.z, hull.min.z, hull.max.z, y)
  }

  lemma OpenIntervalExact(a: Vec3, b: Vec3, hull: Aabb, t: real)
    requires !hull.IsEmpty()
    ensures var r := OpenInterval(a, b, hull);
      && (HitsIn(hull, a, Minus(b, a), t) <==> r.Some? && Between(r.value, t))
      && (r.Some? && a != b ==> Val(r.value.lo) <= Val(r.value.hi))
  {
    hide OnAxis, SlabAxis, Val;
    UnitBetween(t);
    SlabAxisExact(a.x, b.x, hull.min.x, hull.max.x, UNIT, t);
    var x := SlabAxis(a.x, b.x, hull.min.x, hull.max.x, UNIT);
    if x.Some? {
      SlabAxisExact(a.y, b.y, hull.min.y, hull.max.y, x.value, t);
      var y := SlabAxis(a.y, b.y, hull.min.y, hull.max.y, x.value);
      if y.Some? {
        SlabAxisExact(a.z, b.z, hull.min.z, hull.max.z, y.value, t);
      }
    }
  }

  lemma UnitBetween(t: real)
    ensures Between(UNIT, t) <==> 0.0 <= t <= 1.0
  {
    UnitVals();
    hide Val;
  }

  /** The audible-occlusion test is true exactly when the endpoints differ and some point strictly
      between them lies in the closed box.  With equal endpoints it is false even inside the box. */
  lemma OpenSegmentExact(a: Vec3, b: Vec3, hull: Aabb)
    ensures OpenSegmentHitsOf(a, b, hull) <==>
      a != b && exists t :: 0.0 < t < 1.0 && Hits(hull, a, Minus(b, a), t)
  {
    hide Hits, SlabAxis, Val, SignedAbove, SignedBelow;
    if hull.IsEmpty() {
      forall t ensures !Hits(hull, a, Minus(b, a), t) {
        EmptyMisses(hull, a, Minus(b, a), t);
      }
    } else if a != b {
      var r := OpenInterval(a, b, hull);
      forall t
        ensures HitsIn(hull, a, Minus(b, a), t) <==> r.Some? && Between(r.value, t)
        ensures r.Some? ==> Val(r.value.lo) <= Val(r.value.hi)
      {
        OpenIntervalExact(a, b, hull, t);
      }
      forall t | 0.0 < t < 1.0 && Hits(hull, a, Minus(b, a), t)
        ensures HitsIn(hull, a, Minus(b, a), t)
      {
      }
      if r.Some? {
        OpenIntervalExact(a, b, hull, 0.0);
        SignedCmpVal(r.value.hi, ZERO);
        SignedCmpVal(r.value.lo, ONE);
        UnitVals();
        OpenWitness(a, b, hull, r.value);
      }
    }
  }

  lemma OpenWitness(a: Vec3, b: Vec3, hull: Aabb, i: Interval)
    requires Signed(i) && Val(i.lo) <= Val(i.hi)
    requires forall t :: HitsIn(hull, a, Minus(b, a), t) <==> Between(i, t)
    ensures Val(i.hi) > 0.0 && Val(i.lo) < 1.0 <==> exists t :: 0.0 < t < 1.0 && Hits(hull, a, Minus(b, a), t)
  {
    hide Hits, Val;
    assert Between(i, Val(i.lo)) && Between(i, Val(i.hi));
    assert HitsIn(hull, a, Minus(b, a), Val(i.lo)) && HitsIn(hull, a, Minus(b, a), Val(i.hi));
    if Val(i.hi) > 0.0 && Val(i.lo) < 1.0 {
      var t := (Val(i.lo) + Val(i.hi)) / 2.0;
      assert Between(i, t) && HitsIn(hull, a, Minus(b, a), t);
    }
    if t :| 0.0 < t < 1.0 && Hits(hull, a, Minus(b, a), t) {
      assert HitsIn(hull, a, Minus(b, a), t);
    }
  }

  // ---------------------------------------------------------------------------------------------
  // The copies agree.

  /** Wherever the direction is the difference of two distinct points, the open test is the closed
      interval reaching into the open segment. */
  lemma CopiesAgree(a: Vec3, b: Vec3, hull: Aabb)
    requires a != b
    ensures OpenSegmentHitsOf(a, b, hull) <==>
      var s := SlabIntervalOf(hull, a, Minus(b, a));
      s.Some? && Above(s.value.0.hi, ZERO) && Below(s.value.0.lo, ONE)
  {
    var d := Minus(b, a);
    var s := SlabIntervalOf(hull, a, d);
    OpenSegmentExact(a, b, hull);
    SegmentHitExact(hull, a, d);
    SlabIntervalExact(hull, a, d);
    hide OpenSegmentHitsOf, SlabIntervalOf, SegmentHitOf, Hits, Val, Above, Below;
    forall t | 0.0 < t < 1.0 && Hits(hull, a, d, t)
      ensures HitsIn(hull, a, d, t)
    {
    }
    if s.Some? {
      var i := s.value.0;
      CmpVal(i.hi, ZERO);
      CmpVal(i.lo, ONE);
      UnitVals();
      if Val(i.hi) > 0.0 && Val(i.lo) < 1.0 {
        var t := (Val(i.lo) + Val(i.hi)) / 2.0;
        assert Within(i, t) && Within(i, Val(i.lo)) && Within(i, Val(i.hi));
        assert HitsIn(hull, a, d, Val(i.lo)) && HitsIn(hull, a, d, Val(i.hi));
        assert 0.0 < t < 1.0 && HitsIn(hull, a, d, t);
      }
    }
  }

  // ---------------------------------------------------------------------------------------------
  // Machine widths.

  /** Numerator and denominator stay far inside `i64`, and their cross products inside `i128`. */
  predicate Narrowish(f: Frac) { -0x1_0000_0000 < f.n < 0x1_0000_0000 && 0 < f.d <= 0x8000_0000 }

  lemma ClipAxisFits(o: int, d: int, lo: int, hi: int, i: Interval)
    requires IsI32(o) && IsI32(d) && IsI32(lo) && IsI32(hi) && Narrowish(i.lo) && Narrowish(i.hi)
    ensures var c := ClipAxis(o, d, lo, hi, i); c.Some? ==> Narrowish(c.value.lo) && Narrowish(c.value.hi)
  {
    hide Above, Below;
  }

  /** For `i32` coordinates nothing the clipping stores leaves `i64`. */
  lemma ClipBoxFits(box: Aabb, o: Vec3, d: Vec3)
    requires IsI32Vec(box.min) && IsI32Vec(box.max) && IsI32Vec(o) && IsI32Vec(d)
    ensures var c := ClipBox(box, o, d, UNIT); c.Some? ==> Narrowish(c.value.lo) && Narrowish(c.value.hi)
  {
    hide ClipAxis;
    ClipAxisFits(o.x, d.x, box.min.x, box.max.x, UNIT);
    var a := ClipAxis(o.x, d.x, box.min.x, box.max.x, UNIT);
    if a.Some? {
      ClipAxisFits(o.y, d.y, box.min.y, box.max.y, a.value);
      var b := ClipAxis(o.y, d.y, box.min.y, box.max.y, a.value);
      if b.Some? {
        ClipAxisFits(o.z, d.z, box.min.z, box.max.z, b.value);
      }
    }
  }

  /** Comparing two such fractions multiplies within `i128`. */
  lemma CrossProductsFit(a: Frac, b: Frac)
    requires Narrowish(a) && Narrowish(b)
    ensures -0x8000_0000_0000_0000 * 0x1_0000_0000_0000_0000 <= a.n * b.d < 0x8000_0000_0000_0000 * 0x1_0000_0000_0000_0000
  {
    var n: nat := if a.n < 0 then -a.n else a.n;
    assert n * b.d <= 0x1_0000_0000 * 0x8000_0000;
    assert a.n * b.d == n * b.d || a.n * b.d == -(n * b.d);
  }

  // ---------------------------------------------------------------------------------------------
  // The tests as they run: one interval narrowed in place, axis by axis.

  class Running {
    var lo: Frac
    var hi: Frac

    ghost function View(): Interval
      reads this
    {
      Interval(lo, hi)
    }

    constructor ()
      ensures View() == UNIT
    {
      lo, hi := ZERO, ONE;
    }

    /** `clip_axis` in the core, `clip` in the geometry crate. */
    method Clip(o: int, d: int, min: int, max: int) returns (ok: bool)
      modifies this
      ensures var c := ClipAxis(o, d, min, max, old(View())); ok == c.Some? && (ok ==> View() == c.value)
    {
      if d == 0 {
        return min <= o <= max;
      }
      var enter := PosDen((if d > 0 then min else max) - o, d);
      var exit := PosDen((if d > 0 then max else min) - o, d);
      if Above(enter, lo) {
        lo := enter;
      }
      if Below(exit, hi) {
        hi := exit;
      }
      return true;
    }

    /** `slab_axis` in the audio crate. */
    method ClipBetween(a: int, b: int, min: int, max: int) returns (ok: bool)
      requires lo.d != 0 && hi.d != 0
      modifies this
      ensures var c := SlabAxis(a, b, min, max, old(View())); ok == c.Some? && (ok ==> View() == c.value)
    {
      var d := b - a;
      if d == 0 {
        return min <= a <= max;
      }
      var enter, exit := Frac(min - a, d), Frac(max - a, d);
      if SignedAbove(enter, exit) {
        enter, exit := exit, enter;
      }
      if SignedAbove(enter, lo) {
        lo := enter;
      }
      if SignedBelow(exit, hi) {
        hi := exit;
      }
      return !SignedAbove(lo, hi);
    }
  }

  method SegmentHit(box: Aabb, o: Vec3, d: Vec3) returns (r: Option<Frac>)
    ensures r == SegmentHitOf(box, o, d)
  {
    hide ClipAxis;
    if box.IsEmpty() {
      return None;
    }
    if d == Vec3(0, 0, 0) {
      return if box.ContainsPoint(o) then Some(ZERO) else None;
    }
    var t := new Running();
    var ok := t.Clip(o.x, d.x, box.min.x, box.max.x);
    if ok {
      ok := t.Clip(o.y, d.y, box.min.y, box.max.y);
    }
    if ok {
      ok := t.Clip(o.z, d.z, box.min.z, box.max.z);
    }
    return if !ok || Above(t.lo, t.hi) || Above(t.lo, ONE) || Below(t.hi, ZERO) then None else Some(t.lo);
  }

  method SlabInterval(box: Aabb, o: Vec3, d: Vec3) returns (r: Option<(Interval, bool)>)
    ensures r == SlabIntervalOf(box, o, d)
  {
    hide ClipAxis;
    if box.IsEmpty() {
      return None;
    }
    var inside := box.ContainsPoint(o);
    if d == Vec3(0, 0, 0) {
      return if inside then Some((UNIT, true)) else None;
    }
    var t := new Running();
    var ok := t.Clip(o.x, d.x, box.min.x, box.max.x);
    if ok {
      ok := t.Clip(o.y, d.y, box.min.y, box.max.y);
    }
    if ok {
      ok := t.Clip(o.z, d.z, box.min.z, box.max.z);
    }
    if !ok || Above(t.lo, t.hi) || Below(t.hi, ZERO) || Above(t.lo, ONE) {
      return None;
    }
    var lo := if Below(t.lo, ZERO) then ZERO else t.lo;
    return Some((Interval(lo, t.hi), inside));
  }

  method OpenSegmentHits(a: Vec3, b: Vec3, hull: Aabb) returns (r: bool)
    ensures r == OpenSegmentHitsOf(a, b, hull)
  {
    hide SlabAxis, SignedAbove, SignedBelow;
    if hull.IsEmpty() || a == b {
      return false;
    }
    var t := new Running();
    var ok := t.ClipBetween(a.x, b.x, hull.min.x, hull.max.x);
    if !ok {
      return false;
    }
    ok := t.ClipBetween(a.y, b.y, hull.min.y, hull.max.y);
    if !ok {
      return false;
    }
    ok := t.ClipBetween(a.z, b.z, hull.min.z, hull.max.z);
    if !ok {
      return false;
    }
    return SignedAbove(t.hi, ZERO) && SignedBelow(t.lo, ONE);
  }
}
