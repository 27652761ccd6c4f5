/** Placement bytes and row order. */
module PlacementOrder {
  // Groups are numbered by the first appearance of their binding, records are sorted: when two lists of rows encode
  // to the same bytes.

  import opened Prelude
  import opened Space
  import opened Sorting
  import opened Distinct
  import opened Bytes
  import opened Placement

  lemma {:induction false} LexAntisymmetric(a: seq<int>, b: seq<int>)
    requires |a| == |b| && LexLe(a, b) && LexLe(b, a)
    ensures a == b
  {
    if a != [] {
      LexAntisymmetric(a[1..], b[1..]);
      assert a == [a[0]] + a[1..] && b == [b[0]] + b[1..];
    }
  }

  function Key(r: Rec): (k: seq<int>)
    ensures |k| == 6
  {
    [r.group, r.pose.x, r.pose.y, r.pose.z, r.yaw, r.scale]
  }

  lemma RecAntisymmetric(a: Rec, b: Rec)
    requires RecLe(a, b) && RecLe(b, a)
    ensures a == b
  {
    var k, l := Key(a), Key(b);
    hide LexLe;
    LexAntisymmetric(k, l);
    assert k[0] == l[0] && k[1] == l[1] && k[2] == l[2] && k[3] == l[3] && k[4] == l[4] && k[5] == l[5];
  }

  /** Sorted lists of the same records are the same list. */
  lemma {:induction false} SortedUnique(a: seq<Rec>, b: seq<Rec>)
    requires Sorted(a, RecLe) && Sorted(b, RecLe) && multiset(a) == multiset(b)
    ensures a == b
    decreases |a|
  {
    hide RecLe;
    assert |a| == |multiset(a)| == |multiset(b)| == |b|;
    if a != [] {
      assert a[0] in multiset(b) && b[0] in multiset(a);
      Least(a, b[0]);
      Least(b, a[0]);
      RecAntisymmetric(a[0], b[0]);
      SameRest(a, b);
      SortedUnique(a[1..], b[1..]);
      assert a == [a[0]] + a[1..] && b == [b[0]] + b[1..];
    }
  }

  lemma SameRest(a: seq<Rec>, b: seq<Rec>)
    requires a != [] && b != [] && a[0] == b[0] && multiset(a) == multiset(b)
    ensures multiset(a[1..]) == multiset(b[1..])
  {
    assert a == [a[0]] + a[1..] && b == [b[0]] + b[1..];
    assert multiset(a[1..]) == multiset(a) - multiset([a[0]]);
    assert multiset(b[1..]) == multiset(b) - multiset([b[0]]);
  }

  lemma Least(a: seq<Rec>, x: Rec)
    requires Sorted(a, RecLe) && x in a
    ensures RecLe(a[0], x)
  {
    RecOrder();
    hide RecLe;
  }

  lemma RecordsSame(x: seq<Row>, y: seq<Row>)
    requires multiset(Tagged(x)) == multiset(Tagged(y))
    ensures Records(x) == Records(y) && |x| == |y|
  {
    RecOrder();
    hide RecLe, Tagged;
    SortSorted(Tagged(x), RecLe);
    SortSorted(Tagged(y), RecLe);
    SortedUnique(Records(x), Records(y));
  }

  /** The bytes behind the names. */
  function Body(c: Codec, rows: seq<Row>): seq<Byte>
    requires Deltas(Records(rows), map[]).Ok?
  {
    var gs, recs := Groups(c, FirstSeen(Bindings(rows)), Records(rows)), Records(rows);
    Le(|gs|, 2) + (PutGroups(gs) + PutRecords(recs, Deltas(recs, map[]).value))
  }

  lemma BytesAre(c: Codec, place: Text, zone: Text, rows: seq<Row>)
    requires EncodeOf(c, place, zone, rows).Ok?
    ensures |rows| <= MAX_RECORDS && |FirstSeen(Bindings(rows))| <= MAX_GROUPS && Deltas(Records(rows), map[]).Ok?
    ensures PutName(place).Ok? && PutName(zone).Ok?
    ensures EncodeOf(c, place, zone, rows).value.bytes
      == Header() + (PutName(place).value + (PutName(zone).value + Body(c, rows)))
  {
    hide Header, PutName, Records, Deltas, FirstSeen, Groups, PutGroups, PutRecords, Le;
  }

  lemma CancelPrefix(p: seq<Byte>, a: seq<Byte>, b: seq<Byte>)
    requires p + a == p + b
    ensures a == b
  {
    assert (p + a)[|p|..] == a && (p + b)[|p|..] == b;
  }

  /** What the bytes tell. */
  lemma BodyTells(c: Codec, x: seq<Row>, y: seq<Row>)
    requires ValidCodec(c)
    requires forall i :: 0 <= i < |x| ==> ValidRow(x[i])
    requires forall i :: 0 <= i < |y| ==> ValidRow(y[i])
    requires |x| <= MAX_RECORDS && |FirstSeen(Bindings(x))| <= MAX_GROUPS && Deltas(Records(x), map[]).Ok?
    requires |y| <= MAX_RECORDS && |FirstSeen(Bindings(y))| <= MAX_GROUPS && Deltas(Records(y), map[]).Ok?
    requires Body(c, x) == Body(c, y)
    ensures FirstSeen(Bindings(x)) == FirstSeen(Bindings(y)) && Records(x) == Records(y)
  {
    GroupStage(c, [], [], [], x);
    GroupStage(c, [], [], [], y);
    hide Records, Deltas, FirstSeen, PutGroups, PutRecords, DecodeGroups, ValidRow, Le;
    var bs, ds := FirstSeen(Bindings(x)), FirstSeen(Bindings(y));
    var gx, gy := Groups(c, bs, Records(x)), Groups(c, ds, Records(y));
    assert gx == gy && Records(x) == Records(y);
    hide Groups;
    assert |bs| == |ds|;
    forall i | 0 <= i < |bs|
      ensures bs[i] == ds[i]
    {
      assert gx[i].binding == bs[i] && gy[i].binding == ds[i];
    }
  }

  /** Two lists of rows give the same bytes exactly when their bindings first appear in the same order and their
      tagged rows are the same up to order. */
  lemma BytesAgreeIff(c: Codec, place: Text, zone: Text, x: seq<Row>, y: seq<Row>)
    requires ValidCodec(c)
    requires forall i :: 0 <= i < |x| ==> ValidRow(x[i])
    requires forall i :: 0 <= i < |y| ==> ValidRow(y[i])
    requires EncodeOf(c, place, zone, x).Ok? && EncodeOf(c, place, zone, y).Ok?
    ensures EncodeOf(c, place, zone, x).value.bytes == EncodeOf(c, place, zone, y).value.bytes <==>
      FirstSeen(Bindings(x)) == FirstSeen(Bindings(y)) && multiset(Tagged(x)) == multiset(Tagged(y))
  {
    BytesAre(c, place, zone, x);
    BytesAre(c, place, zone, y);
    SameTags(x, y);
    hide EncodeOf, Records, Deltas, FirstSeen, Header, PutName, ValidRow, Tagged;
    if multiset(Tagged(x)) == multiset(Tagged(y)) {
      RecordsSame(x, y);
      if FirstSeen(Bindings(x)) == FirstSeen(Bindings(y)) {
        BodySame(c, x, y);
      }
    }
    if EncodeOf(c, place, zone, x).value.bytes == EncodeOf(c, place, zone, y).value.bytes {
      var p, z := PutName(place).value, PutName(zone).value;
      CancelPrefix(Header(), p + (z + Body(c, x)), p + (z + Body(c, y)));
      CancelPrefix(p, z + Body(c, x), z + Body(c, y));
      CancelPrefix(z, Body(c, x), Body(c, y));
      BodyTells(c, x, y);
    }
  }

  lemma SameTags(x: seq<Row>, y: seq<Row>)
    ensures Records(x) == Records(y) ==> multiset(Tagged(x)) == multiset(Tagged(y))
  {
    hide Tagged, Sort, RecLe;
  }

  lemma BodySame(c: Codec, x: seq<Row>, y: seq<Row>)
    requires Deltas(Records(x), map[]).Ok? && Records(x) == Records(y)
    requires FirstSeen(Bindings(x)) == FirstSeen(Bindings(y))
    ensures Deltas(Records(y), map[]).Ok? && Body(c, x) == Body(c, y)
  {
    hide Records, Deltas, FirstSeen, PutGroups, PutRecords, Le;
  }

  // ---------------------------------------------------------------------------------------------
  // Permuted rows.

  function TagWith(order: seq<Binding>, r: Row): Rec { Rec(IndexIn(order, r.binding), r.pose, r.yaw, r.scale) }

  function TagAll(order: seq<Binding>, rows: seq<Row>): (recs: seq<Rec>)
    ensures |recs| == |rows| && forall i :: 0 <= i < |rows| ==> recs[i] == TagWith(order, rows[i])
  {
    seq(|rows|, i requires 0 <= i < |rows| => TagWith(order, rows[i]))
  }

  lemma TagAllSplit(order: seq<Binding>, a: seq<Row>, b: seq<Row>)
    ensures TagAll(order, a + b) == TagAll(order, a) + TagAll(order, b)
  {
  }

  lemma {:induction false} TagAllPermuted(order: seq<Binding>, x: seq<Row>, y: seq<Row>)
    requires multiset(x) == multiset(y)
    ensures multiset(TagAll(order, x)) == multiset(TagAll(order, y))
    decreases |x|
  {
    hide TagAll;
    assert |x| == |multiset(x)| == |multiset(y)| == |y|;
    if x != [] {
      var a, b := Around(x, y);
      var rest := x[1..];
      assert x == [x[0]] + rest;
      assert multiset(rest) == multiset(x) - multiset([x[0]]);
      TagAllPermuted(order, rest, a + b);
      TagAllSplit(order, [x[0]], rest);
      TagAllThree(order, a, [x[0]], b);
      TagAllSplit(order, a, b);
    } else {
      assert y == [];
    }
  }

  lemma TagAllThree(order: seq<Binding>, a: seq<Row>, m: seq<Row>, b: seq<Row>)
    ensures TagAll(order, a + (m + b)) == TagAll(order, a) + (TagAll(order, m) + TagAll(order, b))
  {
  }

  /** The first row of `x` taken out of `y`. */
  lemma Around(x: seq<Row>, y: seq<Row>) returns (a: seq<Row>, b: seq<Row>)
    requires multiset(x) == multiset(y) && x != []
    ensures y == a + ([x[0]] + b) && multiset(a + b) == multiset(x) - multiset([x[0]])
  {
    assert x[0] in multiset(y);
    var i :| 0 <= i < |y| && y[i] == x[0];
    a, b := y[..i], y[i + 1..];
    assert y == a + ([x[0]] + b);
  }

  /** Rows in another order give the same bytes exactly when the bindings still first appear in the same order. */
  lemma PermutedBytesIff(c: Codec, place: Text, zone: Text, x: seq<Row>, y: seq<Row>)
    requires ValidCodec(c) && multiset(x) == multiset(y)
    requires forall i :: 0 <= i < |x| ==> ValidRow(x[i])
    requires forall i :: 0 <= i < |y| ==> ValidRow(y[i])
    requires EncodeOf(c, place, zone, x).Ok? && EncodeOf(c, place, zone, y).Ok?
    ensures EncodeOf(c, place, zone, x).value.bytes == EncodeOf(c, place, zone, y).value.bytes <==>
      FirstSeen(Bindings(x)) == FirstSeen(Bindings(y))
  {
    BytesAgreeIff(c, place, zone, x, y);
    TaggedIsTagAll(x);
    TaggedIsTagAll(y);
    hide EncodeOf, FirstSeen, Tagged, TagAll, ValidRow;
    if FirstSeen(Bindings(x)) == FirstSeen(Bindings(y)) {
      TagAllPermuted(FirstSeen(Bindings(x)), x, y);
    }
  }

  lemma TaggedIsTagAll(rows: seq<Row>)
    ensures Tagged(rows) == TagAll(FirstSeen(Bindings(rows)), rows)
  {
    hide FirstSeen;
  }

  // ---------------------------------------------------------------------------------------------
  // Two rows, both ways round.

  function Fill(b: Byte): Blob { seq(32, i => b) }

  const Stone: Row := Row(Binding(Fill(1), Fill(1), None, 0), Vec3(0, 0, 0), 0, 1000)
  const Grass: Row := Row(Binding(Fill(2), Fill(2), None, 0), Vec3(0, 0, 0), 0, 1000)

  lemma {:induction false} EvenScalesEncode(recs: seq<Rec>, last: Last)
    requires forall i :: 0 <= i < |recs| ==> recs[i].scale == 1000
    requires forall g :: g in last ==> last[g].scale == 1000
    ensures Deltas(recs, last).Ok?
    decreases |recs|
  {
    if recs != [] {
      EvenScalesEncode(recs[1..], last[recs[0].group := recs[0]]);
    }
  }

  lemma PairEncodes(c: Codec, r: Row, q: Row)
    requires r.scale == 1000 && q.scale == 1000
    ensures EncodeOf(c, [65], [66], [r, q]).Ok?
  {
    var recs := Records([r, q]);
    assert |FirstSeen(Bindings([r, q]))| <= 2;
    hide FirstSeen, Groups, PutGroups, PutRecords, Deltas, RecLe;
    forall i | 0 <= i < |recs|
      ensures recs[i].scale == 1000
    {
      assert recs[i] in multiset(recs);
      assert recs[i] in Tagged([r, q]);
    }
    EvenScalesEncode(recs, map[]);
  }

  lemma PairOrder(r: Row, q: Row)
    requires r.binding != q.binding
    ensures FirstSeen(Bindings([r, q])) == [r.binding, q.binding]
  {
    assert Bindings([r, q]) == [r.binding, q.binding];
    assert [r.binding, q.binding][..1] == [r.binding];
    assert FirstSeen([r.binding]) == [r.binding];
  }

  lemma SwapPair(c: Codec, r: Row, q: Row)
    requires ValidCodec(c) && ValidRow(r) && ValidRow(q) && r.binding != q.binding && r.scale == 1000 && q.scale == 1000
    ensures EncodeOf(c, [65], [66], [r, q]).Ok? && EncodeOf(c, [65], [66], [q, r]).Ok?
    ensures EncodeOf(c, [65], [66], [r, q]).value.bytes != EncodeOf(c, [65], [66], [q, r]).value.bytes
  {
    hide *;
    PairEncodes(c, r, q);
    PairEncodes(c, q, r);
    PairOrder(r, q);
    PairOrder(q, r);
    var x, y := [r, q], [q, r];
    assert multiset(x) == multiset(y);
    PermutedBytesIff(c, [65], [66], x, y);
    assert [r.binding, q.binding][0] != [q.binding, r.binding][0];
  }

  lemma StoneAndGrass()
    ensures ValidRow(Stone) && ValidRow(Grass) && Stone.binding != Grass.binding
  {
    assert Fill(1)[0] != Fill(2)[0];
  }

  /** Swapping two rows of different bindings changes the bytes. */
  lemma SwapChangesBytes(c: Codec)
    requires ValidCodec(c)
    ensures EncodeOf(c, [65], [66], [Stone, Grass]).Ok? && EncodeOf(c, [65], [66], [Grass, Stone]).Ok?
    ensures EncodeOf(c, [65], [66], [Stone, Grass]).value.bytes != EncodeOf(c, [65], [66], [Grass, Stone]).value.bytes
  {
    StoneAndGrass();
    hide EncodeOf, ValidRow, ValidCodec;
    SwapPair(c, Stone, Grass);
  }
}
