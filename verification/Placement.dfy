/** The KPLM placement table. */
module Placement {
  // Grouped, sorted, column- and delta-encoded dressing records.

  import opened Prelude
  import opened Space
  import opened Sorting
  import opened Distinct
  import opened Bytes

  const MAGIC: seq<Byte> := [0x4B, 0x50, 0x4C, 0x4D]
  const VERSION: Byte := 1
  const MAX_RECORDS: nat := 65536
  const MAX_GROUPS: nat := 4096

  type Blob = seq<Byte>

  /** What instances share. */
  datatype Binding = Binding(mesh: Blob, material: Blob, clip: Option<Blob>, variant: nat)

  /** One dressing instance before grouping. */
  datatype Row = Row(binding: Binding, pose: Vec3, yaw: int, scale: nat)

  datatype Group = Group(id: Blob, binding: Binding, count: nat)

  datatype Rec = Rec(group: nat, pose: Vec3, yaw: int, scale: nat)

  datatype Chunk = Chunk(place: Text, zone: Text, chunkId: Blob, bytes: seq<Byte>, groups: seq<Group>, records: seq<Rec>)

  /** The hash and the text check, which are not modelled further. */
  datatype Codec = Codec(digest: seq<Byte> -> Blob, utf8: Text -> bool)

  // ---------------------------------------------------------------------------------------------
  // Types of the fields.

  predicate IsBlob(b: Blob) { |b| == 32 }

  predicate ValidBinding(b: Binding) {
    IsBlob(b.mesh) && IsBlob(b.material) && (b.clip.Some? ==> IsBlob(b.clip.value)) && b.variant <= U16_MAX
  }

  predicate ValidRow(r: Row) {
    && ValidBinding(r.binding) && IsI32Vec(r.pose) && IsI32(r.yaw)
    && r.scale <= U16_MAX
  }

  predicate ValidRec(r: Rec) {
    && r.group <= U16_MAX && IsI32Vec(r.pose) && IsI32(r.yaw) && r.scale <= U16_MAX
  }

  predicate ValidGroup(g: Group) { IsBlob(g.id) && ValidBinding(g.binding) && g.count <= U32_MAX }

  ghost predicate ValidCodec(c: Codec) { forall bs :: IsBlob(c.digest(bs)) }

  // ---------------------------------------------------------------------------------------------
  // Groups.

  function PutBinding(b: Binding): seq<Byte> {
    b.mesh + b.material + (if b.clip.Some? then [1] + b.clip.value else [0]) + Le(b.variant, 2)
  }

  /** `group_id`. */
  function GroupId(c: Codec, b: Binding): Blob { c.digest(PutBinding(b)) }

  function PutGroup(g: Group): seq<Byte> { g.id + PutBinding(g.binding) + Le(g.count, 4) }

  function TakeBinding(rest: seq<Byte>): Taken<Binding> {
    match Take(rest, 32)
    case Err(e) => Err(e)
    case Ok((mesh, a)) =>
      match Take(a, 32)
      case Err(e) => Err(e)
      case Ok((material, b)) =>
        match TakeInt(b, 1)
        case Err(e) => Err(e)
        case Ok((flag, d)) => if flag > 1 then Err(ClipFlag) else TakeClip(mesh, material, flag, d)
  }

  function TakeClip(mesh: Blob, material: Blob, flag: nat, rest: seq<Byte>): Taken<Binding> {
    match Take(rest, if flag == 1 then 32 else 0)
    case Err(e) => Err(e)
    case Ok((clip, a)) =>
      match TakeInt(a, 2)
      case Err(e) => Err(e)
      case Ok((variant, b)) => Ok((Binding(mesh, material, if flag == 1 then Some(clip) else None, variant), b))
  }

  function TakeGroup(rest: seq<Byte>): Taken<Group> {
    match Take(rest, 32)
    case Err(e) => Err(e)
    case Ok((id, a)) =>
      match TakeBinding(a)
      case Err(e) => Err(e)
      case Ok((binding, b)) =>
        match TakeInt(b, 4)
        case Err(e) => Err(e)
        case Ok((count, d)) => Ok((Group(id, binding, count), d))
  }

  lemma BindingRoundTrip(b: Binding, rest: seq<Byte>)
    requires ValidBinding(b)
    ensures TakeBinding(PutBinding(b) + rest) == Ok((b, rest))
  {
    hide Take, TakeInt, Le, Pow256;
    var flag: Byte := if b.clip.Some? then 1 else 0;
    var clip: seq<Byte> := if b.clip.Some? then b.clip.value else [];
    var v := Le(b.variant, 2) + rest;
    assert PutBinding(b) + rest == b.mesh + (b.material + ([flag] + (clip + v)));
    OneByte(flag);
    Widths();
    TakePrefix(b.mesh, b.material + ([flag] + (clip + v)));
    TakePrefix(b.material, [flag] + (clip + v));
    TakeLe(flag, 1, clip + v);
    TakePrefix(clip, v);
    TakeLe(b.variant, 2, rest);
  }

  lemma OneByte(b: Byte)
    ensures Le(b, 1) == [b]
  {
    assert Le(b / 256, 0) == [];
  }

  lemma GroupRoundTrip(g: Group, rest: seq<Byte>)
    requires ValidGroup(g)
    ensures TakeGroup(PutGroup(g) + rest) == Ok((g, rest))
  {
    hide Take, TakeInt, Le, Pow256, PutBinding, TakeBinding, ValidBinding;
    var a := Le(g.count, 4) + rest;
    assert PutGroup(g) + rest == g.id + (PutBinding(g.binding) + a);
    Widths();
    TakePrefix(g.id, PutBinding(g.binding) + a);
    BindingRoundTrip(g.binding, a);
    TakeLe(g.count, 4, rest);
  }

  function PutGroups(gs: seq<Group>): seq<Byte> {
    if gs == [] then [] else PutGroup(gs[0]) + PutGroups(gs[1..])
  }

  function TakeGroups(rest: seq<Byte>, n: nat): Taken<seq<Group>> {
    if n == 0 then Ok(([], rest))
    else
      match TakeGroup(rest)
      case Err(e) => Err(e)
      case Ok((g, more)) =>
        match TakeGroups(more, n - 1)
        case Err(e) => Err(e)
        case Ok((gs, tail)) => Ok(([g] + gs, tail))
  }

  lemma {:induction false} GroupsRoundTrip(gs: seq<Group>, rest: seq<Byte>)
    requires forall i :: 0 <= i < |gs| ==> ValidGroup(gs[i])
    ensures TakeGroups(PutGroups(gs) + rest, |gs|) == Ok((gs, rest))
  {
    hide TakeGroup, PutGroup, ValidGroup;
    if gs == [] {
      assert PutGroups(gs) + rest == rest;
    } else {
      var more := PutGroups(gs[1..]) + rest;
      assert PutGroups(gs) + rest == PutGroup(gs[0]) + more;
      GroupRoundTrip(gs[0], more);
      GroupsRoundTrip(gs[1..], rest);
      assert gs == [gs[0]] + gs[1..];
    }
  }

  // ---------------------------------------------------------------------------------------------
  // Records, sorted.

  function Bindings(rows: seq<Row>): (bs: seq<Binding>)
    ensures |bs| == |rows| && forall i :: 0 <= i < |rows| ==> bs[i] == rows[i].binding
  {
    seq(|rows|, i requires 0 <= i < |rows| => rows[i].binding)
  }

  /** Each row with the number of its group; groups are numbered by first appearance. */
  function Tagged(rows: seq<Row>): (recs: seq<Rec>)
    ensures |recs| == |rows|
    ensures forall i :: 0 <= i < |rows| ==>
      recs[i] == Rec(IndexIn(FirstSeen(Bindings(rows)), rows[i].binding), rows[i].pose, rows[i].yaw, rows[i].scale)
  {
    seq(|rows|, i requires 0 <= i < |rows| =>
      assert Bindings(rows)[i] == rows[i].binding;
      Rec(IndexIn(FirstSeen(Bindings(rows)), rows[i].binding), rows[i].pose, rows[i].yaw, rows[i].scale))
  }

  /** Lexicographic: group, x, y, z, yaw, scale. */
  predicate RecLe(a: Rec, b: Rec) {
    LexLe([a.group, a.pose.x, a.pose.y, a.pose.z, a.yaw, a.scale], [b.group, b.pose.x, b.pose.y, b.pose.z, b.yaw, b.scale])
  }

  predicate LexLe(a: seq<int>, b: seq<int>)
    requires |a| == |b|
  {
    a == [] || a[0] < b[0] || (a[0] == b[0] && LexLe(a[1..], b[1..]))
  }

  lemma {:induction false} LexTotal(a: seq<int>, b: seq<int>)
    requires |a| == |b|
    ensures LexLe(a, b) || LexLe(b, a)
  {
    if a != [] && a[0] == b[0] {
      LexTotal(a[1..], b[1..]);
    }
  }

  lemma {:induction false} LexTrans(a: seq<int>, b: seq<int>, c: seq<int>)
    requires |a| == |b| == |c| && LexLe(a, b) && LexLe(b, c)
    ensures LexLe(a, c)
  {
    if a != [] && a[0] == b[0] == c[0] {
      LexTrans(a[1..], b[1..], c[1..]);
    }
  }

  lemma RecOrder()
    ensures TotalPreorder(RecLe)
  {
    hide LexLe;
    forall a: Rec, b: Rec
      ensures RecLe(a, b) || RecLe(b, a)
    {
      LexTotal([a.group, a.pose.x, a.pose.y, a.pose.z, a.yaw, a.scale],
               [b.group, b.pose.x, b.pose.y, b.pose.z, b.yaw, b.scale]);
    }
    forall a: Rec, b: Rec, c: Rec | RecLe(a, b) && RecLe(b, c)
      ensures RecLe(a, c)
    {
      LexTrans([a.group, a.pose.x, a.pose.y, a.pose.z, a.yaw, a.scale],
               [b.group, b.pose.x, b.pose.y, b.pose.z, b.yaw, b.scale],
               [c.group, c.pose.x, c.pose.y, c.pose.z, c.yaw, c.scale]);
    }
  }

  function Records(rows: seq<Row>): seq<Rec> { Sort(Tagged(rows), RecLe) }

  /** How many records carry group `g`. */
  function CountOf(recs: seq<Rec>, g: nat): nat {
    if recs == [] then 0 else (if recs[|recs| - 1].group == g then 1 else 0) + CountOf(recs[..|recs| - 1], g)
  }

  lemma {:induction false} CountBound(recs: seq<Rec>, g: nat)
    ensures CountOf(recs, g) <= |recs|
  {
    if recs != [] {
      CountBound(recs[..|recs| - 1], g);
    }
  }

  function Groups(c: Codec, bindings: seq<Binding>, recs: seq<Rec>): (gs: seq<Group>)
    ensures |gs| == |bindings|
    ensures forall i :: 0 <= i < |gs| ==> gs[i] == Group(GroupId(c, bindings[i]), bindings[i], CountOf(recs, i))
  {
    seq(|bindings|, i requires 0 <= i < |bindings| => Group(GroupId(c, bindings[i]), bindings[i], CountOf(recs, i)))
  }

  // ---------------------------------------------------------------------------------------------
  // Deltas within a group.

  datatype Delta = Delta(x: int, y: int, z: int, yaw: int, scale: int)

  type Last = map<nat, Rec>

  function DeltaOf(last: Last, r: Rec): Delta {
    if r.group in last then
      var p := last[r.group];
      Delta(WrapI32(r.pose.x - p.pose.x), WrapI32(r.pose.y - p.pose.y), WrapI32(r.pose.z - p.pose.z),
            WrapI32(r.yaw - p.yaw), r.scale - p.scale)
    else Delta(r.pose.x, r.pose.y, r.pose.z, r.yaw, r.scale)
  }

  function Deltas(recs: seq<Rec>, last: Last): Result<seq<Delta>, CodecError> {
    if recs == [] then Ok([])
    else
      var d := DeltaOf(last, recs[0]);
      if !IsI16(d.scale) then Err(ScaleDelta)
      else
        match Deltas(recs[1..], last[recs[0].group := recs[0]])
        case Err(e) => Err(e)
        case Ok(ds) => Ok([d] + ds)
  }

  function Apply(last: Last, g: nat, d: Delta): Result<Rec, CodecError> {
    var scale := if g in last then last[g].scale + d.scale else d.scale;
    if !(0 <= scale <= U16_MAX) then Err(ScaleRange)
    else if g in last then
      var p := last[g];
      Ok(Rec(g, Vec3(WrapI32(p.pose.x + d.x), WrapI32(p.pose.y + d.y), WrapI32(p.pose.z + d.z)),
             WrapI32(p.yaw + d.yaw), scale))
    else Ok(Rec(g, Vec3(d.x, d.y, d.z), d.yaw, scale))
  }

  function Rebuild(col: seq<nat>, ds: seq<Delta>, groups: nat, last: Last): Result<seq<Rec>, CodecError>
    requires |col| == |ds|
  {
    if col == [] then Ok([])
    else if col[0] >= groups then Err(GroupIndex)
    else
      match Apply(last, col[0], ds[0])
      case Err(e) => Err(e)
      case Ok(r) =>
        match Rebuild(col[1..], ds[1..], groups, last[col[0] := r])
        case Err(e) => Err(e)
        case Ok(rs) => Ok([r] + rs)
  }

  lemma WrapBack(p: int, x: int)
    requires IsI32(p) && IsI32(x)
    ensures WrapI32(p + WrapI32(x - p)) == x
  {
  }

  function GroupColumn(recs: seq<Rec>): (col: seq<nat>)
    ensures |col| == |recs| && forall i :: 0 <= i < |recs| ==> col[i] == recs[i].group
  {
    seq(|recs|, i requires 0 <= i < |recs| => recs[i].group)
  }

  lemma ApplyDelta(last: Last, r: Rec)
    requires ValidRec(r) && (r.group in last ==> ValidRec(last[r.group]) && last[r.group].group == r.group)
    ensures Apply(last, r.group, DeltaOf(last, r)) == Ok(r)
  {
    hide WrapI32;
    if r.group in last {
      var p := last[r.group];
      WrapBack(p.pose.x, r.pose.x);
      WrapBack(p.pose.y, r.pose.y);
      WrapBack(p.pose.z, r.pose.z);
      WrapBack(p.yaw, r.yaw);
    }
  }

  /** Wrapping per-group deltas are undone exactly, over all `i32` coordinates. */
  lemma {:induction false} RebuildDeltas(recs: seq<Rec>, groups: nat, last: Last)
    requires forall i :: 0 <= i < |recs| ==> ValidRec(recs[i]) && recs[i].group < groups
    requires forall g :: g in last ==> ValidRec(last[g]) && last[g].group == g
    requires Deltas(recs, last).Ok?
    ensures |Deltas(recs, last).value| == |recs|
    ensures Rebuild(GroupColumn(recs), Deltas(recs, last).value, groups, last) == Ok(recs)
  {
    hide DeltaOf, Apply, ValidRec;
    if recs != [] {
      var next := last[recs[0].group := recs[0]];
      ApplyDelta(last, recs[0]);
      RebuildDeltas(recs[1..], groups, next);
      var ds := Deltas(recs, last).value;
      assert ds[0] == DeltaOf(last, recs[0]) && ds[1..] == Deltas(recs[1..], next).value;
      assert GroupColumn(recs)[1..] == GroupColumn(recs[1..]);
      assert recs == [recs[0]] + recs[1..];
    }
  }

  // ---------------------------------------------------------------------------------------------
  // The columns.

  function XOf(d: Delta): int { d.x }
  function YOf(d: Delta): int { d.y }
  function ZOf(d: Delta): int { d.z }
  function YawOf(d: Delta): int { d.yaw }
  function ScaleOf(d: Delta): int { d.scale }

  /** One column as unsigned words. */
  function Column(ds: seq<Delta>, f: Delta -> int, w: nat): (vs: seq<nat>)
    ensures |vs| == |ds| && forall i :: 0 <= i < |ds| ==> vs[i] == Unsigned(f(ds[i]), w)
  {
    seq(|ds|, i requires 0 <= i < |ds| => Unsigned(f(ds[i]), w))
  }

  datatype Columns = Columns(x: seq<nat>, y: seq<nat>, z: seq<nat>, yaw: seq<nat>, scale: seq<nat>)

  predicate Even(c: Columns, n: nat) { |c.x| == n && |c.y| == n && |c.z| == n && |c.yaw| == n && |c.scale| == n }

  function ColumnsOf(ds: seq<Delta>): (c: Columns)
    ensures Even(c, |ds|)
  {
    Columns(Column(ds, XOf, 4), Column(ds, YOf, 4), Column(ds, ZOf, 4), Column(ds, YawOf, 4), Column(ds, ScaleOf, 2))
  }

  function PutColumns(c: Columns): seq<Byte> {
    PutInts(c.x, 4) + (PutInts(c.y, 4) + (PutInts(c.z, 4) + (PutInts(c.yaw, 4) + PutInts(c.scale, 2))))
  }

  function TakeColumns(rest: seq<Byte>, n: nat): Taken<Columns> {
    match TakeInts(rest, n, 4)
    case Err(e) => Err(e)
    case Ok((x, a)) =>
      match TakeInts(a, n, 4)
      case Err(e) => Err(e)
      case Ok((y, b)) =>
        match TakeInts(b, n, 4)
        case Err(e) => Err(e)
        case Ok((z, d)) =>
          match TakeInts(d, n, 4)
          case Err(e) => Err(e)
          case Ok((yaw, f)) =>
            match TakeInts(f, n, 2)
            case Err(e) => Err(e)
            case Ok((scale, g)) => Ok((Columns(x, y, z, yaw, scale), g))
  }

  function DeltasFrom(c: Columns, n: nat): (ds: seq<Delta>)
    requires Even(c, n)
    ensures |ds| == n
  {
    seq(n, i requires 0 <= i < n =>
      Delta(Signed(c.x[i], 4), Signed(c.y[i], 4), Signed(c.z[i], 4), Signed(c.yaw[i], 4), Signed(c.scale[i], 2)))
  }

  predicate ValidDelta(d: Delta) { IsI32(d.x) && IsI32(d.y) && IsI32(d.z) && IsI32(d.yaw) && IsI16(d.scale) }

  lemma ColumnFits(ds: seq<Delta>, f: Delta -> int, w: nat)
    requires forall i :: 0 <= i < |ds| ==> 2 * f(ds[i]) < Pow256(w) && -2 * f(ds[i]) <= Pow256(w)
    ensures forall i :: 0 <= i < |ds| ==> Column(ds, f, w)[i] < Pow256(w)
    ensures forall i :: 0 <= i < |ds| ==> Signed(Column(ds, f, w)[i], w) == f(ds[i])
  {
    hide Pow256, Unsigned, Signed;
    forall i | 0 <= i < |ds|
      ensures Column(ds, f, w)[i] < Pow256(w) && Signed(Column(ds, f, w)[i], w) == f(ds[i])
    {
      SignedRoundTrip(f(ds[i]), w);
    }
  }

  lemma ColumnsFit(ds: seq<Delta>)
    requires forall i :: 0 <= i < |ds| ==> ValidDelta(ds[i])
    ensures DeltasFrom(ColumnsOf(ds), |ds|) == ds
    ensures var c := ColumnsOf(ds);
      && (forall i :: 0 <= i < |ds| ==> c.x[i] < Pow256(4)) && (forall i :: 0 <= i < |ds| ==> c.y[i] < Pow256(4))
      && (forall i :: 0 <= i < |ds| ==> c.z[i] < Pow256(4)) && (forall i :: 0 <= i < |ds| ==> c.yaw[i] < Pow256(4))
      && (forall i :: 0 <= i < |ds| ==> c.scale[i] < Pow256(2))
  {
    Widths();
    hide Pow256, Signed, Unsigned, Column;
    ColumnFits(ds, XOf, 4);
    ColumnFits(ds, YOf, 4);
    ColumnFits(ds, ZOf, 4);
    ColumnFits(ds, YawOf, 4);
    ColumnFits(ds, ScaleOf, 2);
  }

  lemma ColumnsRoundTrip(ds: seq<Delta>, rest: seq<Byte>)
    requires forall i :: 0 <= i < |ds| ==> ValidDelta(ds[i])
    ensures TakeColumns(PutColumns(ColumnsOf(ds)) + rest, |ds|) == Ok((ColumnsOf(ds), rest))
  {
    ColumnsFit(ds);
    hide Pow256, PutInts, TakeInts, ColumnsOf, ValidDelta, DeltasFrom;
    var c := ColumnsOf(ds);
    var e := PutInts(c.scale, 2) + rest;
    var d := PutInts(c.yaw, 4) + e;
    var b := PutInts(c.z, 4) + d;
    var a := PutInts(c.y, 4) + b;
    assert PutColumns(c) + rest == PutInts(c.x, 4) + a;
    IntsRoundTrip(c.x, 4, a);
    IntsRoundTrip(c.y, 4, b);
    IntsRoundTrip(c.z, 4, d);
    IntsRoundTrip(c.yaw, 4, e);
    IntsRoundTrip(c.scale, 2, rest);
  }

  // ---------------------------------------------------------------------------------------------
  // The whole chunk.

  function Header(): seq<Byte> { MAGIC + [VERSION] + [0, 0, 0] }

  function PutRecords(recs: seq<Rec>, ds: seq<Delta>): seq<Byte> {
    Le(|recs|, 4) + (PutInts(GroupColumn(recs), 2) + PutColumns(ColumnsOf(ds)))
  }

  /** `encode_chunk`. */
  function EncodeOf(c: Codec, place: Text, zone: Text, rows: seq<Row>): Result<Chunk, CodecError> {
    var bindings, recs := FirstSeen(Bindings(rows)), Records(rows);
    if |rows| > MAX_RECORDS then Err(RecordCap)
    else if |bindings| > MAX_GROUPS then Err(GroupCap)
    else
      match Deltas(recs, map[])
      case Err(e) => Err(e)
      case Ok(ds) =>
        if PutName(place).Err? then Err(PutName(place).error)
        else if PutName(zone).Err? then Err(PutName(zone).error)
        else
          var gs := Groups(c, bindings, recs);
          var bytes := Header() + (PutName(place).value + (PutName(zone).value
            + (Le(|gs|, 2) + (PutGroups(gs) + PutRecords(recs, ds)))));
          Ok(Chunk(place, zone, c.digest(bytes), bytes, gs, recs))
  }

  function TakeRecords(rest: seq<Byte>, groups: nat): Result<seq<Rec>, CodecError> {
    match TakeInt(rest, 4)
    case Err(e) => Err(e)
    case Ok((n, a)) =>
      if n > MAX_RECORDS then Err(RecordCap)
      else
        match TakeInts(a, n, 2)
        case Err(e) => Err(e)
        case Ok((col, b)) =>
          match TakeColumns(b, n)
          case Err(e) => Err(e)
          case Ok((cols, tail)) =>
            if tail != [] then Err(Trailing)
            else if |col| != n || !Even(cols, n) then Err(Truncated)
            else Rebuild(col, DeltasFrom(cols, n), groups, map[])
  }

  function DecodeGroups(c: Codec, bytes: seq<Byte>, place: Text, zone: Text, rest: seq<Byte>): Result<Chunk, CodecError> {
    match TakeInt(rest, 2)
    case Err(e) => Err(e)
    case Ok((n, a)) =>
      if n > MAX_GROUPS then Err(GroupCap)
      else
        match TakeGroups(a, n)
        case Err(e) => Err(e)
        case Ok((gs, b)) =>
          match TakeRecords(b, |gs|)
          case Err(e) => Err(e)
          case Ok(recs) => Ok(Chunk(place, zone, c.digest(bytes), bytes, gs, recs))
  }

  function DecodeNames(c: Codec, bytes: seq<Byte>, rest: seq<Byte>): Result<Chunk, CodecError> {
    match TakeName(rest, c.utf8)
    case Err(e) => Err(e)
    case Ok((place, a)) =>
      match TakeName(a, c.utf8)
      case Err(e) => Err(e)
      case Ok((zone, b)) => DecodeGroups(c, bytes, place, zone, b)
  }

  /** `decode_chunk`. */
  function DecodeOf(c: Codec, bytes: seq<Byte>): Result<Chunk, CodecError> {
    if |bytes| < 8 then Err(Truncated)
    else if bytes[..4] != MAGIC then Err(BadMagic)
    else if bytes[4] != VERSION then Err(BadVersion(bytes[4]))
    else DecodeNames(c, bytes, bytes[8..])
  }

  // ---------------------------------------------------------------------------------------------
  // Round trip.

  lemma {:induction false} DeltasValid(recs: seq<Rec>, last: Last)
    requires forall i :: 0 <= i < |recs| ==> ValidRec(recs[i])
    requires Deltas(recs, last).Ok?
    ensures forall i :: 0 <= i < |Deltas(recs, last).value| ==> ValidDelta(Deltas(recs, last).value[i])
  {
    hide WrapI32;
    if recs != [] {
      var next := last[recs[0].group := recs[0]];
      DeltasValid(recs[1..], next);
      var ds := Deltas(recs, last).value;
      assert ds[1..] == Deltas(recs[1..], next).value;
      forall i | 0 <= i < |ds|
        ensures ValidDelta(ds[i])
      {
        if i > 0 {
          assert ds[i] == ds[1..][i - 1];
        }
      }
    }
  }

  /** The sorted records are the input rows, each with its group. */
  lemma RecordFacts(rows: seq<Row>)
    requires forall i :: 0 <= i < |rows| ==> ValidRow(rows[i])
    requires |FirstSeen(Bindings(rows))| <= MAX_GROUPS
    ensures Sorted(Records(rows), RecLe) && multiset(Records(rows)) == multiset(Tagged(rows))
    ensures |Records(rows)| == |rows|
    ensures forall i :: 0 <= i < |rows| ==>
      ValidRec(Records(rows)[i]) && Records(rows)[i].group < |FirstSeen(Bindings(rows))|
  {
    RecOrder();
    SortSorted(Tagged(rows), RecLe);
    forall i | 0 <= i < |rows|
      ensures ValidRec(Records(rows)[i]) && Records(rows)[i].group < |FirstSeen(Bindings(rows))|
    {
      assert Records(rows)[i] in multiset(Tagged(rows));
      var k :| 0 <= k < |rows| && Tagged(rows)[k] == Records(rows)[i];
      assert ValidRow(rows[k]);
      assert Bindings(rows)[k] == rows[k].binding;
    }
  }

  lemma RecordsRoundTrip(recs: seq<Rec>, groups: nat)
    requires |recs| <= MAX_RECORDS && forall i :: 0 <= i < |recs| ==> ValidRec(recs[i]) && recs[i].group < groups
    requires Deltas(recs, map[]).Ok?
    ensures TakeRecords(PutRecords(recs, Deltas(recs, map[]).value), groups) == Ok(recs)
  {
    Widths();
    assert |recs| < Pow256(4);
    hide *;
    var ds := Deltas(recs, map[]).value;
    var n, col, cols := |recs|, GroupColumn(recs), ColumnsOf(ds);
    RebuildDeltas(recs, groups, map[]);
    DeltasValid(recs, map[]);
    GroupColumnFits(recs);
    ColumnsFit(ds);
    var b := PutColumns(cols);
    TakeLe(n, 4, PutInts(col, 2) + b);
    IntsRoundTrip(col, 2, b);
    ColumnsRoundTrip(ds, []);
    assert b + [] == b;
    PutRecordsIs(recs, ds);
    TakeRecordsIs(PutRecords(recs, ds), n, PutInts(col, 2) + b, col, b, cols, groups);
  }

  lemma PutRecordsIs(recs: seq<Rec>, ds: seq<Delta>)
    ensures PutRecords(recs, ds) == Le(|recs|, 4) + (PutInts(GroupColumn(recs), 2) + PutColumns(ColumnsOf(ds)))
  {
  }

  lemma TakeRecordsIs(rest: seq<Byte>, n: nat, a: seq<Byte>, col: seq<nat>, b: seq<Byte>, cols: Columns, groups: nat)
    requires TakeInt(rest, 4) == Ok((n, a)) && n <= MAX_RECORDS
    requires TakeInts(a, n, 2) == Ok((col, b)) && TakeColumns(b, n) == Ok((cols, []))
    requires |col| == n && Even(cols, n)
    ensures TakeRecords(rest, groups) == Rebuild(col, DeltasFrom(cols, n), groups, map[])
  {
    hide TakeInt, TakeInts, TakeColumns, DeltasFrom, Rebuild;
  }

  lemma GroupColumnFits(recs: seq<Rec>)
    requires forall i :: 0 <= i < |recs| ==> ValidRec(recs[i])
    ensures |GroupColumn(recs)| == |recs| && forall i :: 0 <= i < |recs| ==> GroupColumn(recs)[i] < Pow256(2)
  {
    Widths();
  }

  lemma GroupsValid(c: Codec, rows: seq<Row>)
    requires ValidCodec(c) && forall i :: 0 <= i < |rows| ==> ValidRow(rows[i])
    requires |rows| <= MAX_RECORDS
    ensures var gs := Groups(c, FirstSeen(Bindings(rows)), Records(rows));
      forall i :: 0 <= i < |gs| ==> ValidGroup(gs[i])
  {
    var bindings := FirstSeen(Bindings(rows));
    forall i | 0 <= i < |bindings|
      ensures ValidGroup(Groups(c, bindings, Records(rows))[i])
    {
      CountBound(Records(rows), i);
      assert bindings[i] in Bindings(rows);
      var k :| 0 <= k < |rows| && Bindings(rows)[k] == bindings[i];
      assert ValidRow(rows[k]);
    }
  }

  lemma GroupStage(c: Codec, bytes: seq<Byte>, place: Text, zone: Text, rows: seq<Row>)
    requires ValidCodec(c) && forall i :: 0 <= i < |rows| ==> ValidRow(rows[i])
    requires |rows| <= MAX_RECORDS && |FirstSeen(Bindings(rows))| <= MAX_GROUPS && Deltas(Records(rows), map[]).Ok?
    ensures var gs, recs := Groups(c, FirstSeen(Bindings(rows)), Records(rows)), Records(rows);
      DecodeGroups(c, bytes, place, zone,
                   Le(|gs|, 2) + (PutGroups(gs) + PutRecords(recs, Deltas(recs, map[]).value)))
      == Ok(Chunk(place, zone, c.digest(bytes), bytes, gs, recs))
  {
    RecordFacts(rows);
    GroupsValid(c, rows);
    Widths();
    hide Pow256, Le, Records, Deltas, FirstSeen, Groups, PutGroups, TakeGroups, PutRecords, TakeRecords, ValidRec, ValidGroup, ValidRow,
         RecLe, Sorted;
    var gs, recs := Groups(c, FirstSeen(Bindings(rows)), Records(rows)), Records(rows);
    var tail := PutRecords(recs, Deltas(recs, map[]).value);
    TakeLe(|gs|, 2, PutGroups(gs) + tail);
    GroupsRoundTrip(gs, tail);
    RecordsRoundTrip(recs, |gs|);
  }

  /** Whenever the encoder succeeds, the decoder gives back the same names, groups, records, bytes and id
      exactly when neither name is empty: the writer lets an empty name through, the reader does not. */
  lemma RoundTrip(c: Codec, place: Text, zone: Text, rows: seq<Row>)
    requires ValidCodec(c) && c.utf8(place) && c.utf8(zone)
    requires forall i :: 0 <= i < |rows| ==> ValidRow(rows[i])
    requires EncodeOf(c, place, zone, rows).Ok?
    ensures var chunk := EncodeOf(c, place, zone, rows).value;
      DecodeOf(c, chunk.bytes) == if place == [] || zone == [] then Err(EmptyName) else Ok(chunk)
  {
    hide Pow256, Le, Records, Deltas, FirstSeen, Groups, PutGroups, PutRecords, DecodeGroups, PutName, TakeName;
    var chunk := EncodeOf(c, place, zone, rows).value;
    var bytes := chunk.bytes;
    var c2 := Le(|chunk.groups|, 2) + (PutGroups(chunk.groups) + PutRecords(chunk.records, Deltas(chunk.records, map[]).value));
    var z := PutName(zone).value + c2;
    var p := PutName(place).value + z;
    assert bytes == Header() + p;
    HeaderRead(p);
    NameRoundTrip(place, c.utf8, z);
    NameRoundTrip(zone, c.utf8, c2);
    GroupStage(c, bytes, place, zone, rows);
  }

  lemma HeaderRead(p: seq<Byte>)
    ensures var bytes := Header() + p;
      |bytes| >= 8 && bytes[..4] == MAGIC && bytes[4] == VERSION && bytes[8..] == p
  {
    assert |Header()| == 8;
    assert (Header() + p)[..4] == Header()[..4] == MAGIC;
  }

  /** What the records are: a sorted permutation of the input rows, each carrying the number of its
      binding, and every group counts exactly its records. */
  lemma EncodedRecords(c: Codec, place: Text, zone: Text, rows: seq<Row>)
    requires forall i :: 0 <= i < |rows| ==> ValidRow(rows[i])
    requires EncodeOf(c, place, zone, rows).Ok?
    ensures var chunk := EncodeOf(c, place, zone, rows).value;
      && Sorted(chunk.records, RecLe)
      && multiset(chunk.records) == multiset(Tagged(rows))
      && (forall i :: 0 <= i < |rows| ==>
            Tagged(rows)[i].group < |chunk.groups| && chunk.groups[Tagged(rows)[i].group].binding == rows[i].binding)
      && (forall g :: 0 <= g < |chunk.groups| ==> chunk.groups[g].count == CountOf(chunk.records, g))
  {
    hide Pow256, Le, Deltas, PutGroups, PutRecords, PutName, Sort, RecLe, CountOf;
    RecordFacts(rows);
    forall i | 0 <= i < |rows|
      ensures rows[i].binding in FirstSeen(Bindings(rows))
    {
      assert Bindings(rows)[i] == rows[i].binding;
    }
  }

  // ---------------------------------------------------------------------------------------------
  // The codec as it runs.

  lemma IndexStays<T(!new)>(seen: seq<T>, all: seq<T>, x: T)
    requires seen <= all && NoDuplicates(all) && x in seen
    ensures x in all && IndexIn(all, x) == IndexIn(seen, x)
  {
    var i := IndexIn(seen, x);
    assert all[i] == x;
    var j := IndexIn(all, x);
    assert all[j] == x;
  }

  /** Number the groups as rows arrive. */
  method GroupRows(rows: seq<Row>) returns (r: Result<(seq<Binding>, seq<Rec>), CodecError>)
    ensures var bindings := FirstSeen(Bindings(rows));
      r == if |bindings| > MAX_GROUPS then Err(GroupCap) else Ok((bindings, Tagged(rows)))
  {
    hide FirstSeen, Tagged, Numbered, Filed;
    ghost var all := Bindings(rows);
    var keys: map<Binding, nat> := map[];
    var groups: seq<Binding> := [];
    var tagged: seq<Rec> := [];
    FirstSeenNone<Binding>();
    NoneNumbered(rows);
    for k := 0 to |rows|
      invariant groups == FirstSeen(all[..k]) && |groups| <= MAX_GROUPS
      invariant Numbered(keys, groups) && Filed(rows, k, groups, tagged)
    {
      var row := rows[k];
      FirstSeenSnoc(all, k);
      FirstSeenPrefix(all, k + 1);
      IsNumbered(keys, groups, row.binding);
      if row.binding !in keys {
        if |groups| >= MAX_GROUPS {
          return Err(GroupCap);
        }
        NumberNext(keys, groups, row.binding);
        FiledNext(rows, k, groups, tagged, row.binding);
        keys := keys[row.binding := |groups|];
        groups := groups + [row.binding];
        IsNumbered(keys, groups, row.binding);
      }
      FileNext(rows, k, groups, tagged);
      tagged := tagged + [Rec(keys[row.binding], row.pose, row.yaw, row.scale)];
    }
    assert all[..|rows|] == all;
    TaggedIs(rows, groups, tagged);
    return Ok((groups, tagged));
  }

  /** The key map holds the number of every group. */
  ghost predicate Numbered(keys: map<Binding, nat>, groups: seq<Binding>) {
    && NoDuplicates(groups)
    && (forall x :: x in keys <==> x in groups)
    && (forall x :: x in groups ==> keys[x] == IndexIn(groups, x))
  }

  /** The first `k` rows are tagged with their groups' numbers. */
  ghost predicate Filed(rows: seq<Row>, k: nat, groups: seq<Binding>, tagged: seq<Rec>) {
    && k <= |rows| && |tagged| == k
    && (forall i :: 0 <= i < k ==> rows[i].binding in groups)
    && (forall i :: 0 <= i < k ==>
          tagged[i] == Rec(IndexIn(groups, rows[i].binding), rows[i].pose, rows[i].yaw, rows[i].scale))
  }

  lemma NoneNumbered(rows: seq<Row>)
    ensures Numbered(map[], []) && Filed(rows, 0, [], [])
  {
  }

  lemma IsNumbered(keys: map<Binding, nat>, groups: seq<Binding>, x: Binding)
    requires Numbered(keys, groups)
    ensures x in keys <==> x in groups
    ensures x in groups ==> keys[x] == IndexIn(groups, x)
  {
  }

  lemma NumberNext(keys: map<Binding, nat>, groups: seq<Binding>, x: Binding)
    requires Numbered(keys, groups) && x !in groups
    ensures Numbered(keys[x := |groups|], groups + [x])
  {
    hide IndexIn;
    AllStay(groups, groups + [x]);
    LastIndex(groups, x);
  }

  lemma FiledNext(rows: seq<Row>, k: nat, groups: seq<Binding>, tagged: seq<Rec>, x: Binding)
    requires Filed(rows, k, groups, tagged) && NoDuplicates(groups + [x])
    ensures Filed(rows, k, groups + [x], tagged)
  {
    hide IndexIn;
    AllStay(groups, groups + [x]);
  }

  lemma FileNext(rows: seq<Row>, k: nat, groups: seq<Binding>, tagged: seq<Rec>)
    requires k < |rows| && Filed(rows, k, groups, tagged) && rows[k].binding in groups
    ensures Filed(rows, k + 1, groups,
                  tagged + [Rec(IndexIn(groups, rows[k].binding), rows[k].pose, rows[k].yaw, rows[k].scale)])
  {
    hide IndexIn;
  }

  lemma TaggedIs(rows: seq<Row>, groups: seq<Binding>, tagged: seq<Rec>)
    requires groups == FirstSeen(Bindings(rows)) && Filed(rows, |rows|, groups, tagged)
    ensures tagged == Tagged(rows)
  {
    hide FirstSeen, IndexIn;
  }

  lemma AllStay(before: seq<Binding>, after: seq<Binding>)
    requires before <= after && NoDuplicates(after)
    ensures forall x :: x in before ==> x in after && IndexIn(after, x) == IndexIn(before, x)
  {
    forall x | x in before
      ensures x in after && IndexIn(after, x) == IndexIn(before, x)
    {
      IndexStays(before, after, x);
    }
  }

  lemma {:induction false} LastIndex(before: seq<Binding>, x: Binding)
    requires x !in before
    ensures IndexIn(before + [x], x) == |before|
  {
    if before != [] {
      LastIndex(before[1..], x);
      assert (before + [x])[1..] == before[1..] + [x];
    }
  }

  function Joined(ds: seq<Delta>, t: Result<seq<Delta>, CodecError>): Result<seq<Delta>, CodecError> {
    if t.Err? then t else Ok(ds + t.value)
  }

  lemma JoinedStep(ds: seq<Delta>, d: Delta, t: Result<seq<Delta>, CodecError>)
    ensures Joined(ds + [d], t) == Joined(ds, Joined([d], t)) && Joined([], t) == t
  {
    if t.Ok? {
      assert ds + [d] + t.value == ds + ([d] + t.value);
      assert [] + t.value == t.value;
    }
  }

  /** The delta loop, which also counts. */
  method DeltaLoop(recs: seq<Rec>, groups: nat) returns (r: Result<seq<Delta>, CodecError>, counts: seq<nat>)
    requires forall i :: 0 <= i < |recs| ==> recs[i].group < groups
    ensures r == Deltas(recs, map[])
    ensures r.Ok? ==> |counts| == groups && forall g :: 0 <= g < groups ==> counts[g] == CountOf(recs, g)
  {
    hide DeltaOf, IsI16;
    counts := seq(groups, _ => 0);
    var last: Last := map[];
    var ds: seq<Delta> := [];
    JoinedStep([], Delta(0, 0, 0, 0, 0), Deltas(recs, map[]));
    assert recs[0..] == recs && recs[..0] == [];
    for k := 0 to |recs|
      invariant Deltas(recs, map[]) == Joined(ds, Deltas(recs[k..], last))
      invariant |counts| == groups && forall g :: 0 <= g < groups ==> counts[g] == CountOf(recs[..k], g)
    {
      var rec := recs[k];
      assert recs[k..][0] == rec && recs[k..][1..] == recs[k + 1..];
      assert recs[..k + 1][..k] == recs[..k];
      counts := counts[rec.group := counts[rec.group] + 1];
      var d := DeltaOf(last, rec);
      if !IsI16(d.scale) {
        return Err(ScaleDelta), counts;
      }
      JoinedStep(ds, d, Deltas(recs[k + 1..], last[rec.group := rec]));
      ds := ds + [d];
      last := last[rec.group := rec];
    }
    assert recs[..|recs|] == recs && recs[|recs|..] == [];
    assert ds + [] == ds;
    return Ok(ds), counts;
  }

  method PushGroups(buf: seq<Byte>, gs: seq<Group>) returns (out: seq<Byte>)
    ensures out == buf + PutGroups(gs)
  {
    hide PutGroup;
    out := buf;
    for k := 0 to |gs|
      invariant out + PutGroups(gs[k..]) == buf + PutGroups(gs)
    {
      assert gs[k..][0] == gs[k] && gs[k..][1..] == gs[k + 1..];
      out := out + PutGroup(gs[k]);
    }
  }

  /** Append names, groups and columns to the header, in order. */
  method WriteBytes(place: seq<Byte>, zone: seq<Byte>, gs: seq<Group>, recs: seq<Rec>, ds: seq<Delta>)
    returns (buf: seq<Byte>)
    ensures buf == Header() + (place + (zone + (Le(|gs|, 2) + (PutGroups(gs) + PutRecords(recs, ds)))))
  {
    hide Le, PutGroups, PutInts, Column, GroupColumn, Header;
    buf := Header() + place + zone + Le(|gs|, 2);
    buf := PushGroups(buf, gs);
    buf := buf + Le(|recs|, 4);
    buf := PushInts(buf, GroupColumn(recs), 2);
    buf := PushInts(buf, Column(ds, XOf, 4), 4);
    buf := PushInts(buf, Column(ds, YOf, 4), 4);
    buf := PushInts(buf, Column(ds, ZOf, 4), 4);
    buf := PushInts(buf, Column(ds, YawOf, 4), 4);
    buf := PushInts(buf, Column(ds, ScaleOf, 2), 2);
  }

  method EncodeChunk(c: Codec, place: Text, zone: Text, rows: seq<Row>) returns (r: Result<Chunk, CodecError>)
    ensures r == EncodeOf(c, place, zone, rows)
  {
    hide FirstSeen, Tagged, Sort, Deltas, PutName, PutGroups, PutRecords, Header, CountOf, Bindings;
    if |rows| > MAX_RECORDS {
      return Err(RecordCap);
    }
    var grouped := GroupRows(rows);
    if grouped.Err? {
      return Err(grouped.error);
    }
    var (bindings, tagged) := grouped.value;
    var recs := Sort(tagged, RecLe);
    assert recs == Records(rows);
    GroupsInRange(rows);
    var ds, counts := DeltaLoop(recs, |bindings|);
    if ds.Err? {
      return Err(ds.error);
    }
    var p, z := PutName(place), PutName(zone);
    if p.Err? {
      return Err(p.error);
    }
    if z.Err? {
      return Err(z.error);
    }
    var gs := seq(|bindings|, i requires 0 <= i < |bindings| && |counts| == |bindings| =>
      Group(GroupId(c, bindings[i]), bindings[i], counts[i]));
    assert gs == Groups(c, bindings, recs);
    var buf := WriteBytes(p.value, z.value, gs, recs, ds.value);
    return Ok(Chunk(place, zone, c.digest(buf), buf, gs, recs));
  }

  lemma GroupsInRange(rows: seq<Row>)
    ensures forall i :: 0 <= i < |Records(rows)| ==> Records(rows)[i].group < |FirstSeen(Bindings(rows))|
  {
    forall i | 0 <= i < |Records(rows)|
      ensures Records(rows)[i].group < |FirstSeen(Bindings(rows))|
    {
      assert Records(rows)[i] in multiset(Tagged(rows));
      var k :| 0 <= k < |rows| && Tagged(rows)[k] == Records(rows)[i];
      assert Bindings(rows)[k] == rows[k].binding;
    }
  }

  function After(gs: seq<Group>, t: Taken<seq<Group>>): Taken<seq<Group>> {
    match t
    case Err(e) => Err(e)
    case Ok((more, rest)) => Ok((gs + more, rest))
  }

  lemma AfterStep(gs: seq<Group>, g: Group, t: Taken<seq<Group>>)
    ensures After(gs + [g], t) == After(gs, After([g], t)) && After([], t) == t
  {
    if t.Ok? {
      assert gs + [g] + t.value.0 == gs + ([g] + t.value.0);
      assert [] + t.value.0 == t.value.0;
    }
  }

  method ReadGroups(rest0: seq<Byte>, n: nat) returns (r: Taken<seq<Group>>)
    ensures r == TakeGroups(rest0, n)
  {
    hide TakeGroup;
    var gs: seq<Group> := [];
    var rest := rest0;
    AfterStep([], Group([], Binding([], [], None, 0), 0), TakeGroups(rest0, n));
    for k := 0 to n
      invariant TakeGroups(rest0, n) == After(gs, TakeGroups(rest, n - k))
    {
      var t := TakeGroup(rest);
      if t.Err? {
        return Err(t.error);
      }
      AfterStep(gs, t.value.0, TakeGroups(t.value.1, n - k - 1));
      gs, rest := gs + [t.value.0], t.value.1;
    }
    assert gs + [] == gs;
    return Ok((gs, rest));
  }

  function Behind(rs: seq<Rec>, t: Result<seq<Rec>, CodecError>): Result<seq<Rec>, CodecError> {
    if t.Err? then t else Ok(rs + t.value)
  }

  lemma BehindStep(rs: seq<Rec>, r: Rec, t: Result<seq<Rec>, CodecError>)
    ensures Behind(rs + [r], t) == Behind(rs, Behind([r], t)) && Behind([], t) == t
  {
    if t.Ok? {
      assert rs + [r] + t.value == rs + ([r] + t.value);
      assert [] + t.value == t.value;
    }
  }

  /** Undo the deltas, group by group. */
  method RebuildLoop(col: seq<nat>, ds: seq<Delta>, groups: nat) returns (r: Result<seq<Rec>, CodecError>)
    requires |col| == |ds|
    ensures r == Rebuild(col, ds, groups, map[])
  {
    hide Apply;
    var last: Last := map[];
    var recs: seq<Rec> := [];
    BehindStep([], Rec(0, Vec3(0, 0, 0), 0, 0), Rebuild(col, ds, groups, map[]));
    assert col[0..] == col && ds[0..] == ds;
    for k := 0 to |col|
      invariant Rebuild(col, ds, groups, map[]) == Behind(recs, Rebuild(col[k..], ds[k..], groups, last))
    {
      assert col[k..][0] == col[k] && col[k..][1..] == col[k + 1..];
      assert ds[k..][0] == ds[k] && ds[k..][1..] == ds[k + 1..];
      if col[k] >= groups {
        return Err(GroupIndex);
      }
      var rec := Apply(last, col[k], ds[k]);
      if rec.Err? {
        return Err(rec.error);
      }
      BehindStep(recs, rec.value, Rebuild(col[k + 1..], ds[k + 1..], groups, last[col[k] := rec.value]));
      recs := recs + [rec.value];
      last := last[col[k] := rec.value];
    }
    assert recs + [] == recs;
    return Ok(recs);
  }

  method ReadRecords(rest: seq<Byte>, groups: nat) returns (r: Result<seq<Rec>, CodecError>)
    ensures r == TakeRecords(rest, groups)
  {
    hide TakeInt, TakeInts, Rebuild, DeltasFrom;
    var t := TakeInt(rest, 4);
    if t.Err? {
      return Err(t.error);
    }
    var (n, a) := t.value;
    if n > MAX_RECORDS {
      return Err(RecordCap);
    }
    var col := ReadInts(a, n, 2);
    if col.Err? {
      return Err(col.error);
    }
    var x := ReadInts(col.value.1, n, 4);
    if x.Err? {
      return Err(x.error);
    }
    var y := ReadInts(x.value.1, n, 4);
    if y.Err? {
      return Err(y.error);
    }
    var z := ReadInts(y.value.1, n, 4);
    if z.Err? {
      return Err(z.error);
    }
    var yaw := ReadInts(z.value.1, n, 4);
    if yaw.Err? {
      return Err(yaw.error);
    }
    var scale := ReadInts(yaw.value.1, n, 2);
    if scale.Err? {
      return Err(scale.error);
    }
    if scale.value.1 != [] {
      return Err(Trailing);
    }
    TakenLength(a, n, 2);
    TakenLength(col.value.1, n, 4);
    TakenLength(x.value.1, n, 4);
    TakenLength(y.value.1, n, 4);
    TakenLength(z.value.1, n, 4);
    TakenLength(yaw.value.1, n, 2);
    var cols := Columns(x.value.0, y.value.0, z.value.0, yaw.value.0, scale.value.0);
    r := RebuildLoop(col.value.0, DeltasFrom(cols, n), groups);
  }

  lemma {:induction false} TakenLength(rest: seq<Byte>, n: nat, w: nat)
    ensures TakeInts(rest, n, w).Ok? ==> |TakeInts(rest, n, w).value.0| == n
    decreases n
  {
    hide TakeInt;
    if n > 0 && TakeInt(rest, w).Ok? {
      TakenLength(TakeInt(rest, w).value.1, n - 1, w);
    }
  }

  method DecodeChunk(c: Codec, bytes: seq<Byte>) returns (r: Result<Chunk, CodecError>)
    ensures r == DecodeOf(c, bytes)
  {
    hide TakeInt, TakeName, TakeGroups, TakeRecords;
    if |bytes| < 8 {
      return Err(Truncated);
    }
    if bytes[..4] != MAGIC {
      return Err(BadMagic);
    }
    if bytes[4] != VERSION {
      return Err(BadVersion(bytes[4]));
    }
    var place := TakeName(bytes[8..], c.utf8);
    if place.Err? {
      return Err(place.error);
    }
    var zone := TakeName(place.value.1, c.utf8);
    if zone.Err? {
      return Err(zone.error);
    }
    var n := TakeInt(zone.value.1, 2);
    if n.Err? {
      return Err(n.error);
    }
    if n.value.0 > MAX_GROUPS {
      return Err(GroupCap);
    }
    var gs := ReadGroups(n.value.1, n.value.0);
    if gs.Err? {
      return Err(gs.error);
    }
    var recs := ReadRecords(gs.value.1, |gs.value.0|);
    if recs.Err? {
      return Err(recs.error);
    }
    return Ok(Chunk(place.value.0, zone.value.0, c.digest(bytes), bytes, gs.value.0, recs.value));
  }
}
