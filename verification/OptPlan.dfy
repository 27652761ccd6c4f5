/** The KOPT whole-title plan. */
module OptPlan {
  // What the encoder writes is read back exactly when the plan is well formed.

  import opened Prelude
  import opened Space
  import opened Sorting
  import opened Bytes

  const MAGIC: seq<Byte> := [0x4B, 0x4F, 0x50, 0x54]
  const MAX_ROWS: nat := U16_MAX
  const MAX_FILES: nat := 16384
  const MAX_TEXT: nat := 65536
  const MAX_PERMUTATIONS: nat := 16
  const FILE_CAP: nat := 0x2000_0000

  datatype PackedRow = PackedRow(table: Text, stableId: nat, storageIndex: nat)
  datatype PlacePlan = PlacePlan(place: nat, aabb: Aabb, accessGroup: nat, assets: seq<seq<Byte>>)
  datatype SkuPlan = SkuPlan(sku: Text, permutations: seq<Byte>)
  datatype File = File(path: Text, contents: seq<Byte>)

  /** Files in the order the encoder's map yields them. */
  datatype Plan = Plan(tables: seq<PackedRow>, places: seq<PlacePlan>, skus: seq<SkuPlan>, files: seq<File>)

  /** The text, table, kind and path checks. */
  datatype Checks = Checks(
    utf8: Text -> bool,
    knownTable: Text -> bool,
    isPlace: nat -> bool,
    shippable: Text -> bool)

  // ---------------------------------------------------------------------------------------------
  // Lists: a count, then the elements.

  function PutAll<T>(xs: seq<T>, put: T -> seq<Byte>): seq<Byte> {
    if xs == [] then [] else put(xs[0]) + PutAll(xs[1..], put)
  }

  function TakeAll<T>(rest: seq<Byte>, n: nat, take: seq<Byte> -> Taken<T>): Taken<seq<T>>
    decreases n
  {
    if n == 0 then Ok(([], rest))
    else
      match take(rest)
      case Err(e) => Err(e)
      case Ok((x, more)) =>
        match TakeAll(more, n - 1, take)
        case Err(e) => Err(e)
        case Ok((xs, tail)) => Ok(([x] + xs, tail))
  }

  /** `take_count`. */
  function TakeCount(rest: seq<Byte>, cap: nat): Taken<nat> {
    match TakeInt(rest, 4)
    case Err(e) => Err(e)
    case Ok((n, more)) => if n > cap then Err(RecordCap) else Ok((n, more))
  }

  function PutList<T>(xs: seq<T>, put: T -> seq<Byte>): seq<Byte> { Le(|xs|, 4) + PutAll(xs, put) }

  function TakeList<T>(rest: seq<Byte>, cap: nat, take: seq<Byte> -> Taken<T>): Taken<seq<T>> {
    match TakeCount(rest, cap)
    case Err(e) => Err(e)
    case Ok((n, more)) => TakeAll(more, n, take)
  }

  /** `take` reads back what `put` writes for good elements, and refuses the others. */
  ghost predicate Reads<T(!new)>(xs: seq<T>, put: T -> seq<Byte>, take: seq<Byte> -> Taken<T>, good: T -> bool) {
    forall i, rest :: 0 <= i < |xs| ==>
      if good(xs[i]) then take(put(xs[i]) + rest) == Ok((xs[i], rest)) else take(put(xs[i]) + rest).Err?
  }

  ghost predicate AllGood<T>(xs: seq<T>, good: T -> bool) { forall i :: 0 <= i < |xs| ==> good(xs[i]) }

  lemma {:induction false} TakeAllExact<T(!new)>(xs: seq<T>, put: T -> seq<Byte>, take: seq<Byte> -> Taken<T>,
                                                 good: T -> bool, rest: seq<Byte>)
    requires Reads(xs, put, take, good)
    ensures var r := TakeAll(PutAll(xs, put) + rest, |xs|, take);
      if AllGood(xs, good) then r == Ok((xs, rest)) else r.Err?
    decreases |xs|
  {
    if xs == [] {
      assert PutAll(xs, put) + rest == rest;
    } else {
      var more := PutAll(xs[1..], put) + rest;
      assert PutAll(xs, put) + rest == put(xs[0]) + more;
      forall i, r | 0 <= i < |xs[1..]|
        ensures if good(xs[1..][i]) then take(put(xs[1..][i]) + r) == Ok((xs[1..][i], r)) else take(put(xs[1..][i]) + r).Err?
      {
        assert xs[1..][i] == xs[i + 1];
      }
      TakeAllExact(xs[1..], put, take, good, rest);
      GoodSplit(xs, good);
      assert xs == [xs[0]] + xs[1..];
    }
  }

  lemma GoodSplit<T>(xs: seq<T>, good: T -> bool)
    requires xs != []
    ensures AllGood(xs, good) <==> good(xs[0]) && AllGood(xs[1..], good)
  {
    if good(xs[0]) && AllGood(xs[1..], good) {
      forall i | 0 <= i < |xs|
        ensures good(xs[i])
      {
        if i > 0 {
          assert xs[1..][i - 1] == xs[i];
        }
      }
    }
  }

  lemma TakeListExact<T(!new)>(xs: seq<T>, cap: nat, put: T -> seq<Byte>, take: seq<Byte> -> Taken<T>, good: T -> bool,
                               rest: seq<Byte>)
    requires |xs| <= U32_MAX && Reads(xs, put, take, good)
    ensures var r := TakeList(PutList(xs, put) + rest, cap, take);
      if |xs| <= cap && AllGood(xs, good) then r == Ok((xs, rest)) else r.Err?
  {
    hide Le, TakeInt, Pow256, PutAll, TakeAll, Reads, AllGood;
    Widths();
    assert PutList(xs, put) + rest == Le(|xs|, 4) + (PutAll(xs, put) + rest);
    TakeLe(|xs|, 4, PutAll(xs, put) + rest);
    TakeAllExact(xs, put, take, good, rest);
  }

  // ---------------------------------------------------------------------------------------------
  // Strings and byte strings.

  function PutText(t: Text): seq<Byte> { Le(|t|, 4) + t }

  function TakeSized(rest: seq<Byte>, cap: nat): Taken<seq<Byte>> {
    match TakeCount(rest, cap)
    case Err(e) => Err(e)
    case Ok((n, more)) => Take(more, n)
  }

  lemma SizedExact(t: Text, cap: nat, rest: seq<Byte>)
    requires |t| <= U32_MAX
    ensures TakeSized(PutText(t) + rest, cap) == if |t| <= cap then Ok((t, rest)) else Err(RecordCap)
  {
    hide Le, TakeInt, Pow256, Take;
    Widths();
    assert PutText(t) + rest == Le(|t|, 4) + (t + rest);
    TakeLe(|t|, 4, t + rest);
    TakePrefix(t, rest);
  }

  function TakeText(c: Checks, rest: seq<Byte>): Taken<Text> {
    match TakeSized(rest, MAX_TEXT)
    case Err(e) => Err(e)
    case Ok((t, more)) => if c.utf8(t) then Ok((t, more)) else Err(BadName)
  }

  lemma TextExact(c: Checks, t: Text, rest: seq<Byte>)
    requires |t| <= U32_MAX && c.utf8(t)
    ensures TakeText(c, PutText(t) + rest) == if |t| <= MAX_TEXT then Ok((t, rest)) else Err(RecordCap)
  {
    hide PutText, TakeSized;
    SizedExact(t, MAX_TEXT, rest);
  }

  // ---------------------------------------------------------------------------------------------
  // Order.

  /** Byte-lexicographic, a proper prefix first. */
  predicate TextLt(a: Text, b: Text) {
    if b == [] then false
    else if a == [] then true
    else a[0] < b[0] || (a[0] == b[0] && TextLt(a[1..], b[1..]))
  }

  predicate PlaceLt(a: PlacePlan, b: PlacePlan) {
    a.accessGroup < b.accessGroup || (a.accessGroup == b.accessGroup && a.place < b.place)
  }

  predicate SkuLt(a: SkuPlan, b: SkuPlan) { TextLt(a.sku, b.sku) }

  predicate ByteLt(a: Byte, b: Byte) { a < b }

  /** `windows(2).all(|pair| pair[0] < pair[1])`. */
  predicate Stepwise<T>(xs: seq<T>, lt: (T, T) -> bool) {
    forall i :: 0 <= i < |xs| - 1 ==> lt(xs[i], xs[i + 1])
  }

  // ---------------------------------------------------------------------------------------------
  // Elements.

  function PutRow(r: PackedRow): seq<Byte> { PutText(r.table) + (Le(r.stableId, 2) + Le(r.storageIndex, 2)) }

  function TakeRow(c: Checks): seq<Byte> -> Taken<PackedRow> {
    (rest: seq<Byte>) => TakeRowAt(c, rest)
  }

  function TakeRowAt(c: Checks, rest: seq<Byte>): Taken<PackedRow> {
    match TakeText(c, rest)
    case Err(e) => Err(e)
    case Ok((table, a)) =>
      if !c.knownTable(table) then Err(BadTag(0))
      else
        match TakeInt(a, 2)
        case Err(e) => Err(e)
        case Ok((stable, b)) =>
          match TakeInt(b, 2)
          case Err(e) => Err(e)
          case Ok((storage, d)) => Ok((PackedRow(table, stable, storage), d))
  }

  predicate RowTyped(c: Checks, r: PackedRow) {
    |r.table| <= U32_MAX && c.utf8(r.table) && r.stableId <= U16_MAX && r.storageIndex <= U16_MAX
  }

  predicate GoodRow(c: Checks, r: PackedRow) { |r.table| <= MAX_TEXT && c.knownTable(r.table) }

  lemma RowExact(c: Checks, r: PackedRow, rest: seq<Byte>)
    requires RowTyped(c, r)
    ensures var t := TakeRowAt(c, PutRow(r) + rest);
      if GoodRow(c, r) then t == Ok((r, rest)) else t.Err?
  {
    hide Le, TakeInt, Pow256, PutText, TakeText;
    Widths();
    var b := Le(r.storageIndex, 2) + rest;
    var a := Le(r.stableId, 2) + b;
    assert PutRow(r) + rest == PutText(r.table) + a;
    TextExact(c, r.table, a);
    TakeLe(r.stableId, 2, b);
    TakeLe(r.storageIndex, 2, rest);
  }

  function Words(b: Aabb): seq<nat> {
    [Unsigned(b.min.x, 4), Unsigned(b.min.y, 4), Unsigned(b.min.z, 4),
     Unsigned(b.max.x, 4), Unsigned(b.max.y, 4), Unsigned(b.max.z, 4)]
  }

  function FromWords(w: seq<nat>): Aabb
    requires |w| == 6
  {
    Aabb(Vec3(Bytes.Signed(w[0], 4), Bytes.Signed(w[1], 4), Bytes.Signed(w[2], 4)),
         Vec3(Bytes.Signed(w[3], 4), Bytes.Signed(w[4], 4), Bytes.Signed(w[5], 4)))
  }

  lemma WordsRoundTrip(b: Aabb)
    requires IsI32Vec(b.min) && IsI32Vec(b.max)
    ensures FromWords(Words(b)) == b && forall i :: 0 <= i < 6 ==> Words(b)[i] < Pow256(4)
  {
    Widths();
    hide Unsigned, Bytes.Signed, Pow256;
    SignedRoundTrip(b.min.x, 4);
    SignedRoundTrip(b.min.y, 4);
    SignedRoundTrip(b.min.z, 4);
    SignedRoundTrip(b.max.x, 4);
    SignedRoundTrip(b.max.y, 4);
    SignedRoundTrip(b.max.z, 4);
  }

  function Raw(b: seq<Byte>): seq<Byte> { b }

  function TakeAsset(rest: seq<Byte>): Taken<seq<Byte>> { Take(rest, 32) }

  function PutPlace(p: PlacePlan): seq<Byte> {
    Le(p.place, 16) + (PutInts(Words(p.aabb), 4) + (Le(p.accessGroup, 2) + PutList(p.assets, Raw)))
  }

  function TakePlace(c: Checks): seq<Byte> -> Taken<PlacePlan> {
    (rest: seq<Byte>) => TakePlaceAt(c, rest)
  }

  function TakePlaceAt(c: Checks, rest: seq<Byte>): Taken<PlacePlan> {
    match TakeInt(rest, 16)
    case Err(e) => Err(e)
    case Ok((place, a)) =>
      if !c.isPlace(place) then Err(BadTag(1))
      else
        match TakeInts(a, 6, 4)
        case Err(e) => Err(e)
        case Ok((w, b)) =>
          match TakeInt(b, 2)
          case Err(e) => Err(e)
          case Ok((group, d)) =>
            match TakeList(d, MAX_FILES, TakeAsset)
            case Err(e) => Err(e)
            case Ok((assets, f)) =>
              if !Stepwise(assets, TextLt) then Err(BadOrder)
              else if |w| != 6 then Err(Truncated)
              else Ok((PlacePlan(place, FromWords(w), group, assets), f))
  }

  predicate PlaceTyped(p: PlacePlan) {
    && p.place < Pow256(16) && IsI32Vec(p.aabb.min) && IsI32Vec(p.aabb.max) && p.accessGroup <= U16_MAX
    && |p.assets| <= U32_MAX && forall i :: 0 <= i < |p.assets| ==> |p.assets[i]| == 32
  }

  predicate GoodPlace(c: Checks, p: PlacePlan) {
    c.isPlace(p.place) && |p.assets| <= MAX_FILES && Stepwise(p.assets, TextLt)
  }

  predicate Always(b: seq<Byte>) { true }

  lemma AssetsExact(assets: seq<seq<Byte>>, rest: seq<Byte>)
    requires |assets| <= U32_MAX && forall i :: 0 <= i < |assets| ==> |assets[i]| == 32
    ensures var r := TakeList(PutList(assets, Raw) + rest, MAX_FILES, TakeAsset);
      if |assets| <= MAX_FILES then r == Ok((assets, rest)) else r.Err?
  {
    forall i, r | 0 <= i < |assets|
      ensures TakeAsset(Raw(assets[i]) + r) == Ok((assets[i], r))
    {
      TakePrefix(assets[i], r);
    }
    hide PutList, TakeList;
    TakeListExact(assets, MAX_FILES, Raw, TakeAsset, Always, rest);
    assert AllGood(assets, Always);
  }

  lemma PlaceExact(c: Checks, p: PlacePlan, rest: seq<Byte>)
    requires PlaceTyped(p)
    ensures var t := TakePlaceAt(c, PutPlace(p) + rest);
      if GoodPlace(c, p) then t == Ok((p, rest)) else t.Err?
  {
    Widths();
    hide Le, TakeInt, TakeInts, PutInts, Pow256, PutList, TakeList, Words, FromWords, Stepwise;
    var d := PutList(p.assets, Raw) + rest;
    var b := Le(p.accessGroup, 2) + d;
    var a := PutInts(Words(p.aabb), 4) + b;
    assert PutPlace(p) + rest == Le(p.place, 16) + a;
    TakeLe(p.place, 16, a);
    WordsRoundTrip(p.aabb);
    SixWords(p.aabb);
    IntsRoundTrip(Words(p.aabb), 4, b);
    TakeLe(p.accessGroup, 2, d);
    AssetsExact(p.assets, rest);
  }

  lemma SixWords(b: Aabb)
    ensures |Words(b)| == 6
  {
  }

  function PutSku(s: SkuPlan): seq<Byte> { PutText(s.sku) + PutText(s.permutations) }

  function TakeSku(c: Checks): seq<Byte> -> Taken<SkuPlan> {
    (rest: seq<Byte>) => TakeSkuAt(c, rest)
  }

  function TakeSkuAt(c: Checks, rest: seq<Byte>): Taken<SkuPlan> {
    match TakeText(c, rest)
    case Err(e) => Err(e)
    case Ok((sku, a)) =>
      match TakeSized(a, MAX_PERMUTATIONS)
      case Err(e) => Err(e)
      case Ok((perms, b)) => if Stepwise(perms, ByteLt) then Ok((SkuPlan(sku, perms), b)) else Err(BadOrder)
  }

  predicate SkuTyped(c: Checks, s: SkuPlan) { |s.sku| <= U32_MAX && c.utf8(s.sku) && |s.permutations| <= U32_MAX }

  predicate GoodSku(s: SkuPlan) {
    |s.sku| <= MAX_TEXT && |s.permutations| <= MAX_PERMUTATIONS && Stepwise(s.permutations, ByteLt)
  }

  lemma SkuExact(c: Checks, s: SkuPlan, rest: seq<Byte>)
    requires SkuTyped(c, s)
    ensures var t := TakeSkuAt(c, PutSku(s) + rest); if GoodSku(s) then t == Ok((s, rest)) else t.Err?
  {
    hide PutText, TakeText, TakeSized, Stepwise;
    assert PutSku(s) + rest == PutText(s.sku) + (PutText(s.permutations) + rest);
    TextExact(c, s.sku, PutText(s.permutations) + rest);
    SizedExact(s.permutations, MAX_PERMUTATIONS, rest);
  }

  function PutFile(f: File): seq<Byte> { PutText(f.path) + PutText(f.contents) }

  function TakeFile(c: Checks): seq<Byte> -> Taken<File> {
    (rest: seq<Byte>) => TakeFileAt(c, rest)
  }

  function TakeFileAt(c: Checks, rest: seq<Byte>): Taken<File> {
    match TakeText(c, rest)
    case Err(e) => Err(e)
    case Ok((path, a)) =>
      if !c.shippable(path) then Err(BadPath)
      else
        match TakeSized(a, FILE_CAP)
        case Err(e) => Err(e)
        case Ok((contents, b)) => Ok((File(path, contents), b))
  }

  predicate FileTyped(c: Checks, f: File) { |f.path| <= U32_MAX && c.utf8(f.path) && |f.contents| <= U32_MAX }

  predicate GoodFile(c: Checks, f: File) { |f.path| <= MAX_TEXT && c.shippable(f.path) && |f.contents| <= FILE_CAP }

  lemma FileExact(c: Checks, f: File, rest: seq<Byte>)
    requires FileTyped(c, f)
    ensures var t := TakeFileAt(c, PutFile(f) + rest); if GoodFile(c, f) then t == Ok((f, rest)) else t.Err?
  {
    hide PutText, TakeText, TakeSized;
    assert PutFile(f) + rest == PutText(f.path) + (PutText(f.contents) + rest);
    TextExact(c, f.path, PutText(f.contents) + rest);
    SizedExact(f.contents, FILE_CAP, rest);
  }

  // ---------------------------------------------------------------------------------------------
  // The plan.

  /** `encode_whole_title_plan`, when every length fits `u32`. */
  function Encode(p: Plan): seq<Byte> {
    MAGIC + [1] + (PutList(p.tables, PutRow)
      + (PutList(p.places, PutPlace) + (PutList(p.skus, PutSku) + PutList(p.files, PutFile))))
  }

  function Paths(files: seq<File>): (ps: seq<Text>)
    ensures |ps| == |files| && forall i :: 0 <= i < |files| ==> ps[i] == files[i].path
  {
    seq(|files|, i requires 0 <= i < |files| => files[i].path)
  }

  /** The files of a plan; a path already seen ends the reading at once. */
  function TakeNew(c: Checks, rest: seq<Byte>, n: nat, seen: set<Text>): Taken<seq<File>>
    decreases n
  {
    if n == 0 then Ok(([], rest))
    else
      match TakeFileAt(c, rest)
      case Err(e) => Err(e)
      case Ok((f, more)) =>
        if f.path in seen then Err(BadPath)
        else
          match TakeNew(c, more, n - 1, seen + {f.path})
          case Err(e) => Err(e)
          case Ok((files, tail)) => Ok(([f] + files, tail))
  }

  function TakeFiles(c: Checks, rest: seq<Byte>): Result<seq<File>, CodecError> {
    match TakeCount(rest, MAX_FILES)
    case Err(e) => Err(e)
    case Ok((n, more)) =>
      match TakeNew(c, more, n, {})
      case Err(e) => Err(e)
      case Ok((files, tail)) => if tail != [] then Err(Trailing) else Ok(files)
  }

  /** Without a repeated path that is reading a list. */
  lemma {:induction false} TakeNewIs(c: Checks, rest: seq<Byte>, n: nat, seen: set<Text>)
    ensures var t := TakeAll(rest, n, TakeFile(c));
      && (t.Err? ==> TakeNew(c, rest, n, seen).Err?)
      && (t.Ok? && NoDuplicates(Paths(t.value.0)) && (forall p :: p in Paths(t.value.0) ==> p !in seen) ==>
            TakeNew(c, rest, n, seen) == t)
    decreases n
  {
    hide TakeFileAt;
    if n > 0 && TakeFileAt(c, rest).Ok? {
      var (f, more) := TakeFileAt(c, rest).value;
      TakeNewIs(c, more, n - 1, seen + {f.path});
      if TakeAll(more, n - 1, TakeFile(c)).Ok? {
        PathsFirst(f, TakeAll(more, n - 1, TakeFile(c)).value.0);
      }
    }
  }

  lemma PathsFirst(f: File, files: seq<File>)
    ensures Paths([f] + files) == [f.path] + Paths(files)
    ensures NoDuplicates(Paths([f] + files)) ==> NoDuplicates(Paths(files)) && f.path !in Paths(files)
    ensures f.path in Paths([f] + files) && forall p :: p in Paths(files) ==> p in Paths([f] + files)
  {
    var all := [f.path] + Paths(files);
    assert Paths([f] + files) == all;
    assert all[0] == f.path;
    forall p | p in Paths(files)
      ensures p in all
    {
    }
    if NoDuplicates(all) {
      assert forall i :: 0 <= i < |files| ==> Paths(files)[i] == all[i + 1];
    }
  }

  function TakeSkus(c: Checks, rest: seq<Byte>): Taken<seq<SkuPlan>> {
    match TakeList(rest, MAX_FILES, TakeSku(c))
    case Err(e) => Err(e)
    case Ok((skus, a)) => if Stepwise(skus, SkuLt) then Ok((skus, a)) else Err(BadOrder)
  }

  function TakePlaces(c: Checks, rest: seq<Byte>): Taken<seq<PlacePlan>> {
    match TakeList(rest, MAX_ROWS, TakePlace(c))
    case Err(e) => Err(e)
    case Ok((places, a)) => if Stepwise(places, PlaceLt) then Ok((places, a)) else Err(BadOrder)
  }

  /** `decode_whole_title_plan`. */
  function Decode(c: Checks, bytes: seq<Byte>): Result<Plan, CodecError> {
    if |bytes| < 4 then Err(Truncated)
    else if bytes[..4] != MAGIC then Err(BadMagic)
    else if |bytes| < 5 then Err(Truncated)
    else if bytes[4] != 1 then Err(BadMagic)
    else
      match TakeList(bytes[5..], MAX_ROWS, TakeRow(c))
      case Err(e) => Err(e)
      case Ok((tables, a)) =>
        match TakePlaces(c, a)
        case Err(e) => Err(e)
        case Ok((places, b)) =>
          match TakeSkus(c, b)
          case Err(e) => Err(e)
          case Ok((skus, d)) =>
            match TakeFiles(c, d)
            case Err(e) => Err(e)
            case Ok(files) => Ok(Plan(tables, places, skus, files))
  }

  /** What the field types guarantee: machine widths, UTF-8, distinct map keys, and lengths in `u32`. */
  ghost predicate Typed(c: Checks, p: Plan) {
    && |p.tables| <= U32_MAX && |p.places| <= U32_MAX && |p.skus| <= U32_MAX && |p.files| <= U32_MAX
    && (forall i :: 0 <= i < |p.tables| ==> RowTyped(c, p.tables[i]))
    && (forall i :: 0 <= i < |p.places| ==> PlaceTyped(p.places[i]))
    && (forall i :: 0 <= i < |p.skus| ==> SkuTyped(c, p.skus[i]))
    && (forall i :: 0 <= i < |p.files| ==> FileTyped(c, p.files[i]))
    && NoDuplicates(Paths(p.files))
  }

  ghost predicate TablesOk(c: Checks, p: Plan) {
    |p.tables| <= MAX_ROWS && forall i :: 0 <= i < |p.tables| ==> GoodRow(c, p.tables[i])
  }

  ghost predicate PlacesOk(c: Checks, p: Plan) {
    |p.places| <= MAX_ROWS && Stepwise(p.places, PlaceLt) && forall i :: 0 <= i < |p.places| ==> GoodPlace(c, p.places[i])
  }

  ghost predicate SkusOk(p: Plan) {
    |p.skus| <= MAX_FILES && Stepwise(p.skus, SkuLt) && forall i :: 0 <= i < |p.skus| ==> GoodSku(p.skus[i])
  }

  ghost predicate FilesOk(c: Checks, p: Plan) {
    |p.files| <= MAX_FILES && forall i :: 0 <= i < |p.files| ==> GoodFile(c, p.files[i])
  }

  /** Known tables, Place-kind bundles, strictly ascending assets, places, SKUs and permutation ids,
      shippable paths, and everything within its cap. */
  ghost predicate WellFormed(c: Checks, p: Plan) {
    TablesOk(c, p) && PlacesOk(c, p) && SkusOk(p) && FilesOk(c, p)
  }

  function RowGood(c: Checks): PackedRow -> bool { (r: PackedRow) => GoodRow(c, r) }
  function PlaceGood(c: Checks): PlacePlan -> bool { (p: PlacePlan) => GoodPlace(c, p) }
  function FileGood(c: Checks): File -> bool { (f: File) => GoodFile(c, f) }

  lemma TablesStage(c: Checks, p: Plan, rest: seq<Byte>)
    requires Typed(c, p)
    ensures var r := TakeList(PutList(p.tables, PutRow) + rest, MAX_ROWS, TakeRow(c));
      if TablesOk(c, p) then r == Ok((p.tables, rest)) else r.Err?
  {
    hide PutRow, TakeRowAt, GoodRow, RowTyped, PlaceTyped, SkuTyped, FileTyped, PutList, TakeList;
    forall i, r | 0 <= i < |p.tables|
      ensures var t := TakeRow(c)(PutRow(p.tables[i]) + r);
        if RowGood(c)(p.tables[i]) then t == Ok((p.tables[i], r)) else t.Err?
    {
      RowExact(c, p.tables[i], r);
    }
    TakeListExact(p.tables, MAX_ROWS, PutRow, TakeRow(c), RowGood(c), rest);
  }

  lemma PlacesStage(c: Checks, p: Plan, rest: seq<Byte>)
    requires Typed(c, p)
    ensures var r := TakePlaces(c, PutList(p.places, PutPlace) + rest);
      if PlacesOk(c, p) then r == Ok((p.places, rest)) else r.Err?
  {
    hide PutPlace, TakePlaceAt, GoodPlace, RowTyped, PlaceTyped, SkuTyped, FileTyped, PutList, TakeList, Stepwise;
    forall i, r | 0 <= i < |p.places|
      ensures var t := TakePlace(c)(PutPlace(p.places[i]) + r);
        if PlaceGood(c)(p.places[i]) then t == Ok((p.places[i], r)) else t.Err?
    {
      PlaceExact(c, p.places[i], r);
    }
    TakeListExact(p.places, MAX_ROWS, PutPlace, TakePlace(c), PlaceGood(c), rest);
  }

  lemma SkusStage(c: Checks, p: Plan, rest: seq<Byte>)
    requires Typed(c, p)
    ensures var r := TakeSkus(c, PutList(p.skus, PutSku) + rest);
      if SkusOk(p) then r == Ok((p.skus, rest)) else r.Err?
  {
    hide PutSku, TakeSkuAt, GoodSku, RowTyped, PlaceTyped, SkuTyped, FileTyped, PutList, TakeList, Stepwise;
    forall i, r | 0 <= i < |p.skus|
      ensures var t := TakeSku(c)(PutSku(p.skus[i]) + r);
        if GoodSku(p.skus[i]) then t == Ok((p.skus[i], r)) else t.Err?
    {
      SkuExact(c, p.skus[i], r);
    }
    TakeListExact(p.skus, MAX_FILES, PutSku, TakeSku(c), GoodSku, rest);
  }

  lemma FilesAreList(c: Checks, rest: seq<Byte>)
    ensures var t := TakeList(rest, MAX_FILES, TakeFile(c));
      && (t.Err? ==> TakeFiles(c, rest).Err?)
      && (t.Ok? && NoDuplicates(Paths(t.value.0)) ==>
            TakeFiles(c, rest) == if t.value.1 != [] then Err(Trailing) else Ok(t.value.0))
  {
    hide TakeCount, TakeAll, TakeNew;
    var n := TakeCount(rest, MAX_FILES);
    if n.Ok? {
      TakeNewIs(c, n.value.1, n.value.0, {});
    }
  }

  lemma FilesStage(c: Checks, p: Plan)
    requires Typed(c, p)
    ensures var r := TakeFiles(c, PutList(p.files, PutFile));
      if FilesOk(c, p) then r == Ok(p.files) else r.Err?
  {
    hide PutFile, TakeFileAt, GoodFile, RowTyped, PlaceTyped, SkuTyped, FileTyped, PutList, TakeList, TakeFiles;
    forall i, r | 0 <= i < |p.files|
      ensures var t := TakeFile(c)(PutFile(p.files[i]) + r);
        if FileGood(c)(p.files[i]) then t == Ok((p.files[i], r)) else t.Err?
    {
      FileExact(c, p.files[i], r);
    }
    TakeListExact(p.files, MAX_FILES, PutFile, TakeFile(c), FileGood(c), []);
    assert PutList(p.files, PutFile) + [] == PutList(p.files, PutFile);
    FilesAreList(c, PutList(p.files, PutFile));
  }

  /** What the encoder writes is read back, whole and unchanged, exactly when the plan is well formed;
      of any other plan the encoding is refused. */
  lemma PlanRoundTrip(c: Checks, p: Plan)
    requires Typed(c, p)
    ensures var r := Decode(c, Encode(p)); if WellFormed(c, p) then r == Ok(p) else r.Err?
  {
    hide PutList, TakeList, TakePlaces, TakeSkus, TakeFiles, Typed, TablesOk, PlacesOk, SkusOk, FilesOk;
    var d := PutList(p.files, PutFile);
    var b := PutList(p.skus, PutSku) + d;
    var a := PutList(p.places, PutPlace) + b;
    var t := PutList(p.tables, PutRow) + a;
    HeaderIs(t);
    assert Encode(p) == MAGIC + [1] + t;
    TablesStage(c, p, a);
    PlacesStage(c, p, b);
    SkusStage(c, p, d);
    FilesStage(c, p);
  }

  lemma HeaderIs(t: seq<Byte>)
    ensures var bytes := MAGIC + [1] + t; |bytes| >= 5 && bytes[..4] == MAGIC && bytes[4] == 1 && bytes[5..] == t
  {
  }

  // ---------------------------------------------------------------------------------------------
  // Shader permutations: what the plan builder hands over.

  datatype ShaderPerm = ShaderPerm(albedo: bool, metalRough: bool, emissive: bool, alphaTest: bool)

  datatype Tier = Low | Medium | High

  function B(b: bool): nat { if b then 1 else 0 }

  /** The packed id: `albedo` is the lowest bit. */
  function Bits(p: ShaderPerm): Byte { B(p.albedo) + 2 * B(p.metalRough) + 4 * B(p.emissive) + 8 * B(p.alphaTest) }

  /** The derived order of the struct: `albedo` decides first. */
  function Rank(p: ShaderPerm): nat { 8 * B(p.albedo) + 4 * B(p.metalRough) + 2 * B(p.emissive) + B(p.alphaTest) }

  function FromRank(k: nat): ShaderPerm {
    ShaderPerm(k / 8 % 2 == 1, k / 4 % 2 == 1, k / 2 % 2 == 1, k % 2 == 1)
  }

  function Prune(p: ShaderPerm, tier: Tier): ShaderPerm {
    match tier
    case Low => p.(metalRough := false, emissive := false)
    case Medium => p.(emissive := false)
    case High => p
  }

  /** `prune_permutations`. */
  function Pruned(used: seq<ShaderPerm>, tier: Tier): set<nat> {
    if used == [] then {0} else set p | p in used :: Rank(Prune(p, tier))
  }

  /** The ids `build_plan` puts in a SKU: the set in struct order, each member packed. */
  function PermutationIds(used: seq<ShaderPerm>, tier: Tier): (ids: seq<Byte>)
    ensures |ids| == |Pruned(used, tier)|
    ensures forall i :: 0 <= i < |ids| ==> ids[i] == Bits(FromRank(Ascending(Pruned(used, tier))[i]))
  {
    var ranks := Ascending(Pruned(used, tier));
    seq(|ranks|, i requires 0 <= i < |ranks| => Bits(FromRank(ranks[i])))
  }

  /** The struct order and the packed order disagree on two permutations that both survive pruning. */
  ghost predicate OrdersDisagree(used: seq<ShaderPerm>, tier: Tier) {
    exists x, y :: x in Pruned(used, tier) && y in Pruned(used, tier) && x < y && Bits(FromRank(x)) >= Bits(FromRank(y))
  }

  lemma {:induction false} StepwiseAll(ids: seq<Byte>, i: nat, j: nat)
    requires Stepwise(ids, ByteLt) && i < j < |ids|
    ensures ids[i] < ids[j]
    decreases j
  {
    assert ByteLt(ids[j - 1], ids[j]);
    if i < j - 1 {
      StepwiseAll(ids, i, j - 1);
    }
  }

  /** The builder's ids are strictly ascending, as the decoder demands, exactly when no two surviving
      permutations are ordered differently by the struct and by the packed id. */
  lemma IdsAscendIff(used: seq<ShaderPerm>, tier: Tier)
    ensures Stepwise(PermutationIds(used, tier), ByteLt) <==> !OrdersDisagree(used, tier)
  {
    hide Bits, FromRank, Pruned, Ascending, Stepwise, OrdersDisagree;
    if Stepwise(PermutationIds(used, tier), ByteLt) {
      AscendAgree(used, tier);
    }
    if !OrdersDisagree(used, tier) {
      AgreeAscend(used, tier);
    }
  }

  lemma AscendAgree(used: seq<ShaderPerm>, tier: Tier)
    requires Stepwise(PermutationIds(used, tier), ByteLt)
    ensures !OrdersDisagree(used, tier)
  {
    hide Bits, FromRank, Pruned, Ascending, Stepwise;
    var pruned, ids := Pruned(used, tier), PermutationIds(used, tier);
    var ranks := Ascending(pruned);
    forall x, y | x in pruned && y in pruned && x < y
      ensures Bits(FromRank(x)) < Bits(FromRank(y))
    {
      assert x in Elements(ranks) && y in Elements(ranks);
      var i :| 0 <= i < |ranks| && ranks[i] == x;
      var j :| 0 <= j < |ranks| && ranks[j] == y;
      StepwiseAll(ids, i, j);
    }
  }

  lemma AgreeAscend(used: seq<ShaderPerm>, tier: Tier)
    requires !OrdersDisagree(used, tier)
    ensures Stepwise(PermutationIds(used, tier), ByteLt)
  {
    hide Bits, FromRank, Pruned, Ascending;
    var pruned, ids := Pruned(used, tier), PermutationIds(used, tier);
    var ranks := Ascending(pruned);
    forall i | 0 <= i < |ids| - 1
      ensures ByteLt(ids[i], ids[i + 1])
    {
      assert ranks[i] in Elements(ranks) && ranks[i + 1] in Elements(ranks);
    }
  }

  const ALBEDO_ONLY := ShaderPerm(true, false, false, false)
  const METAL_ONLY := ShaderPerm(false, true, false, false)

  /** Two ordinary permutations give the ids 2, 1. */
  lemma AlbedoAndMetal()
    ensures PermutationIds([ALBEDO_ONLY, METAL_ONLY], High) == [2, 1]
  {
    TwoPruned();
    TwoBits();
    hide Pruned, Bits, FromRank;
    assert Elements([4, 8]) == {4, 8};
    IncreasingUnique(Ascending({4, 8}), [4, 8]);
  }

  lemma TwoPruned()
    ensures Pruned([ALBEDO_ONLY, METAL_ONLY], High) == {4, 8}
  {
    var used := [ALBEDO_ONLY, METAL_ONLY];
    assert ALBEDO_ONLY in used && METAL_ONLY in used;
    assert Rank(Prune(ALBEDO_ONLY, High)) == 8 && Rank(Prune(METAL_ONLY, High)) == 4;
  }

  lemma TwoBits()
    ensures Bits(FromRank(4)) == 2 && Bits(FromRank(8)) == 1
  {
  }

  /** So a plan the builder makes can be one its own decoder refuses. */
  lemma BuiltPlanRefused(c: Checks, p: Plan, i: nat)
    requires Typed(c, p) && i < |p.skus|
    requires p.skus[i].permutations == PermutationIds([ALBEDO_ONLY, METAL_ONLY], High)
    ensures Decode(c, Encode(p)).Err?
  {
    AlbedoAndMetal();
    assert !ByteLt(p.skus[i].permutations[0], p.skus[i].permutations[1]);
    assert !GoodSku(p.skus[i]);
    hide Decode, Encode, Typed, PermutationIds;
    PlanRoundTrip(c, p);
  }
}
