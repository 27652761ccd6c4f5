/** The KOPT codec as it runs: a buffer the encoder appends to, and a cursor the decoder moves, each proved
    against the byte strings of the plan. */
module OptPlanRun {
  import opened Prelude
  import opened Bytes
  import opened OptPlan

  // ---------------------------------------------------------------------------------------------
  // Encoding.

  predicate RowFits(r: PackedRow) { |r.table| <= U32_MAX }
  predicate PlaceFits(p: PlacePlan) { |p.assets| <= U32_MAX }
  predicate SkuFits(s: SkuPlan) { |s.sku| <= U32_MAX && |s.permutations| <= U32_MAX }
  predicate FileFits(f: File) { |f.path| <= U32_MAX && |f.contents| <= U32_MAX }

  ghost predicate ListFits<T>(xs: seq<T>, fits: T -> bool) {
    |xs| <= U32_MAX && forall i :: 0 <= i < |xs| ==> fits(xs[i])
  }

  /** Every length can be written in 32 bits. */
  ghost predicate LengthsFit(p: Plan) {
    && ListFits(p.tables, RowFits) && ListFits(p.places, PlaceFits)
    && ListFits(p.skus, SkuFits) && ListFits(p.files, FileFits)
  }

  lemma PutAllFrom<T>(xs: seq<T>, k: nat, put: T -> seq<Byte>)
    requires k < |xs|
    ensures PutAll(xs[k..], put) == put(xs[k]) + PutAll(xs[k + 1..], put)
  {
    assert xs[k..][0] == xs[k] && xs[k..][1..] == xs[k + 1..];
  }

  class Writer {
    var out: seq<Byte>

    constructor ()
      ensures out == []
    {
      out := [];
    }

    method Append(bs: seq<Byte>)
      modifies this
      ensures out == old(out) + bs
    {
      out := out + bs;
    }

    /** `put_len`. */
    method PutLen(n: nat) returns (ok: bool)
      modifies this
      ensures ok <==> n <= U32_MAX
      ensures ok ==> out == old(out) + Le(n, 4)
    {
      ok := n <= U32_MAX;
      if ok {
        Append(Le(n, 4));
      }
    }

    /** `put_str`, and every other length-prefixed byte string. */
    method PutSized(t: seq<Byte>) returns (ok: bool)
      modifies this
      ensures ok <==> |t| <= U32_MAX
      ensures ok ==> out == old(out) + PutText(t)
    {
      ok := PutLen(|t|);
      if ok {
        Append(t);
      }
    }

    method PutOneRow(r: PackedRow) returns (ok: bool)
      modifies this
      ensures ok <==> RowFits(r)
      ensures ok ==> out == old(out) + PutRow(r)
    {
      hide Le, PutText;
      ok := PutSized(r.table);
      if ok {
        Append(Le(r.stableId, 2));
        Append(Le(r.storageIndex, 2));
      }
    }

    method PutTables(rows: seq<PackedRow>) returns (ok: bool)
      modifies this
      ensures ok <==> ListFits(rows, RowFits)
      ensures ok ==> out == old(out) + PutList(rows, PutRow)
    {
      hide Le, PutRow, RowFits, PutAll, PutList;
      ok := PutLen(|rows|);
      if !ok {
        return;
      }
      ghost var start := out;
      assert rows[0..] == rows;
      for k := 0 to |rows|
        invariant forall i :: 0 <= i < k ==> RowFits(rows[i])
        invariant out + PutAll(rows[k..], PutRow) == start + PutAll(rows, PutRow)
      {
        PutAllFrom(rows, k, PutRow);
        ok := PutOneRow(rows[k]);
        if !ok {
          return;
        }
      }
      PutAllNone(rows[|rows|..], PutRow);
      ListIs(old(out), rows, PutRow);
      assert out + [] == out;
      ok := true;
    }

    method PutAssets(assets: seq<seq<Byte>>) returns (ok: bool)
      modifies this
      ensures ok <==> |assets| <= U32_MAX
      ensures ok ==> out == old(out) + PutList(assets, Raw)
    {
      hide Le, PutAll, PutList;
      ok := PutLen(|assets|);
      if !ok {
        return;
      }
      ghost var start := out;
      assert assets[0..] == assets;
      for k := 0 to |assets|
        invariant out + PutAll(assets[k..], Raw) == start + PutAll(assets, Raw)
      {
        PutAllFrom(assets, k, Raw);
        Append(assets[k]);
      }
      PutAllNone(assets[|assets|..], Raw);
      ListIs(old(out), assets, Raw);
      assert out + [] == out;
    }

    method PutOnePlace(p: PlacePlan) returns (ok: bool)
      modifies this
      ensures ok <==> PlaceFits(p)
      ensures ok ==> out == old(out) + PutPlace(p)
    {
      hide Le, PutInts, Words, PutList;
      Append(Le(p.place, 16));
      out := PushInts(out, Words(p.aabb), 4);
      Append(Le(p.accessGroup, 2));
      ok := PutAssets(p.assets);
    }

    method PutPlaces(places: seq<PlacePlan>) returns (ok: bool)
      modifies this
      ensures ok <==> ListFits(places, PlaceFits)
      ensures ok ==> out == old(out) + PutList(places, PutPlace)
    {
      hide Le, PutPlace, PlaceFits, PutAll, PutList;
      ok := PutLen(|places|);
      if !ok {
        return;
      }
      ghost var start := out;
      assert places[0..] == places;
      for k := 0 to |places|
        invariant forall i :: 0 <= i < k ==> PlaceFits(places[i])
        invariant out + PutAll(places[k..], PutPlace) == start + PutAll(places, PutPlace)
      {
        PutAllFrom(places, k, PutPlace);
        ok := PutOnePlace(places[k]);
        if !ok {
          return;
        }
      }
      PutAllNone(places[|places|..], PutPlace);
      ListIs(old(out), places, PutPlace);
      assert out + [] == out;
      ok := true;
    }

    method PutOneSku(s: SkuPlan) returns (ok: bool)
      modifies this
      ensures ok <==> SkuFits(s)
      ensures ok ==> out == old(out) + PutSku(s)
    {
      hide Le, PutText;
      ok := PutSized(s.sku);
      if ok {
        ok := PutSized(s.permutations);
      }
    }

    method PutSkus(skus: seq<SkuPlan>) returns (ok: bool)
      modifies this
      ensures ok <==> ListFits(skus, SkuFits)
      ensures ok ==> out == old(out) + PutList(skus, PutSku)
    {
      hide Le, PutSku, SkuFits, PutAll, PutList;
      ok := PutLen(|skus|);
      if !ok {
        return;
      }
      ghost var start := out;
      assert skus[0..] == skus;
      for k := 0 to |skus|
        invariant forall i :: 0 <= i < k ==> SkuFits(skus[i])
        invariant out + PutAll(skus[k..], PutSku) == start + PutAll(skus, PutSku)
      {
        PutAllFrom(skus, k, PutSku);
        ok := PutOneSku(skus[k]);
        if !ok {
          return;
        }
      }
      PutAllNone(skus[|skus|..], PutSku);
      ListIs(old(out), skus, PutSku);
      assert out + [] == out;
      ok := true;
    }

    method PutOneFile(f: File) returns (ok: bool)
      modifies this
      ensures ok <==> FileFits(f)
      ensures ok ==> out == old(out) + PutFile(f)
    {
      hide Le, PutText;
      ok := PutSized(f.path);
      if ok {
        ok := PutSized(f.contents);
      }
    }

    method PutFiles(files: seq<File>) returns (ok: bool)
      modifies this
      ensures ok <==> ListFits(files, FileFits)
      ensures ok ==> out == old(out) + PutList(files, PutFile)
    {
      hide Le, PutFile, FileFits, PutAll, PutList;
      ok := PutLen(|files|);
      if !ok {
        return;
      }
      ghost var start := out;
      assert files[0..] == files;
      for k := 0 to |files|
        invariant forall i :: 0 <= i < k ==> FileFits(files[i])
        invariant out + PutAll(files[k..], PutFile) == start + PutAll(files, PutFile)
      {
        PutAllFrom(files, k, PutFile);
        ok := PutOneFile(files[k]);
        if !ok {
          return;
        }
      }
      PutAllNone(files[|files|..], PutFile);
      ListIs(old(out), files, PutFile);
      assert out + [] == out;
      ok := true;
    }
  }

  lemma ListIs<T>(buf: seq<Byte>, xs: seq<T>, put: T -> seq<Byte>)
    ensures buf + Le(|xs|, 4) + PutAll(xs, put) == buf + PutList(xs, put)
  {
  }

  lemma PutAllNone<T>(xs: seq<T>, put: T -> seq<Byte>)
    requires xs == []
    ensures PutAll(xs, put) == []
  {
  }

  lemma EncodeIs(p: Plan)
    ensures Encode(p) == [] + MAGIC + [1] + PutList(p.tables, PutRow) + PutList(p.places, PutPlace)
      + PutList(p.skus, PutSku) + PutList(p.files, PutFile)
  {
    hide PutList;
  }

  /** `encode_whole_title_plan`: refused only for a length past 32 bits. */
  method EncodePlan(p: Plan) returns (r: Option<seq<Byte>>)
    ensures r == if LengthsFit(p) then Some(Encode(p)) else None
  {
    hide PutList, ListFits;
    var w := new Writer();
    w.Append(MAGIC);
    w.Append([1]);
    var ok := w.PutTables(p.tables);
    if ok {
      ok := w.PutPlaces(p.places);
    }
    if ok {
      ok := w.PutSkus(p.skus);
    }
    if ok {
      ok := w.PutFiles(p.files);
    }
    assert ok <==> LengthsFit(p);
    if !ok {
      return None;
    }
    EncodeIs(p);
    return Some(w.out);
  }

  // ---------------------------------------------------------------------------------------------
  // Decoding.

  /** The cursor did what `t` says: took its value and stands behind it, or failed as it does. */
  ghost predicate Moved<T(!new)>(t: Taken<T>, r: Result<T, CodecError>, rest: seq<Byte>) {
    match t
    case Ok((x, more)) => r == Ok(x) && rest == more
    case Err(e) => r == Err(e)
  }

  lemma TakeAllFrom<T>(rest0: seq<Byte>, n: nat, take: seq<Byte> -> Taken<T>, xs: seq<T>, rest: seq<Byte>, k: nat)
    requires k < n && TakeAll(rest0, n, take) == Prefixed(xs, TakeAll(rest, n - k, take))
    ensures take(rest).Err? ==> TakeAll(rest0, n, take) == Err(take(rest).error)
    ensures take(rest).Ok? ==>
      TakeAll(rest0, n, take) == Prefixed(xs + [take(rest).value.0], TakeAll(take(rest).value.1, n - k - 1, take))
  {
    if take(rest).Ok? {
      PrefixedStep(xs, take(rest).value.0, TakeAll(take(rest).value.1, n - k - 1, take));
    }
  }

  /** The last element was read. */
  lemma TakeAllDone<T>(rest0: seq<Byte>, n: nat, take: seq<Byte> -> Taken<T>, xs: seq<T>, rest: seq<Byte>)
    requires TakeAll(rest0, n, take) == Prefixed(xs, TakeAll(rest, 0, take))
    ensures TakeAll(rest0, n, take) == Ok((xs, rest))
  {
    assert xs + [] == xs;
  }

  class Cursor {
    var rest: seq<Byte>

    constructor (bytes: seq<Byte>)
      ensures rest == bytes
    {
      rest := bytes;
    }

    /** `take`. */
    method Pull(n: nat) returns (r: Result<seq<Byte>, CodecError>)
      modifies this
      ensures Moved(Take(old(rest), n), r, rest)
    {
      if |rest| < n {
        return Err(Truncated);
      }
      r := Ok(rest[..n]);
      rest := rest[n..];
    }

    /** The little-endian integers. */
    method PullInt(w: nat) returns (r: Result<nat, CodecError>)
      modifies this
      ensures Moved(TakeInt(old(rest), w), r, rest)
    {
      var bs := Pull(w);
      r := if bs.Ok? then Ok(FromLe(bs.value)) else Err(bs.error);
    }

    method PullCount(cap: nat) returns (r: Result<nat, CodecError>)
      modifies this
      ensures Moved(TakeCount(old(rest), cap), r, rest)
    {
      hide TakeInt;
      r := PullInt(4);
      if r.Ok? && r.value > cap {
        r := Err(RecordCap);
      }
    }

    method PullSized(cap: nat) returns (r: Result<seq<Byte>, CodecError>)
      modifies this
      ensures Moved(TakeSized(old(rest), cap), r, rest)
    {
      hide TakeCount, Take;
      var n := PullCount(cap);
      if n.Err? {
        return Err(n.error);
      }
      r := Pull(n.value);
    }

    /** `take_str`. */
    method PullText(c: Checks) returns (r: Result<Text, CodecError>)
      modifies this
      ensures Moved(TakeText(c, old(rest)), r, rest)
    {
      hide TakeSized;
      r := PullSized(MAX_TEXT);
      if r.Ok? && !c.utf8(r.value) {
        r := Err(BadName);
      }
    }

    method PullRow(c: Checks) returns (r: Result<PackedRow, CodecError>)
      modifies this
      ensures Moved(TakeRowAt(c, old(rest)), r, rest)
    {
      hide TakeText, TakeInt;
      var table := PullText(c);
      if table.Err? {
        return Err(table.error);
      }
      if !c.knownTable(table.value) {
        return Err(BadTag(0));
      }
      var stable := PullInt(2);
      if stable.Err? {
        return Err(stable.error);
      }
      var storage := PullInt(2);
      if storage.Err? {
        return Err(storage.error);
      }
      r := Ok(PackedRow(table.value, stable.value, storage.value));
    }

    method PullTables(c: Checks) returns (r: Result<seq<PackedRow>, CodecError>)
      modifies this
      ensures Moved(TakeList(old(rest), MAX_ROWS, TakeRow(c)), r, rest)
    {
      hide TakeCount, TakeRowAt, TakeAll;
      var n := PullCount(MAX_ROWS);
      if n.Err? {
        return Err(n.error);
      }
      ghost var start := rest;
      var xs: seq<PackedRow> := [];
      PrefixedNone(TakeAll(start, n.value, TakeRow(c)));
      for k := 0 to n.value
        invariant TakeAll(start, n.value, TakeRow(c)) == Prefixed(xs, TakeAll(rest, n.value - k, TakeRow(c)))
      {
        TakeAllFrom(start, n.value, TakeRow(c), xs, rest, k);
        var x := PullRow(c);
        if x.Err? {
          return Err(x.error);
        }
        xs := xs + [x.value];
      }
      TakeAllDone(start, n.value, TakeRow(c), xs, rest);
      r := Ok(xs);
    }

    method PullAssets() returns (r: Result<seq<seq<Byte>>, CodecError>)
      modifies this
      ensures Moved(TakeList(old(rest), MAX_FILES, TakeAsset), r, rest)
    {
      hide TakeCount, Take, TakeAll;
      var n := PullCount(MAX_FILES);
      if n.Err? {
        return Err(n.error);
      }
      ghost var start := rest;
      var xs: seq<seq<Byte>> := [];
      PrefixedNone(TakeAll(start, n.value, TakeAsset));
      for k := 0 to n.value
        invariant TakeAll(start, n.value, TakeAsset) == Prefixed(xs, TakeAll(rest, n.value - k, TakeAsset))
      {
        TakeAllFrom(start, n.value, TakeAsset, xs, rest, k);
        var x := Pull(32);
        if x.Err? {
          return Err(x.error);
        }
        xs := xs + [x.value];
      }
      TakeAllDone(start, n.value, TakeAsset, xs, rest);
      r := Ok(xs);
    }

    /** The six coordinates of a box. */
    method PullWords() returns (r: Result<seq<nat>, CodecError>)
      modifies this
      ensures Moved(TakeInts(old(rest), 6, 4), r, rest)
    {
      hide TakeInts;
      var t := ReadInts(rest, 6, 4);
      if t.Err? {
        return Err(t.error);
      }
      r := Ok(t.value.0);
      rest := t.value.1;
    }

    method PullPlace(c: Checks) returns (r: Result<PlacePlan, CodecError>)
      modifies this
      ensures Moved(TakePlaceAt(c, old(rest)), r, rest)
    {
      hide TakeInt, TakeInts, TakeList, Stepwise, FromWords;
      var place := PullInt(16);
      if place.Err? {
        return Err(place.error);
      }
      if !c.isPlace(place.value) {
        return Err(BadTag(1));
      }
      var w := PullWords();
      if w.Err? {
        return Err(w.error);
      }
      var group := PullInt(2);
      if group.Err? {
        return Err(group.error);
      }
      var assets := PullAssets();
      if assets.Err? {
        return Err(assets.error);
      }
      if !Stepwise(assets.value, TextLt) {
        return Err(BadOrder);
      }
      if |w.value| != 6 {
        return Err(Truncated);
      }
      r := Ok(PlacePlan(place.value, FromWords(w.value), group.value, assets.value));
    }

    method PullPlaces(c: Checks) returns (r: Result<seq<PlacePlan>, CodecError>)
      modifies this
      ensures Moved(TakePlaces(c, old(rest)), r, rest)
    {
      hide TakeCount, TakePlaceAt, TakeAll, Stepwise;
      var n := PullCount(MAX_ROWS);
      if n.Err? {
        return Err(n.error);
      }
      ghost var start := rest;
      var xs: seq<PlacePlan> := [];
      PrefixedNone(TakeAll(start, n.value, TakePlace(c)));
      for k := 0 to n.value
        invariant TakeAll(start, n.value, TakePlace(c)) == Prefixed(xs, TakeAll(rest, n.value - k, TakePlace(c)))
      {
        TakeAllFrom(start, n.value, TakePlace(c), xs, rest, k);
        var x := PullPlace(c);
        if x.Err? {
          return Err(x.error);
        }
        xs := xs + [x.value];
      }
      TakeAllDone(start, n.value, TakePlace(c), xs, rest);
      r := if Stepwise(xs, PlaceLt) then Ok(xs) else Err(BadOrder);
    }

    method PullSku(c: Checks) returns (r: Result<SkuPlan, CodecError>)
      modifies this
      ensures Moved(TakeSkuAt(c, old(rest)), r, rest)
    {
      hide TakeText, TakeSized, Stepwise;
      var sku := PullText(c);
      if sku.Err? {
        return Err(sku.error);
      }
      var permutations := PullSized(MAX_PERMUTATIONS);
      if permutations.Err? {
        return Err(permutations.error);
      }
      r := if Stepwise(permutations.value, ByteLt) then Ok(SkuPlan(sku.value, permutations.value)) else Err(BadOrder);
    }

    method PullSkus(c: Checks) returns (r: Result<seq<SkuPlan>, CodecError>)
      modifies this
      ensures Moved(TakeSkus(c, old(rest)), r, rest)
    {
      hide TakeCount, TakeSkuAt, TakeAll, Stepwise;
      var n := PullCount(MAX_FILES);
      if n.Err? {
        return Err(n.error);
      }
      ghost var start := rest;
      var xs: seq<SkuPlan> := [];
      PrefixedNone(TakeAll(start, n.value, TakeSku(c)));
      for k := 0 to n.value
        invariant TakeAll(start, n.value, TakeSku(c)) == Prefixed(xs, TakeAll(rest, n.value - k, TakeSku(c)))
      {
        TakeAllFrom(start, n.value, TakeSku(c), xs, rest, k);
        var x := PullSku(c);
        if x.Err? {
          return Err(x.error);
        }
        xs := xs + [x.value];
      }
      TakeAllDone(start, n.value, TakeSku(c), xs, rest);
      r := if Stepwise(xs, SkuLt) then Ok(xs) else Err(BadOrder);
    }

    method PullFile(c: Checks) returns (r: Result<File, CodecError>)
      modifies this
      ensures Moved(TakeFileAt(c, old(rest)), r, rest)
    {
      hide TakeText, TakeSized;
      var path := PullText(c);
      if path.Err? {
        return Err(path.error);
      }
      if !c.shippable(path.value) {
        return Err(BadPath);
      }
      var contents := PullSized(FILE_CAP);
      if contents.Err? {
        return Err(contents.error);
      }
      r := Ok(File(path.value, contents.value));
    }

    /** Files go into a map, and a path already there ends the decoding at once. */
    method PullFiles(c: Checks) returns (r: Result<seq<File>, CodecError>)
      modifies this
      ensures r == TakeFiles(c, old(rest))
    {
      hide TakeCount, TakeFileAt, TakeNew;
      var n := PullCount(MAX_FILES);
      if n.Err? {
        return Err(n.error);
      }
      ghost var start := rest;
      var xs: seq<File> := [];
      var byPath: map<Text, seq<Byte>> := map[];
      PrefixedNone(TakeNew(c, start, n.value, {}));
      assert byPath.Keys == {};
      for k := 0 to n.value
        invariant TakeNew(c, start, n.value, {}) == Prefixed(xs, TakeNew(c, rest, n.value - k, byPath.Keys))
      {
        TakeNewFrom(c, start, n.value, xs, rest, k, byPath.Keys);
        var x := PullFile(c);
        if x.Err? {
          return Err(x.error);
        }
        if x.value.path in byPath {
          return Err(BadPath);
        }
        ghost var seen := byPath.Keys;
        byPath := byPath[x.value.path := x.value.contents];
        assert byPath.Keys == seen + {x.value.path};
        xs := xs + [x.value];
      }
      TakeNewDone(c, start, n.value, xs, rest, byPath.Keys);
      r := if rest != [] then Err(Trailing) else Ok(xs);
    }
  }

  lemma TakeNewFrom(c: Checks, rest0: seq<Byte>, n: nat, xs: seq<File>, rest: seq<Byte>, k: nat, seen: set<Text>)
    requires k < n && TakeNew(c, rest0, n, {}) == Prefixed(xs, TakeNew(c, rest, n - k, seen))
    ensures var t := TakeFileAt(c, rest);
      && (t.Err? ==> TakeNew(c, rest0, n, {}) == Err(t.error))
      && (t.Ok? && t.value.0.path in seen ==> TakeNew(c, rest0, n, {}) == Err(BadPath))
      && (t.Ok? && t.value.0.path !in seen ==>
            TakeNew(c, rest0, n, {}) ==
              Prefixed(xs + [t.value.0], TakeNew(c, t.value.1, n - k - 1, seen + {t.value.0.path})))
  {
    hide TakeFileAt;
    var t := TakeFileAt(c, rest);
    if t.Ok? && t.value.0.path !in seen {
      PrefixedStep(xs, t.value.0, TakeNew(c, t.value.1, n - k - 1, seen + {t.value.0.path}));
    }
  }

  lemma TakeNewDone(c: Checks, rest0: seq<Byte>, n: nat, xs: seq<File>, rest: seq<Byte>, seen: set<Text>)
    requires TakeNew(c, rest0, n, {}) == Prefixed(xs, TakeNew(c, rest, 0, seen))
    ensures TakeNew(c, rest0, n, {}) == Ok((xs, rest))
  {
    assert xs + [] == xs;
  }

  /** `decode_whole_title_plan`, down to the first fault in reading order. */
  method DecodePlan(c: Checks, bytes: seq<Byte>) returns (r: Result<Plan, CodecError>)
    ensures r == Decode(c, bytes)
  {
    hide TakeList, TakePlaces, TakeSkus, TakeFiles;
    var cursor := new Cursor(bytes);
    var magic := cursor.Pull(4);
    if magic.Err? {
      return Err(Truncated);
    }
    if magic.value != MAGIC {
      return Err(BadMagic);
    }
    var version := cursor.Pull(1);
    if version.Err? {
      return Err(Truncated);
    }
    if version.value[0] != 1 {
      return Err(BadMagic);
    }
    var tables := cursor.PullTables(c);
    if tables.Err? {
      return Err(tables.error);
    }
    var places := cursor.PullPlaces(c);
    if places.Err? {
      return Err(places.error);
    }
    var skus := cursor.PullSkus(c);
    if skus.Err? {
      return Err(skus.error);
    }
    var files := cursor.PullFiles(c);
    if files.Err? {
      return Err(files.error);
    }
    r := Ok(Plan(tables.value, places.value, skus.value, files.value));
  }
}
