/** Little-endian byte strings and cursors over them, as both codecs use them: fixed-width integers, columns of
    them, and length-prefixed names. */
module Bytes {
  import opened Prelude

  type Byte = b: nat | b < 256

  datatype CodecError =
    | Truncated | BadMagic | BadVersion(v: nat) | BadName | EmptyName | GroupCap | ClipFlag | RecordCap
    | Trailing | GroupIndex | ScaleRange | ScaleDelta | LengthOverflow | BadOrder | BadPath | BadTag(t: nat)

  type Taken<T> = Result<(T, seq<Byte>), CodecError>

  function Pow256(w: nat): (r: nat)
    ensures r > 0
  {
    if w == 0 then 1 else 256 * Pow256(w - 1)
  }

  lemma Widths()
    ensures Pow256(1) == 0x100 && Pow256(2) == 0x1_0000 && Pow256(4) == 0x1_0000_0000
    ensures Pow256(8) == 0x1_0000_0000_0000_0000
  {
    assert Pow256(3) == 0x100_0000 && Pow256(5) == 0x100_0000_0000;
    assert Pow256(6) == 0x1_0000_0000_0000 && Pow256(7) == 0x100_0000_0000_0000;
  }

  /** `to_le_bytes`. */
  function Le(n: nat, w: nat): (bs: seq<Byte>)
    ensures |bs| == w
  {
    if w == 0 then [] else [n % 256] + Le(n / 256, w - 1)
  }

  function FromLe(bs: seq<Byte>): nat {
    if bs == [] then 0 else bs[0] + 256 * FromLe(bs[1..])
  }

  lemma {:induction false} LeRoundTrip(n: nat, w: nat)
    requires n < Pow256(w)
    ensures FromLe(Le(n, w)) == n
  {
    if w > 0 {
      assert Le(n, w)[1..] == Le(n / 256, w - 1);
      LeRoundTrip(n / 256, w - 1);
    }
  }

  /** `take`. */
  function Take(rest: seq<Byte>, n: nat): Taken<seq<Byte>> {
    if |rest| < n then Err(Truncated) else Ok((rest[..n], rest[n..]))
  }

  lemma TakePrefix(bs: seq<Byte>, rest: seq<Byte>)
    ensures Take(bs + rest, |bs|) == Ok((bs, rest))
  {
    assert (bs + rest)[..|bs|] == bs && (bs + rest)[|bs|..] == rest;
  }

  function TakeInt(rest: seq<Byte>, w: nat): Taken<nat> {
    match Take(rest, w)
    case Err(e) => Err(e)
    case Ok((bs, more)) => Ok((FromLe(bs), more))
  }

  lemma TakeLe(n: nat, w: nat, rest: seq<Byte>)
    requires n < Pow256(w)
    ensures TakeInt(Le(n, w) + rest, w) == Ok((n, rest))
  {
    TakePrefix(Le(n, w), rest);
    LeRoundTrip(n, w);
  }

  /** The unsigned word of a signed value, and back. */
  function Unsigned(x: int, w: nat): nat { x % Pow256(w) }

  function Signed(u: nat, w: nat): int { if 2 * u >= Pow256(w) then u - Pow256(w) else u }

  lemma ModNegative(x: int, m: int)
    requires -m <= x < 0 < m
    ensures x % m == x + m
  {
    var q := x / m;
    assert x == m * q + x % m;
    assert m * (q + 1) == m * q + m;
  }

  lemma ModSmall(x: int, m: int)
    requires 0 <= x < m
    ensures x % m == x
  {
  }

  lemma SignedRoundTrip(x: int, w: nat)
    requires 2 * x < Pow256(w) && -2 * x <= Pow256(w)
    ensures Unsigned(x, w) < Pow256(w) && Signed(Unsigned(x, w), w) == x
  {
    var m: int := Pow256(w);
    if x < 0 {
      ModNegative(x, m);
    } else {
      ModSmall(x, m);
    }
    hide Pow256;
  }

  // ---------------------------------------------------------------------------------------------
  // Columns.

  function PutInts(vs: seq<nat>, w: nat): seq<Byte> {
    if vs == [] then [] else Le(vs[0], w) + PutInts(vs[1..], w)
  }

  function TakeInts(rest: seq<Byte>, n: nat, w: nat): Taken<seq<nat>> {
    if n == 0 then Ok(([], rest))
    else
      match TakeInt(rest, w)
      case Err(e) => Err(e)
      case Ok((v, more)) =>
        match TakeInts(more, n - 1, w)
        case Err(e) => Err(e)
        case Ok((vs, tail)) => Ok(([v] + vs, tail))
  }

  lemma {:induction false} IntsRoundTrip(vs: seq<nat>, w: nat, rest: seq<Byte>)
    requires forall i :: 0 <= i < |vs| ==> vs[i] < Pow256(w)
    ensures TakeInts(PutInts(vs, w) + rest, |vs|, w) == Ok((vs, rest))
  {
    if vs == [] {
      assert PutInts(vs, w) + rest == rest;
    } else {
      var more := PutInts(vs[1..], w) + rest;
      assert PutInts(vs, w) + rest == Le(vs[0], w) + more;
      TakeLe(vs[0], w, more);
      IntsRoundTrip(vs[1..], w, rest);
      assert vs == [vs[0]] + vs[1..];
    }
  }

  /** The push loop of one column. */
  method PushInts(buf: seq<Byte>, vs: seq<nat>, w: nat) returns (out: seq<Byte>)
    ensures out == buf + PutInts(vs, w)
  {
    out := buf;
    for k := 0 to |vs|
      invariant out + PutInts(vs[k..], w) == buf + PutInts(vs, w)
    {
      assert vs[k..][0] == vs[k] && vs[k..][1..] == vs[k + 1..];
      out := out + Le(vs[k], w);
    }
  }

  /** The read loop of one column, with its moving cursor. */
  method ReadInts(rest0: seq<Byte>, n: nat, w: nat) returns (r: Taken<seq<nat>>)
    ensures r == TakeInts(rest0, n, w)
  {
    var vs: seq<nat> := [];
    var rest := rest0;
    PrefixedNone(TakeInts(rest0, n, w));
    for k := 0 to n
      invariant TakeInts(rest0, n, w) == Prefixed(vs, TakeInts(rest, n - k, w))
    {
      var t := TakeInt(rest, w);
      if t.Err? {
        return Err(t.error);
      }
      PrefixedStep(vs, t.value.0, TakeInts(t.value.1, n - k - 1, w));
      vs, rest := vs + [t.value.0], t.value.1;
    }
    assert vs + [] == vs;
    return Ok((vs, rest));
  }

  /** Reading on after `vs`. */
  function Prefixed<T>(vs: seq<T>, t: Taken<seq<T>>): Taken<seq<T>> {
    match t
    case Err(e) => Err(e)
    case Ok((more, rest)) => Ok((vs + more, rest))
  }

  lemma PrefixedNone<T>(t: Taken<seq<T>>)
    ensures Prefixed([], t) == t
  {
    if t.Ok? {
      assert [] + t.value.0 == t.value.0;
    }
  }

  lemma PrefixedStep<T>(vs: seq<T>, v: T, t: Taken<seq<T>>)
    ensures Prefixed(vs + [v], t) == Prefixed(vs, Prefixed([v], t))
  {
    if t.Ok? {
      assert vs + [v] + t.value.0 == vs + ([v] + t.value.0);
    }
  }

  // ---------------------------------------------------------------------------------------------
  // Names: length-prefixed UTF-8.

  type Text = seq<Byte>

  function PutName(name: Text): Result<seq<Byte>, CodecError> {
    if |name| > U16_MAX then Err(LengthOverflow) else Ok(Le(|name|, 2) + name)
  }

  function TakeName(rest: seq<Byte>, utf8: Text -> bool): Taken<Text> {
    match TakeInt(rest, 2)
    case Err(e) => Err(e)
    case Ok((n, more)) =>
      match Take(more, n)
      case Err(e) => Err(e)
      case Ok((bs, tail)) => if !utf8(bs) then Err(BadName) else if bs == [] then Err(EmptyName) else Ok((bs, tail))
  }

  /** A name is read back exactly when it is not empty: the writer does not check, the reader does. */
  lemma NameRoundTrip(name: Text, utf8: Text -> bool, rest: seq<Byte>)
    requires PutName(name).Ok? && utf8(name)
    ensures TakeName(PutName(name).value + rest, utf8) == if name == [] then Err(EmptyName) else Ok((name, rest))
  {
    Widths();
    assert Le(|name|, 2) + name + rest == Le(|name|, 2) + (name + rest);
    TakeLe(|name|, 2, name + rest);
    TakePrefix(name, rest);
    hide Le, TakeInt, Take;
  }
}
