/** Vocabulary shared by every module: option and result types, identities, reject reasons, integer widths and
    the arithmetic that wraps, clamps or saturates at them. */
module Prelude {

  datatype Option<+T> = None | Some(value: T)

  datatype Result<+T, +E> = Ok(value: T) | Err(error: E)

  /** A locus identity.  The program packs kind, generation and index into a `u128`; only equality,
      order and the kind byte matter, so identities are natural numbers and the kind is a column. */
  type Sigil = nat

  /** Why a proposal was not committed. */
  datatype RejectReason =
    | LawBroken(id: nat) | MissingAffordance(id: nat) | TimingMiss | Resource(id: nat)
    | HallucinatedFact | StaleEpoch | UnclaimedAgency | WitnessMismatch | WrongHull | Conflict
    | Budget | TooManyIslands | IslandTooLarge | ResidencyFault | EpochMismatch

  /** How often a locus is simulated. */
  datatype SimLod = Full | Far | Dormant

  const U8_MAX: nat := 0xFF
  const U16_MAX: nat := 0xFFFF
  const U32_MAX: nat := 0xFFFF_FFFF
  const U64_MAX: nat := 0xFFFF_FFFF_FFFF_FFFF
  const I32_MAX: int := 0x7FFF_FFFF
  const I32_MIN: int := -0x8000_0000

  function Min(a: int, b: int): int { if a <= b then a else b }

  function Max(a: int, b: int): int { if a <= b then b else a }

  /** `saturating_add` on `i32`, and the clamp every saturating `i32` operation ends with. */
  function ClampI32(x: int): (r: int)
    ensures I32_MIN <= r <= I32_MAX
  {
    Max(I32_MIN, Min(x, I32_MAX))
  }

  /** Two's complement truncation to `i32` and to `i64`: what wrapping arithmetic stores. */
  function WrapI32(x: int): (r: int)
    ensures I32_MIN <= r <= I32_MAX
    ensures I32_MIN <= x <= I32_MAX ==> r == x
  {
    (x + 0x8000_0000) % 0x1_0000_0000 - 0x8000_0000
  }

  function WrapI64(x: int): (r: int)
    ensures -0x8000_0000_0000_0000 <= r < 0x8000_0000_0000_0000
    ensures -0x8000_0000_0000_0000 <= x < 0x8000_0000_0000_0000 ==> r == x
  {
    (x + 0x8000_0000_0000_0000) % 0x1_0000_0000_0000_0000 - 0x8000_0000_0000_0000
  }

  predicate IsI32(x: int) { I32_MIN <= x <= I32_MAX }

  function Elements<T>(s: seq<T>): set<T> { set x | x in s }

  predicate NoDuplicates<T(==)>(s: seq<T>) {
    forall i, j :: 0 <= i < j < |s| ==> s[i] != s[j]
  }

  predicate Increasing(s: seq<nat>) {
    forall i, j :: 0 <= i < j < |s| ==> s[i] < s[j]
  }

  lemma DistinctSize<T>(s: seq<T>)
    requires NoDuplicates(s)
    ensures |Elements(s)| == |s|
  {
    if s != [] {
      var init, last := s[..|s| - 1], s[|s| - 1];
      DistinctSize(init);
      assert Elements(s) == Elements(init) + {last};
    }
  }

  /** A strictly increasing list is determined by its set of elements. */
  lemma {:induction false} IncreasingUnique(a: seq<nat>, b: seq<nat>)
    requires Increasing(a) && Increasing(b) && Elements(a) == Elements(b)
    ensures a == b
  {
    assert a != [] ==> a[0] in Elements(b);
    assert b != [] ==> b[0] in Elements(a);
    if a != [] && b != [] {
      assert a[0] == b[0];
      forall x | x in Elements(a[1..])
        ensures x in Elements(b[1..])
      {
        assert x in Elements(b);
      }
      forall x | x in Elements(b[1..])
        ensures x in Elements(a[1..])
      {
        assert x in Elements(a);
      }
      IncreasingUnique(a[1..], b[1..]);
      assert a == [a[0]] + a[1..] && b == [b[0]] + b[1..];
    }
  }

  function Pow2(k: nat): (p: nat)
    ensures p >= 1
  {
    if k == 0 then 1 else 2 * Pow2(k - 1)
  }

  predicate IsI16(x: int) { -0x8000 <= x <= 0x7FFF }

  lemma SubsetLe<T>(a: set<T>, b: set<T>)
    requires a <= b
    ensures |a| <= |b|
  {
    if a != {} {
      var x :| x in a;
      SubsetLe(a - {x}, b - {x});
    }
  }

  lemma SubsetSize<T>(a: set<T>, b: set<T>)
    requires a < b
    ensures |a| < |b|
  {
    var x :| x in b && x !in a;
    assert a <= b - {x};
    SubsetLe(a, b - {x});
  }
}
