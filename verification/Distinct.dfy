/** Duplicate-free lists in order of first occurrence, and the position of an element in a list, the way the
    program looks things up in a vector. */
module Distinct {
  import opened Prelude

  function Keep<T(==,!new)>(unique: seq<T>, p: T): seq<T> {
    if p in unique then unique else unique + [p]
  }

  /** Elements in order of first occurrence. */
  function FirstSeen<T(==,!new)>(s: seq<T>): (unique: seq<T>)
    ensures |unique| <= |s|
    ensures NoDuplicates(unique)
    ensures forall p :: p in unique <==> p in s
  {
    if s == [] then []
    else
      var init := s[..|s| - 1];
      assert s == init + [s[|s| - 1]];
      Keep(FirstSeen(init), s[|s| - 1])
  }

  lemma FirstSeenNone<T(!new)>()
    ensures FirstSeen<T>([]) == []
  {
  }

  lemma FirstSeenSnoc<T(!new)>(s: seq<T>, k: nat)
    requires k < |s|
    ensures FirstSeen(s[..k + 1]) == Keep(FirstSeen(s[..k]), s[k])
    ensures |FirstSeen(s[..k + 1])| <= k + 1
  {
    assert s[..k + 1][..k] == s[..k];
  }

  /** First position of `x`, the length when there is none. */
  function IndexIn<T(==)>(s: seq<T>, x: T): (i: nat)
    ensures x in s ==> i < |s| && s[i] == x && x !in s[..i]
    ensures x !in s ==> i == |s|
  {
    if s == [] || s[0] == x then 0
    else
      var i := IndexIn(s[1..], x);
      assert i < |s[1..]| ==> s[..i + 1] == [s[0]] + s[1..][..i];
      1 + i
  }

  /** `iter().position(|y| y == x)`. */
  function Position<T(==)>(s: seq<T>, x: T): (i: Option<nat>)
    ensures i.Some? <==> x in s
    ensures i.Some? ==> i.value < |s| && s[i.value] == x && x !in s[..i.value]
  {
    if x in s then Some(IndexIn(s, x)) else None
  }

  /** In a list without duplicates a member stands inside a prefix exactly when the prefix holds it. */
  lemma PrefixHolds<T(!new)>(seen: seq<T>, all: seq<T>, k: nat)
    requires seen <= all && NoDuplicates(all) && k < |all|
    ensures all[k] in seen <==> k < |seen|
  {
    if k < |seen| {
      assert seen[k] == all[k];
    }
  }

  lemma {:induction false} FirstSeenPrefix<T(!new)>(s: seq<T>, n: nat)
    requires n <= |s|
    ensures FirstSeen(s[..n]) <= FirstSeen(s)
  {
    if n < |s| {
      FirstSeenPrefix(s[..|s| - 1], n);
      assert s[..|s| - 1][..n] == s[..n];
    } else {
      assert s[..n] == s;
    }
  }
}
