/** The standard library's stable sort, as a function of the list and a comparison, and the increasing list
    of a set of numbers. */
module Sorting {
  import opened Prelude

  ghost predicate TotalPreorder<T(!new)>(le: (T, T) -> bool) {
    && (forall a, b :: le(a, b) || le(b, a))
    && (forall a, b, c :: le(a, b) && le(b, c) ==> le(a, c))
  }

  ghost predicate Sorted<T>(s: seq<T>, le: (T, T) -> bool) {
    forall i, j :: 0 <= i < j < |s| ==> le(s[i], s[j])
  }

  function Insert<T>(x: T, s: seq<T>, le: (T, T) -> bool): (r: seq<T>)
    ensures multiset(r) == multiset([x]) + multiset(s)
    ensures |r| == |s| + 1
  {
    if s == [] || le(x, s[0]) then
      assert [x] + s == [x] + s; [x] + s
    else
      assert s == [s[0]] + s[1..];
      [s[0]] + Insert(x, s[1..], le)
  }

  /** Insertion from the right: equal elements keep their order. */
  function Sort<T>(s: seq<T>, le: (T, T) -> bool): (r: seq<T>)
    ensures multiset(r) == multiset(s)
    ensures |r| == |s|
  {
    if s == [] then []
    else
      assert s == [s[0]] + s[1..];
      Insert(s[0], Sort(s[1..], le), le)
  }

  lemma {:induction false} InsertSorted<T(!new)>(x: T, s: seq<T>, le: (T, T) -> bool)
    requires TotalPreorder(le) && Sorted(s, le)
    ensures Sorted(Insert(x, s, le), le)
  {
    if s != [] && !le(x, s[0]) {
      var rest := Insert(x, s[1..], le);
      InsertSorted(x, s[1..], le);
      forall i | 0 <= i < |rest|
        ensures le(s[0], rest[i])
      {
        assert rest[i] in multiset(rest);
        if rest[i] != x {
          assert rest[i] in s[1..];
        }
      }
    }
  }

  lemma {:induction false} SortSorted<T(!new)>(s: seq<T>, le: (T, T) -> bool)
    requires TotalPreorder(le)
    ensures Sorted(Sort(s, le), le)
  {
    if s != [] {
      SortSorted(s[1..], le);
      InsertSorted(s[0], Sort(s[1..], le), le);
    }
  }

  lemma SortElements<T(!new)>(s: seq<T>, le: (T, T) -> bool)
    ensures Elements(Sort(s, le)) == Elements(s)
  {
    forall x ensures x in Sort(s, le) <==> x in s {
      assert x in multiset(Sort(s, le)) <==> x in multiset(s);
    }
  }

  lemma SortedDistinct<T>(s: seq<T>, r: seq<T>)
    requires NoDuplicates(s) && multiset(r) == multiset(s)
    ensures NoDuplicates(r)
  {
    forall i, j | 0 <= i < j < |r|
      ensures r[i] != r[j]
    {
      if r[i] == r[j] {
        CountAtLeastTwo(r, i, j);
        CountAtMostOne(s, r[i]);
      }
    }
  }

  lemma CountAtLeastTwo<T>(r: seq<T>, i: nat, j: nat)
    requires i < j < |r| && r[i] == r[j]
    ensures multiset(r)[r[i]] >= 2
  {
    var a, b := r[..j], r[j..];
    assert r == a + b && a[i] == r[i] && b[0] == r[i];
    assert r[i] in multiset(a) && r[i] in multiset(b);
  }

  lemma CountAtMostOne<T>(s: seq<T>, x: T)
    requires NoDuplicates(s)
    ensures multiset(s)[x] <= 1
  {
    if s != [] {
      CountAtMostOne(s[1..], x);
      assert s == [s[0]] + s[1..];
      if x == s[0] {
        assert x !in s[1..];
        assert x !in multiset(s[1..]);
      }
    }
  }

  /** `sort_unstable` on identities. */
  function SortSigils(s: seq<Sigil>): seq<Sigil> {
    Sort(s, (a: Sigil, b: Sigil) => a <= b)
  }

  lemma SortSigilsIncreasing(s: seq<Sigil>)
    requires NoDuplicates(s)
    ensures Increasing(SortSigils(s)) && Elements(SortSigils(s)) == Elements(s)
    ensures |SortSigils(s)| == |s|
  {
    var le := (a: Sigil, b: Sigil) => a <= b;
    SortSorted(s, le);
    SortElements(s, le);
    SortedDistinct(s, SortSigils(s));
  }

  predicate Least(s: set<nat>, m: nat) { m in s && forall x :: x in s ==> m <= x }

  lemma LeastExists(s: set<nat>)
    requires s != {}
    ensures exists m :: Least(s, m)
  {
    var x :| x in s;
    if forall y :: y in s ==> x <= y {
      assert Least(s, x);
    } else {
      var y :| y in s && y < x;
      assert y in s - {x};
      LeastExists(s - {x});
      var m :| Least(s - {x}, m);
      forall z | z in s
        ensures m <= z
      {
        assert z == x || z in s - {x};
      }
      assert Least(s, m);
    }
  }

  lemma AscendingStep(s: set<nat>, m: nat, rest: seq<nat>)
    requires Least(s, m) && Increasing(rest) && Elements(rest) == s - {m} && |rest| == |s - {m}|
    ensures Increasing([m] + rest) && Elements([m] + rest) == s && |[m] + rest| == |s|
  {
    forall i | 0 <= i < |rest|
      ensures m < rest[i]
    {
      assert rest[i] in Elements(rest);
    }
    assert Elements([m] + rest) == {m} + Elements(rest);
  }

  /** The increasing list of a set. */
  function Ascending(s: set<nat>): (r: seq<nat>)
    ensures Increasing(r) && Elements(r) == s && |r| == |s|
    decreases |s|
  {
    if s == {} then []
    else
      LeastExists(s);
      var m :| Least(s, m);
      var rest := Ascending(s - {m});
      AscendingStep(s, m, rest);
      [m] + rest
  }
}
