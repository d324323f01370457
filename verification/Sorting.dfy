/**
  String order, and stable sorting by a strict weak order: the contracts of the library sorts the catalog code calls.
  What is sorted and keeps the order inside every group of equals is unique, so any stable sort will do.
 */
module Sorting {
  // Lexicographic by code point, which is the byte order of UTF-8.
  predicate StrLess(a: string, b: string) {
    if b == "" then false
    else if a == "" then true
    else if a[0] != b[0] then a[0] < b[0]
    else StrLess(a[1..], b[1..])
  }

  lemma {:induction false} StrIrreflexive(a: string)
    ensures !StrLess(a, a)
  {
    if a != "" { StrIrreflexive(a[1..]); }
  }

  lemma {:induction false} StrTransitive(a: string, b: string, c: string)
    requires StrLess(a, b) && StrLess(b, c)
    ensures StrLess(a, c)
  {
    if a != "" && a[0] == b[0] == c[0] { StrTransitive(a[1..], b[1..], c[1..]); }
  }

  lemma {:induction false} StrTotal(a: string, b: string)
    ensures StrLess(a, b) || a == b || StrLess(b, a)
  {
    if a != "" && b != "" && a[0] == b[0] {
      StrTotal(a[1..], b[1..]);
      assert a == [a[0]] + a[1..] && b == [b[0]] + b[1..];
    }
  }

  /** The string order is strict and total, hence its negation is transitive too. */
  lemma StrOrder(a: string, b: string, c: string)
    ensures !(StrLess(a, b) && StrLess(b, a))
    ensures StrLess(a, b) && StrLess(b, c) ==> StrLess(a, c)
    ensures !StrLess(a, b) && !StrLess(b, c) ==> !StrLess(a, c)
    ensures !StrLess(a, b) && !StrLess(b, a) <==> a == b
  {
    StrIrreflexive(a);
    StrTotal(a, b);
    StrTotal(b, c);
    if StrLess(a, b) && StrLess(b, a) { StrTransitive(a, b, a); }
    if StrLess(a, b) && StrLess(b, c) { StrTransitive(a, b, c); }
    if StrLess(c, b) && StrLess(b, a) {
      StrTransitive(c, b, a);
      if StrLess(a, c) { StrTransitive(a, c, a); }
    }
  }

  // a and b agree up to k, where b goes on and a ends or has the smaller character.
  predicate SmallerAt(a: string, b: string, k: nat) {
    k <= |a| && k < |b| && a[..k] == b[..k] && (k == |a| || a[k] < b[k])
  }

  lemma SameHead(a: string, b: string, k: nat)
    requires SmallerAt(a, b, k)
    ensures k > 0 ==> a[0] == b[0]
  {
    assert k > 0 ==> a[..k][0] == a[0] && b[..k][0] == b[0];
  }

  /** A string comes before another if it is a proper prefix of it or smaller where they first differ. */
  lemma {:induction false} StrLessMeans(a: string, b: string)
    ensures StrLess(a, b) <==> exists k: nat :: SmallerAt(a, b, k)
  {
    if a == "" || b == "" || a[0] != b[0] {
      assert b != "" && (a == "" || a[0] < b[0]) ==> SmallerAt(a, b, 0);
      forall k: nat | SmallerAt(a, b, k) ensures k == 0 { SameHead(a, b, k); }
    } else {
      StrLessMeans(a[1..], b[1..]);
      forall k: nat ensures SmallerAt(a, b, k + 1) <==> SmallerAt(a[1..], b[1..], k) {
        if k < |a| && k < |b| {
          assert a[..k + 1] == [a[0]] + a[1..][..k] && b[..k + 1] == [b[0]] + b[1..][..k];
          assert a[..k + 1][1..] == a[1..][..k] && b[..k + 1][1..] == b[1..][..k];
        }
      }
      if k: nat :| SmallerAt(a[1..], b[1..], k) {
        assert SmallerAt(a, b, k + 1);
      }
      if k: nat :| SmallerAt(a, b, k) {
        assert k > 0;
        assert SmallerAt(a[1..], b[1..], k - 1);
      }
    }
  }

  // ---------- strict weak orders ----------

  ghost predicate StrictWeak<T(!new)>(lt: (T, T) -> bool) {
    && (forall x, y {:trigger lt(x, y)} :: lt(x, y) ==> !lt(y, x))
    && (forall x, y, z {:trigger lt(x, y), lt(y, z)} :: !lt(x, y) && !lt(y, z) ==> !lt(x, z))
  }

  predicate Same<T>(lt: (T, T) -> bool, x: T, y: T) { !lt(x, y) && !lt(y, x) }

  // Nothing later belongs before anything earlier.
  ghost predicate Sorted<T(!new)>(lt: (T, T) -> bool, s: seq<T>) {
    forall i, j {:trigger s[i], s[j]} :: 0 <= i < j < |s| ==> !lt(s[j], s[i])
  }

  // The elements of s equal to x in the order, in sequence.
  function Group<T>(lt: (T, T) -> bool, s: seq<T>, x: T): seq<T> {
    if s == [] then []
    else Group(lt, s[..|s| - 1], x) + if Same(lt, s[|s| - 1], x) then [s[|s| - 1]] else []
  }

  // After everything it does not belong before.
  function Insert<T>(lt: (T, T) -> bool, s: seq<T>, e: T): seq<T> {
    if s == [] || !lt(e, s[|s| - 1]) then s + [e]
    else Insert(lt, s[..|s| - 1], e) + [s[|s| - 1]]
  }

  function StableSort<T>(lt: (T, T) -> bool, s: seq<T>): seq<T> {
    if s == [] then [] else Insert(lt, StableSort(lt, s[..|s| - 1]), s[|s| - 1])
  }

  lemma {:induction false} InsertPermutes<T>(lt: (T, T) -> bool, s: seq<T>, e: T)
    ensures multiset(Insert(lt, s, e)) == multiset(s) + multiset{e}
  {
    if s != [] && lt(e, s[|s| - 1]) {
      InsertPermutes(lt, s[..|s| - 1], e);
      assert s == s[..|s| - 1] + [s[|s| - 1]];
    }
  }

  lemma {:induction false} SortPermutes<T>(lt: (T, T) -> bool, s: seq<T>)
    ensures multiset(StableSort(lt, s)) == multiset(s)
  {
    if s != [] {
      SortPermutes(lt, s[..|s| - 1]);
      InsertPermutes(lt, StableSort(lt, s[..|s| - 1]), s[|s| - 1]);
      assert s == s[..|s| - 1] + [s[|s| - 1]];
    }
  }

  lemma SortedSnoc<T(!new)>(lt: (T, T) -> bool, s: seq<T>, e: T)
    requires Sorted(lt, s) && forall x :: x in s ==> !lt(e, x)
    ensures Sorted(lt, s + [e])
  {}

  lemma {:induction false} InsertSorts<T(!new)>(lt: (T, T) -> bool, s: seq<T>, e: T)
    requires StrictWeak(lt) && Sorted(lt, s)
    ensures Sorted(lt, Insert(lt, s, e))
  {
    if s == [] {
    } else {
      var last := s[|s| - 1];
      if lt(e, last) {
        InsertSorts(lt, s[..|s| - 1], e);
        InsertPermutes(lt, s[..|s| - 1], e);
        var t := Insert(lt, s[..|s| - 1], e);
        forall x | x in t
          ensures !lt(last, x)
        {
          assert x in multiset(t);
          assert x in multiset(s[..|s| - 1]) || x == e;
        }
        SortedSnoc(lt, t, last);
      } else {
        forall x | x in s
          ensures !lt(e, x)
        {
          assert x == last || !lt(last, x);
        }
        SortedSnoc(lt, s, e);
      }
    }
  }

  lemma {:induction false} SortSorts<T(!new)>(lt: (T, T) -> bool, s: seq<T>)
    requires StrictWeak(lt)
    ensures Sorted(lt, StableSort(lt, s))
  {
    if s != [] {
      SortSorts(lt, s[..|s| - 1]);
      InsertSorts(lt, StableSort(lt, s[..|s| - 1]), s[|s| - 1]);
    }
  }

  lemma {:induction false} InsertIsStable<T(!new)>(lt: (T, T) -> bool, s: seq<T>, e: T, x: T)
    requires StrictWeak(lt)
    ensures Group(lt, Insert(lt, s, e), x) == Group(lt, s, x) + if Same(lt, e, x) then [e] else []
  {
    if s == [] || !lt(e, s[|s| - 1]) {
      assert (s + [e])[..|s|] == s;
    } else {
      var last := s[|s| - 1];
      var t := Insert(lt, s[..|s| - 1], e);
      InsertIsStable(lt, s[..|s| - 1], e, x);
      assert (t + [last])[..|t|] == t;
      assert !(Same(lt, e, x) && Same(lt, last, x));
    }
  }

  /** Equal elements keep their order. */
  lemma {:induction false} SortIsStable<T(!new)>(lt: (T, T) -> bool, s: seq<T>, x: T)
    requires StrictWeak(lt)
    ensures Group(lt, StableSort(lt, s), x) == Group(lt, s, x)
  {
    if s != [] {
      SortIsStable(lt, s[..|s| - 1], x);
      InsertIsStable(lt, StableSort(lt, s[..|s| - 1]), s[|s| - 1], x);
    }
  }

  // ---------- a sorted sequence is determined by its groups ----------

  lemma {:induction false} GroupConcat<T>(lt: (T, T) -> bool, s: seq<T>, t: seq<T>, x: T)
    ensures Group(lt, s + t, x) == Group(lt, s, x) + Group(lt, t, x)
  {
    if t == [] {
      assert s + t == s;
    } else {
      assert (s + t)[..|s + t| - 1] == s + t[..|t| - 1];
      GroupConcat(lt, s, t[..|t| - 1], x);
    }
  }

  lemma GroupHead<T>(lt: (T, T) -> bool, s: seq<T>, x: T)
    requires s != []
    ensures Group(lt, s, x) == (if Same(lt, s[0], x) then [s[0]] else []) + Group(lt, s[1..], x)
  {
    assert s == [s[0]] + s[1..];
    assert [s[0]][..0] == [];
    GroupConcat(lt, [s[0]], s[1..], x);
  }

  lemma {:induction false} GroupIn<T>(lt: (T, T) -> bool, s: seq<T>, x: T)
    ensures forall y :: y in Group(lt, s, x) ==> y in s && Same(lt, y, x)
  {
    if s != [] {
      GroupIn(lt, s[..|s| - 1], x);
    }
  }

  ghost predicate SameGroups<T(!new)>(lt: (T, T) -> bool, s: seq<T>, t: seq<T>) {
    forall x :: Group(lt, s, x) == Group(lt, t, x)
  }

  // The head of one is no later than the head of the other.
  lemma HeadNotAfter<T(!new)>(lt: (T, T) -> bool, s: seq<T>, t: seq<T>)
    requires StrictWeak(lt) && Sorted(lt, s) && SameGroups(lt, s, t) && t != []
    ensures s != [] && !lt(t[0], s[0])
  {
    GroupHead(lt, t, t[0]);
    assert Group(lt, s, t[0]) == Group(lt, t, t[0]);
    GroupIn(lt, s, t[0]);
    var y := Group(lt, s, t[0])[0];
    assert y in s && Same(lt, y, t[0]);
    assert y == s[0] || !lt(y, s[0]);
  }

  lemma Cancel<T>(p: seq<T>, a: seq<T>, b: seq<T>)
    requires p + a == p + b
    ensures a == b
  {
    assert a == (p + a)[|p|..] && b == (p + b)[|p|..];
  }

  /** Two sorted sequences with the same groups are equal. */
  lemma {:induction false} SortedUnique<T(!new)>(lt: (T, T) -> bool, s: seq<T>, t: seq<T>)
    requires StrictWeak(lt) && Sorted(lt, s) && Sorted(lt, t) && SameGroups(lt, s, t)
    ensures s == t
  {
    if t != [] { HeadNotAfter(lt, s, t); }
    if s != [] { HeadNotAfter(lt, t, s); }
    if s != [] {
      assert Same(lt, s[0], t[0]) && Same(lt, t[0], t[0]);
      assert s[0] == t[0] by {
        assert Group(lt, s, t[0]) == Group(lt, t, t[0]);
        GroupHead(lt, s, t[0]);
        GroupHead(lt, t, t[0]);
        assert Group(lt, s, t[0])[0] == s[0] && Group(lt, t, t[0])[0] == t[0];
      }
      forall x ensures Group(lt, s[1..], x) == Group(lt, t[1..], x) {
        assert Group(lt, s, x) == Group(lt, t, x);
        GroupHead(lt, s, x);
        GroupHead(lt, t, x);
        Cancel(if Same(lt, s[0], x) then [s[0]] else [], Group(lt, s[1..], x), Group(lt, t[1..], x));
      }
      SortedUnique(lt, s[1..], t[1..]);
      assert s == [s[0]] + s[1..] && t == [t[0]] + t[1..];
    }
  }

  /** Stable sorting forgets everything but the order inside each group. */
  lemma SortsAgree<T(!new)>(lt: (T, T) -> bool, s: seq<T>, t: seq<T>)
    requires StrictWeak(lt) && SameGroups(lt, s, t)
    ensures StableSort(lt, s) == StableSort(lt, t)
  {
    SortSorts(lt, s);
    SortSorts(lt, t);
    forall x ensures Group(lt, StableSort(lt, s), x) == Group(lt, StableSort(lt, t), x) {
      SortIsStable(lt, s, x);
      SortIsStable(lt, t, x);
      assert Group(lt, s, x) == Group(lt, t, x);
    }
    SortedUnique(lt, StableSort(lt, s), StableSort(lt, t));
  }

  // ---------- keys that occur once ----------

  ghost predicate DistinctBy<T(!new)>(key: T -> string, s: seq<T>) {
    forall i, j {:trigger s[i], s[j]} :: 0 <= i < j < |s| ==> key(s[i]) != key(s[j])
  }

  lemma {:induction false} DistinctOnce<T(!new)>(key: T -> string, s: seq<T>, e: T)
    requires DistinctBy(key, s)
    ensures multiset(s)[e] <= 1
    ensures e in s ==> forall x :: x in s && key(x) == key(e) ==> x == e
  {
    if s != [] {
      var last := s[|s| - 1];
      assert s == s[..|s| - 1] + [last];
      DistinctOnce(key, s[..|s| - 1], e);
      forall i | 0 <= i < |s| - 1 ensures s[i] != last { assert key(s[i]) != key(s[|s| - 1]); }
    }
  }

  lemma TwicePresent<T>(s: seq<T>, i: nat, j: nat)
    requires i < j < |s| && s[i] == s[j]
    ensures multiset(s)[s[i]] >= 2
  {
    assert s == s[..j] + [s[j]] + s[j + 1..];
    assert s[i] in s[..j];
  }

  lemma PermKeepsDistinct<T(!new)>(key: T -> string, s: seq<T>, t: seq<T>)
    requires DistinctBy(key, s) && multiset(s) == multiset(t)
    ensures DistinctBy(key, t)
  {
    forall i, j | 0 <= i < j < |t|
      ensures key(t[i]) != key(t[j])
    {
      assert t[i] in multiset(s) && t[j] in multiset(s);
      DistinctOnce(key, s, t[i]);
      if t[i] == t[j] { TwicePresent(t, i, j); }
    }
  }
}
