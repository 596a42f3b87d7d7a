/**
 * The contract of Array.prototype.sort with a descending numeric comparator
 * `(a, b) => key(b) - key(a)`: a stable sort, written here as an insertion
 * sort on values. The JavaScript engine's own algorithm is not modelled,
 * only what every stable sort must produce.
 */
module StableSort {

  predicate SortedDesc<T>(s: seq<T>, key: T -> real) {
    forall i, j :: 0 <= i < j < |s| ==> key(s[i]) >= key(s[j])
  }

  /** Sorted on key descending and, among equal keys, on key2 descending. */
  predicate SortedLex<T>(s: seq<T>, key: T -> real, key2: T -> real) {
    forall i, j :: 0 <= i < j < |s| ==>
      key(s[i]) > key(s[j]) || (key(s[i]) == key(s[j]) && key2(s[i]) >= key2(s[j]))
  }

  /** The elements of s whose key is k, in their order in s. */
  function KeyFilter<T>(s: seq<T>, k: real, key: T -> real): seq<T> {
    if s == [] then []
    else (if key(s[0]) == k then [s[0]] else []) + KeyFilter(s[1..], k, key)
  }

  /** Places x after every element of s whose key is strictly greater. */
  function Insert<T>(x: T, s: seq<T>, key: T -> real): (r: seq<T>)
    ensures |r| == |s| + 1
    ensures multiset(r) == multiset(s) + multiset{x}
  {
    if s != [] && key(s[0]) > key(x) then
      assert s == [s[0]] + s[1..];
      [s[0]] + Insert(x, s[1..], key)
    else
      [x] + s
  }

  /** Inserting an element no larger than a bound into elements no larger than it keeps them all under it. */
  lemma {:induction false} InsertBelow<T>(x: T, s: seq<T>, key: T -> real, c: real)
    requires key(x) <= c && forall i :: 0 <= i < |s| ==> key(s[i]) <= c
    ensures forall i :: 0 <= i < |Insert(x, s, key)| ==> key(Insert(x, s, key)[i]) <= c
  {
    if s != [] && key(s[0]) > key(x) {
      InsertBelow(x, s[1..], key, c);
      var r := Insert(x, s, key);
      assert r == [s[0]] + Insert(x, s[1..], key);
      forall i | 0 < i < |r| ensures key(r[i]) <= c {
        assert r[i] == Insert(x, s[1..], key)[i - 1];
      }
    } else {
      var r := [x] + s;
      forall i | 0 < i < |r| ensures key(r[i]) <= c {
        assert r[i] == s[i - 1];
      }
    }
  }

  lemma {:induction false} InsertSorted<T>(x: T, s: seq<T>, key: T -> real)
    requires SortedDesc(s, key)
    ensures SortedDesc(Insert(x, s, key), key)
  {
    if s != [] && key(s[0]) > key(x) {
      var tail := s[1..];
      assert SortedDesc(tail, key) by {
        forall i, j | 0 <= i < j < |tail| ensures key(tail[i]) >= key(tail[j]) {
          assert tail[i] == s[i + 1] && tail[j] == s[j + 1];
        }
      }
      InsertSorted(x, tail, key);
      assert forall i :: 0 <= i < |tail| ==> key(tail[i]) <= key(s[0]) by {
        forall i | 0 <= i < |tail| ensures key(tail[i]) <= key(s[0]) {
          assert tail[i] == s[i + 1];
        }
      }
      InsertBelow(x, tail, key, key(s[0]));
      var rest := Insert(x, tail, key);
      var r := [s[0]] + rest;
      forall i, j | 0 <= i < j < |r| ensures key(r[i]) >= key(r[j]) {
        assert r[j] == rest[j - 1];
        if i > 0 {
          assert r[i] == rest[i - 1];
        }
      }
    } else if s != [] {
      var r := [x] + s;
      forall i, j | 0 <= i < j < |r| ensures key(r[i]) >= key(r[j]) {
        assert r[j] == s[j - 1];
        if i > 0 {
          assert r[i] == s[i - 1];
        }
      }
    }
  }

  function SortDesc<T>(s: seq<T>, key: T -> real): (r: seq<T>)
    ensures |r| == |s|
    ensures multiset(r) == multiset(s)
    ensures SortedDesc(r, key)
  {
    if s == [] then []
    else
      assert s == [s[0]] + s[1..];
      InsertSorted(s[0], SortDesc(s[1..], key), key);
      Insert(s[0], SortDesc(s[1..], key), key)
  }

  lemma KeyFilterCons<T>(a: T, t: seq<T>, k: real, key: T -> real)
    ensures KeyFilter([a] + t, k, key) == (if key(a) == k then [a] else []) + KeyFilter(t, k, key)
  {
    assert ([a] + t)[1..] == t;
  }

  lemma {:induction false} InsertKeyFilter<T>(x: T, s: seq<T>, k: real, key: T -> real)
    ensures KeyFilter(Insert(x, s, key), k, key) ==
            (if key(x) == k then [x] else []) + KeyFilter(s, k, key)
  {
    if s != [] && key(s[0]) > key(x) {
      var rest := Insert(x, s[1..], key);
      var a: seq<T> := if key(s[0]) == k then [s[0]] else [];
      var b: seq<T> := if key(x) == k then [x] else [];
      InsertKeyFilter(x, s[1..], k, key);
      assert KeyFilter(rest, k, key) == b + KeyFilter(s[1..], k, key);
      KeyFilterCons(s[0], rest, k, key);
      assert Insert(x, s, key) == [s[0]] + rest;
      assert KeyFilter(Insert(x, s, key), k, key) == a + (b + KeyFilter(s[1..], k, key));
      assert KeyFilter(s, k, key) == a + KeyFilter(s[1..], k, key);
      assert a == [] || b == [];
      assert a + b == b + a;
    } else {
      assert Insert(x, s, key) == [x] + s;
      KeyFilterCons(x, s, k, key);
    }
  }

  /** Stability: the elements sharing any one key keep their input order. */
  lemma {:induction false} SortDescStable<T>(s: seq<T>, k: real, key: T -> real)
    ensures KeyFilter(SortDesc(s, key), k, key) == KeyFilter(s, k, key)
  {
    if s != [] {
      SortDescStable(s[1..], k, key);
      InsertKeyFilter(s[0], SortDesc(s[1..], key), k, key);
      KeyFilterCons(s[0], s[1..], k, key);
      assert s == [s[0]] + s[1..];
    }
  }

  /** Every element of Insert(x, s) is x or an element of s. */
  lemma {:induction false} InsertElements<T>(x: T, s: seq<T>, key: T -> real)
    ensures forall i :: 0 <= i < |Insert(x, s, key)| ==> Insert(x, s, key)[i] == x || Insert(x, s, key)[i] in s
  {
    if s != [] && key(s[0]) > key(x) {
      InsertElements(x, s[1..], key);
      var rest := Insert(x, s[1..], key);
      var r := [s[0]] + rest;
      forall i | 0 < i < |r| ensures r[i] == x || r[i] in s {
        assert r[i] == rest[i - 1];
        if r[i] != x {
          var m :| 0 <= m < |s[1..]| && s[1..][m] == r[i];
          assert s[m + 1] == r[i];
        }
      }
    } else {
      var r := [x] + s;
      forall i | 0 < i < |r| ensures r[i] == x || r[i] in s {
        assert r[i] == s[i - 1];
      }
    }
  }

  /** The tail of a lexicographically sorted sequence keeps both preconditions of InsertLex. */
  lemma LexTail<T>(x: T, s: seq<T>, key: T -> real, key2: T -> real)
    requires s != [] && SortedLex(s, key, key2)
    requires forall y :: y in s ==> key2(y) <= key2(x)
    ensures SortedLex(s[1..], key, key2)
    ensures forall y :: y in s[1..] ==> key2(y) <= key2(x)
  {
    var tail := s[1..];
    forall i, j | 0 <= i < j < |tail|
      ensures key(tail[i]) > key(tail[j]) || (key(tail[i]) == key(tail[j]) && key2(tail[i]) >= key2(tail[j]))
    {
      assert tail[i] == s[i + 1] && tail[j] == s[j + 1];
    }
    forall y | y in tail ensures key2(y) <= key2(x) {
      var m :| 0 <= m < |tail| && tail[m] == y;
      assert s[m + 1] == y;
    }
  }

  lemma {:induction false} InsertLex<T>(x: T, s: seq<T>, key: T -> real, key2: T -> real)
    requires SortedLex(s, key, key2)
    requires forall y :: y in s ==> key2(y) <= key2(x)
    ensures SortedLex(Insert(x, s, key), key, key2)
  {
    if s != [] && key(s[0]) > key(x) {
      var tail := s[1..];
      LexTail(x, s, key, key2);
      InsertLex(x, tail, key, key2);
      InsertElements(x, tail, key);
      var rest := Insert(x, tail, key);
      var r := [s[0]] + rest;
      forall i, j | 0 <= i < j < |r|
        ensures key(r[i]) > key(r[j]) || (key(r[i]) == key(r[j]) && key2(r[i]) >= key2(r[j]))
      {
        assert r[j] == rest[j - 1];
        if i > 0 {
          assert r[i] == rest[i - 1];
        } else if r[j] != x {
          var m :| 0 <= m < |tail| && tail[m] == r[j];
          assert s[m + 1] == r[j];
        }
      }
    } else if s != [] {
      var r := [x] + s;
      forall i, j | 0 <= i < j < |r|
        ensures key(r[i]) > key(r[j]) || (key(r[i]) == key(r[j]) && key2(r[i]) >= key2(r[j]))
      {
        if i == 0 {
          assert r[j] == s[j - 1] && r[j] in s;
          if j - 1 > 0 {
            assert key(s[0]) >= key(s[j - 1]);
          }
        } else {
          assert r[i] == s[i - 1] && r[j] == s[j - 1];
        }
      }
    }
  }

  /**
   * When the input is already ordered on key2 descending, the stable sort on
   * key orders ties on key by key2.
   */
  lemma {:induction false} SortDescLex<T>(s: seq<T>, key: T -> real, key2: T -> real)
    requires SortedDesc(s, key2)
    ensures SortedLex(SortDesc(s, key), key, key2)
  {
    if s != [] {
      SortDescLex(s[1..], key, key2);
      var t := SortDesc(s[1..], key);
      forall y | y in t ensures key2(y) <= key2(s[0]) {
        assert y in multiset(s[1..]);
        var m :| 0 <= m < |s[1..]| && s[1..][m] == y;
        assert s[1 + m] == y;
      }
      InsertLex(s[0], t, key, key2);
    }
  }

  /** Array.prototype.slice(0, n) on a non-negative n. */
  function Take<T>(s: seq<T>, n: nat): (r: seq<T>)
    ensures |r| == if n < |s| then n else |s|
    ensures r == s[..|r|]
  {
    if n < |s| then s[..n] else s
  }

  /** A prefix of a sequence sorted descending is sorted descending and drawn from it. */
  lemma PrefixOfSorted<T>(sorted: seq<T>, key: T -> real, n: nat)
    requires SortedDesc(sorted, key)
    ensures SortedDesc(Take(sorted, n), key)
    ensures multiset(Take(sorted, n)) <= multiset(sorted)
  {
    var r := Take(sorted, n);
    assert sorted == r + sorted[|r|..];
    assert multiset(sorted) == multiset(r) + multiset(sorted[|r|..]);
  }

  /** The first n elements of the sorted sequence: ordered, drawn from s, and all of s when it is short. */
  lemma TopOf<T>(s: seq<T>, key: T -> real, n: nat)
    ensures SortedDesc(Take(SortDesc(s, key), n), key)
    ensures multiset(Take(SortDesc(s, key), n)) <= multiset(s)
    ensures forall x :: x in Take(SortDesc(s, key), n) ==> x in s
    ensures |s| <= n ==> multiset(Take(SortDesc(s, key), n)) == multiset(s)
  {
    var sorted := SortDesc(s, key);
    PrefixOfSorted(sorted, key, n);
    var r := Take(sorted, n);
    forall x | x in r ensures x in s {
      assert x in multiset(r);
    }
  }

  /** In any sequence sorted descending, nothing after the first n has a higher key than one of them. */
  lemma PrefixIsBest<T>(sorted: seq<T>, key: T -> real, n: nat)
    requires SortedDesc(sorted, key)
    ensures var r := Take(sorted, n);
      forall x :: x in sorted && x !in r ==> forall i :: 0 <= i < |r| ==> key(r[i]) >= key(x)
  {
    var r := Take(sorted, n);
    forall x | x in sorted && x !in r ensures forall i :: 0 <= i < |r| ==> key(r[i]) >= key(x) {
      var j :| 0 <= j < |sorted| && sorted[j] == x;
      assert forall k :: 0 <= k < |r| ==> sorted[k] == r[k] && r[k] != x;
      assert j >= |r|;
      forall i | 0 <= i < |r| ensures key(r[i]) >= key(x) {
        assert r[i] == sorted[i];
      }
    }
  }

  /** Nothing left out of the first n of the sorted sequence has a higher key than one kept. */
  lemma TopIsBest<T>(s: seq<T>, key: T -> real, n: nat)
    ensures var r := Take(SortDesc(s, key), n);
      forall x :: x in s && x !in r ==> forall i :: 0 <= i < |r| ==> key(r[i]) >= key(x)
  {
    var sorted := SortDesc(s, key);
    PrefixIsBest(sorted, key, n);
    forall x | x in s ensures x in sorted {
      assert x in multiset(s);
    }
  }

  /** Array.prototype.reduce((sum, x) => sum + f(x), 0). */
  function Sum<T>(s: seq<T>, f: T -> int): int {
    if s == [] then 0 else f(s[0]) + Sum(s[1..], f)
  }

  lemma {:induction false} SumInsert<T>(x: T, s: seq<T>, key: T -> real, f: T -> int)
    ensures Sum(Insert(x, s, key), f) == f(x) + Sum(s, f)
  {
    if s != [] && key(s[0]) > key(x) {
      var r := Insert(x, s, key);
      SumInsert(x, s[1..], key, f);
      assert r[0] == s[0] && r[1..] == Insert(x, s[1..], key);
    } else {
      assert ([x] + s)[1..] == s;
    }
  }

  /** Sorting does not change a sum over the elements. */
  lemma {:induction false} SumSortDesc<T>(s: seq<T>, key: T -> real, f: T -> int)
    ensures Sum(SortDesc(s, key), f) == Sum(s, f)
  {
    if s != [] {
      SumSortDesc(s[1..], key, f);
      SumInsert(s[0], SortDesc(s[1..], key), key, f);
    }
  }
}
