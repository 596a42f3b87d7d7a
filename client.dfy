/**
 * What the browser components receive from the API, and the Array
 * operations they apply to it: filter, and the subsequence relation that
 * says a filter keeps the order it found.
 */
module ClientModel {
  import opened Wrappers

  /**
   * A task as the task list endpoint hands it to a component. A text field
   * the row leaves null is None; a due date is a timestamp in milliseconds.
   */
  datatype ApiTask = ApiTask(
    id: int, title: Option<string>, category: Option<string>, assignedToName: Option<string>,
    priority: string, status: string, completed: bool, dueDate: Option<int>)

  /** Array.prototype.filter. */
  function Filter<T(!new)>(s: seq<T>, p: T -> bool): (r: seq<T>)
    ensures |r| <= |s|
  {
    if s == [] then []
    else if p(s[0]) then [s[0]] + Filter(s[1..], p)
    else Filter(s[1..], p)
  }

  /** An element survives the filter exactly when it is in the input and passes the test. */
  lemma {:induction false} FilterMembers<T(!new)>(s: seq<T>, p: T -> bool)
    ensures forall x :: x in Filter(s, p) <==> x in s && p(x)
  {
    if s != [] {
      FilterMembers(s[1..], p);
      assert s == [s[0]] + s[1..];
    }
  }

  /** a is b with some elements removed and the rest in their original order. */
  predicate SubseqOf<T(==)>(a: seq<T>, b: seq<T>)
    decreases |b|
  {
    if a == [] then true
    else if b == [] then false
    else (a[0] == b[0] && SubseqOf(a[1..], b[1..])) || SubseqOf(a, b[1..])
  }

  lemma {:induction false} FilterIsSubseq<T(!new)>(s: seq<T>, p: T -> bool)
    ensures SubseqOf(Filter(s, p), s)
  {
    if s != [] {
      FilterIsSubseq(s[1..], p);
      var r := Filter(s, p);
      if p(s[0]) {
        assert r[0] == s[0] && r[1..] == Filter(s[1..], p);
      } else if r != [] {
        assert SubseqOf(r, s[1..]);
      }
    }
  }

  /** Filtering twice is filtering once by both tests. */
  lemma {:induction false} FilterTwice<T(!new)>(s: seq<T>, p: T -> bool, q: T -> bool, both: T -> bool)
    requires forall x :: both(x) == (p(x) && q(x))
    ensures Filter(Filter(s, p), q) == Filter(s, both)
  {
    if s != [] {
      FilterTwice(s[1..], p, q, both);
      if p(s[0]) {
        assert Filter(s, p) == [s[0]] + Filter(s[1..], p);
        assert Filter(s, p)[1..] == Filter(s[1..], p);
      }
    }
  }

  /** Tests that agree on every element filter alike. */
  lemma {:induction false} FilterSameTest<T(!new)>(s: seq<T>, p: T -> bool, q: T -> bool)
    requires forall x :: x in s ==> p(x) == q(x)
    ensures Filter(s, p) == Filter(s, q)
  {
    if s != [] {
      FilterSameTest(s[1..], p, q);
    }
  }

  /** With a test every element passes, filter returns its input. */
  lemma {:induction false} FilterAll<T(!new)>(s: seq<T>, p: T -> bool)
    requires forall x :: x in s ==> p(x)
    ensures Filter(s, p) == s
  {
    if s != [] {
      FilterAll(s[1..], p);
      assert Filter(s[1..], p) == s[1..];
    }
  }

  /** A prefix whose elements all pass the test survives the filter whole. */
  lemma {:induction false} FilterKeepsPrefix<T(!new)>(w: seq<T>, rest: seq<T>, p: T -> bool)
    requires forall x :: x in w ==> p(x)
    ensures Filter(w + rest, p) == w + Filter(rest, p)
  {
    if w == [] {
      assert w + rest == rest;
    } else {
      var s := w + rest;
      assert p(w[0]);
      assert s[0] == w[0] && s[1..] == w[1..] + rest;
      FilterKeepsPrefix(w[1..], rest, p);
      calc {
        Filter(s, p);
        [w[0]] + Filter(w[1..] + rest, p);
        [w[0]] + (w[1..] + Filter(rest, p));
        { assert w == [w[0]] + w[1..]; }
        w + Filter(rest, p);
      }
    }
  }

  /** A test and its negation split the input between them. */
  lemma {:induction false} FilterSplits<T(!new)>(s: seq<T>, p: T -> bool, q: T -> bool)
    requires forall x :: q(x) == !p(x)
    ensures |Filter(s, p)| + |Filter(s, q)| == |s|
  {
    if s != [] {
      FilterSplits(s[1..], p, q);
    }
  }
}
