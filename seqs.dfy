/** `Array.prototype.filter` and the order facts the pages and the cart
    reducer rely on. */
module Seqs {

  /** `a` is `b` with some elements dropped, the rest in their order. */
  predicate SubSeq<T(==)>(a: seq<T>, b: seq<T>)
    decreases |b|
  {
    if a == [] then true
    else if b == [] then false
    else if a[0] == b[0] then SubSeq(a[1..], b[1..])
    else SubSeq(a, b[1..])
  }

  /** `s.filter(keep)`. */
  function Filter<T(!new)>(s: seq<T>, keep: T -> bool): (r: seq<T>)
    ensures |r| <= |s|
  {
    if s == [] then []
    else (if keep(s[0]) then [s[0]] else []) + Filter(s[1..], keep)
  }

  /** The filtered list holds exactly the elements that pass. */
  lemma {:induction false} FilterMembers<T(!new)>(s: seq<T>, keep: T -> bool)
    ensures forall x :: x in Filter(s, keep) <==> x in s && keep(x)
  {
    if s != [] {
      FilterMembers(s[1..], keep);
      assert s == [s[0]] + s[1..];
    }
  }

  lemma {:induction false} FilterIsSubSeq<T(!new)>(s: seq<T>, keep: T -> bool)
    ensures SubSeq(Filter(s, keep), s)
  {
    if s != [] {
      FilterIsSubSeq(s[1..], keep);
      var rest := Filter(s[1..], keep);
      if keep(s[0]) {
        assert ([s[0]] + rest)[1..] == rest;
      } else {
        SubSeqSkip(rest, s[0], s[1..]);
        assert [s[0]] + s[1..] == s;
        assert Filter(s, keep) == [] + rest == rest;
      }
    }
  }

  /** Putting an element in front of the longer list keeps a subsequence one. */
  lemma {:induction false} SubSeqSkip<T>(a: seq<T>, x: T, b: seq<T>)
    requires SubSeq(a, b)
    ensures SubSeq(a, [x] + b)
    decreases |b|, 1
  {
    assert ([x] + b)[1..] == b;
    if a != [] && a[0] == x {
      SubSeqDrop(a, b);
    }
  }

  /** Dropping the first element of a subsequence keeps it a subsequence. */
  lemma {:induction false} SubSeqDrop<T>(a: seq<T>, b: seq<T>)
    requires a != [] && SubSeq(a, b)
    ensures SubSeq(a[1..], b)
    decreases |b|, 0
  {
    assert [b[0]] + b[1..] == b;
    if a[0] == b[0] {
      SubSeqSkip(a[1..], b[0], b[1..]);
    } else {
      SubSeqDrop(a, b[1..]);
      SubSeqSkip(a[1..], b[0], b[1..]);
    }
  }

  /** Filtering a filtered list by a second test is filtering by both. */
  lemma {:induction false} FilterCompose<T(!new)>(s: seq<T>, p: T -> bool, q: T -> bool)
    ensures Filter(Filter(s, p), q) == Filter(s, x => p(x) && q(x))
  {
    if s != [] {
      FilterCompose(s[1..], p, q);
      if p(s[0]) {
        assert Filter(s, p) == [s[0]] + Filter(s[1..], p);
        assert Filter(s, p)[1..] == Filter(s[1..], p);
      } else {
        assert Filter(s, p) == Filter(s[1..], p);
      }
    }
  }

  /** Filtering keeps the list as it is when every element passes. */
  lemma {:induction false} FilterAllPass<T(!new)>(s: seq<T>, keep: T -> bool)
    requires forall k :: 0 <= k < |s| ==> keep(s[k])
    ensures Filter(s, keep) == s
  {
    if s != [] {
      FilterAllPass(s[1..], keep);
      assert [s[0]] + s[1..] == s;
    }
  }

  /** Filtering by the same test twice is filtering once. */
  lemma {:induction false} FilterIdempotent<T(!new)>(s: seq<T>, keep: T -> bool)
    ensures Filter(Filter(s, keep), keep) == Filter(s, keep)
  {
    var r := Filter(s, keep);
    FilterMembers(s, keep);
    forall k | 0 <= k < |r| ensures keep(r[k]) {
      assert r[k] in r;
    }
    FilterAllPass(r, keep);
  }

  /** Filtering distributes over concatenation. */
  lemma {:induction false} FilterAppend<T(!new)>(a: seq<T>, b: seq<T>, keep: T -> bool)
    ensures Filter(a + b, keep) == Filter(a, keep) + Filter(b, keep)
  {
    if a != [] {
      assert (a + b)[0] == a[0];
      assert (a + b)[1..] == a[1..] + b;
      FilterAppend(a[1..], b, keep);
      var head := if keep(a[0]) then [a[0]] else [];
      calc {
        Filter(a + b, keep);
        head + Filter(a[1..] + b, keep);
        head + (Filter(a[1..], keep) + Filter(b, keep));
        (head + Filter(a[1..], keep)) + Filter(b, keep);
        Filter(a, keep) + Filter(b, keep);
      }
    } else {
      assert a + b == b;
    }
  }

  /** Filtering by two tests that agree everywhere gives the same list. */
  lemma {:induction false} FilterExtensional<T(!new)>(s: seq<T>, p: T -> bool, q: T -> bool)
    requires forall x :: p(x) == q(x)
    ensures Filter(s, p) == Filter(s, q)
  {
    if s != [] {
      FilterExtensional(s[1..], p, q);
    }
  }

  /** A pipeline stage that filters only when it is switched on. */
  function FilterIf<T(!new)>(s: seq<T>, on: bool, keep: T -> bool): (r: seq<T>)
    ensures !on ==> r == s
    ensures on ==> r == Filter(s, keep)
  {
    if on then Filter(s, keep) else s
  }

  /** The test a stage that may be off applies: "off, or passes". */
  function OffOr<T(!new)>(on: bool, keep: T -> bool): (t: T -> bool)
    ensures forall x :: t(x) == (!on || keep(x))
  {
    x => !on || keep(x)
  }

  /** Two tests together. */
  function Both<T(!new)>(p: T -> bool, q: T -> bool): (t: T -> bool)
    ensures forall x :: t(x) == (p(x) && q(x))
  {
    x => p(x) && q(x)
  }

  /** A stage that may be off is a filter by "off, or passes". */
  lemma FilterIfIsFilter<T(!new)>(s: seq<T>, on: bool, keep: T -> bool)
    ensures FilterIf(s, on, keep) == Filter(s, OffOr(on, keep))
  {
    if on {
      FilterExtensional(s, keep, OffOr(on, keep));
    } else {
      FilterAllPass(s, OffOr(on, keep));
    }
  }

  /** Two filters in a row are one filter by both tests. */
  lemma FilterBoth<T(!new)>(s: seq<T>, p: T -> bool, q: T -> bool)
    ensures Filter(Filter(s, p), q) == Filter(s, Both(p, q))
  {
    FilterCompose(s, p, q);
    FilterExtensional(s, x => p(x) && q(x), Both(p, q));
  }

  /** Three stages in a row are one filter by the three tests together. */
  lemma FilterIfChain<T(!new)>(s: seq<T>, a: bool, p: T -> bool, b: bool, q: T -> bool, c: bool, r: T -> bool)
    ensures FilterIf(FilterIf(FilterIf(s, a, p), b, q), c, r)
         == Filter(s, Both(Both(OffOr(a, p), OffOr(b, q)), OffOr(c, r)))
  {
    var s1 := FilterIf(s, a, p);
    var s2 := FilterIf(s1, b, q);
    assert s1 == Filter(s, OffOr(a, p)) by { FilterIfIsFilter(s, a, p); }
    assert s2 == Filter(s1, OffOr(b, q)) by { FilterIfIsFilter(s1, b, q); }
    assert FilterIf(s2, c, r) == Filter(s2, OffOr(c, r)) by { FilterIfIsFilter(s2, c, r); }
    assert s2 == Filter(s, Both(OffOr(a, p), OffOr(b, q))) by {
      FilterBoth(s, OffOr(a, p), OffOr(b, q));
    }
    FilterBoth(s, Both(OffOr(a, p), OffOr(b, q)), OffOr(c, r));
  }
}
