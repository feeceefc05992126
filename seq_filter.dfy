/** `Array.prototype.filter` on sequences, and the facts the components rely on:
    the result is an order-preserving subsequence holding exactly the elements
    that pass, and filtering twice is filtering once by both tests. */
module SeqFilter {
  /** `s.filter(keep)`. */
  function Where<T>(s: seq<T>, keep: T -> bool): seq<T>
  {
    if s == [] then [] else (if keep(s[0]) then [s[0]] else []) + Where(s[1..], keep)
  }

  /** `a` is `b` with some elements left out, the rest in their order. */
  predicate IsSubsequence<T(==)>(a: seq<T>, b: seq<T>)
    decreases |b|
  {
    a == [] || (b != [] && ((a[0] == b[0] && IsSubsequence(a[1..], b[1..])) || IsSubsequence(a, b[1..])))
  }

  lemma {:induction false} WhereIsSubsequence<T>(s: seq<T>, keep: T -> bool)
    ensures |Where(s, keep)| <= |s|
    ensures IsSubsequence(Where(s, keep), s)
  {
    if s != [] {
      WhereIsSubsequence(s[1..], keep);
      var w := Where(s, keep);
      if keep(s[0]) {
        assert w[0] == s[0] && w[1..] == Where(s[1..], keep);
      } else {
        assert w == Where(s[1..], keep);
      }
    }
  }

  lemma {:induction false} WhereMembership<T>(s: seq<T>, keep: T -> bool)
    ensures forall x :: x in Where(s, keep) <==> x in s && keep(x)
  {
    if s != [] {
      WhereMembership(s[1..], keep);
      assert s == [s[0]] + s[1..];
    }
  }

  /** Nothing is dropped when every element passes. */
  lemma {:induction false} WhereAllPass<T>(s: seq<T>, keep: T -> bool)
    requires forall i :: 0 <= i < |s| ==> keep(s[i])
    ensures Where(s, keep) == s
  {
    if s != [] {
      assert keep(s[0]);
      WhereAllPass(s[1..], keep);
    }
  }

  /** Two tests that agree on every element filter alike. */
  lemma {:induction false} WhereSameTest<T>(s: seq<T>, p: T -> bool, q: T -> bool)
    requires forall x :: p(x) == q(x)
    ensures Where(s, p) == Where(s, q)
  {
    if s != [] {
      WhereSameTest(s[1..], p, q);
    }
  }

  /** Filtering by `p` and then by `q` is filtering by `pq`, their conjunction. */
  lemma {:induction false} WhereThenWhere<T>(s: seq<T>, p: T -> bool, q: T -> bool, pq: T -> bool)
    requires forall x :: pq(x) == (p(x) && q(x))
    ensures Where(Where(s, p), q) == Where(s, pq)
  {
    if s != [] {
      WhereThenWhere(s[1..], p, q, pq);
      WhereAppend([s[0]], s[1..], q);
      if !p(s[0]) {
        assert Where(s, p) == Where(s[1..], p);
      } else {
        assert Where(s, p) == [s[0]] + Where(s[1..], p);
        WhereAppend([s[0]], Where(s[1..], p), q);
        assert Where([s[0]], q) == if q(s[0]) then [s[0]] else [];
      }
    }
  }

  lemma {:induction false} WhereAppend<T>(a: seq<T>, b: seq<T>, keep: T -> bool)
    ensures Where(a + b, keep) == Where(a, keep) + Where(b, keep)
  {
    if a == [] {
      assert a + b == b;
    } else {
      var ab := a + b;
      assert ab != [] && ab[0] == a[0] && ab[1..] == a[1..] + b;
      var head := if keep(a[0]) then [a[0]] else [];
      WhereAppend(a[1..], b, keep);
      calc {
        Where(ab, keep);
        head + Where(a[1..] + b, keep);
        head + (Where(a[1..], keep) + Where(b, keep));
        (head + Where(a[1..], keep)) + Where(b, keep);
      }
    }
  }
}
