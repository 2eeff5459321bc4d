/** Generic sequence facts shared by the stores, the tag editor and the statistics. */
module Seqs {

  /** The elements of `s` that satisfy `p`, in their original order; the model of
      JavaScript's `Array.prototype.filter`. */
  function Filter<T(==)>(p: T -> bool, s: seq<T>): (r: seq<T>)
    ensures |r| <= |s|
    ensures forall i :: 0 <= i < |r| ==> r[i] in s && p(r[i])
    ensures forall i :: 0 <= i < |s| && p(s[i]) ==> s[i] in r
  {
    if |s| == 0 then []
    else if p(s[0]) then [s[0]] + Filter(p, s[1..])
    else Filter(p, s[1..])
  }

  /** Nothing is kept exactly when no element satisfies the predicate. */
  lemma FilterEmpty<T>(p: T -> bool, s: seq<T>)
    ensures |Filter(p, s)| == 0 <==> forall i :: 0 <= i < |s| ==> !p(s[i])
  {
  }

  /** Every element occurs at most once. */
  predicate Distinct<T(==)>(s: seq<T>) {
    forall i, j :: 0 <= i < j < |s| ==> s[i] != s[j]
  }

  /** Filtering distributes over concatenation; with the one-element case this
      says that the kept elements stay in their original relative order. */
  lemma {:induction false} FilterConcat<T>(p: T -> bool, a: seq<T>, b: seq<T>)
    ensures Filter(p, a + b) == Filter(p, a) + Filter(p, b)
  {
    if |a| == 0 {
      assert a + b == b;
    } else {
      assert (a + b)[0] == a[0];
      assert (a + b)[1..] == a[1..] + b;
      FilterConcat(p, a[1..], b);
    }
  }

  /** Filtering twice by the same predicate is filtering once. */
  lemma {:induction false} FilterIdempotent<T>(p: T -> bool, s: seq<T>)
    ensures Filter(p, Filter(p, s)) == Filter(p, s)
  {
    if |s| != 0 {
      FilterIdempotent(p, s[1..]);
      if p(s[0]) {
        var t := Filter(p, s[1..]);
        assert ([s[0]] + t)[0] == s[0];
        assert ([s[0]] + t)[1..] == t;
      }
    }
  }

  /** When every element is kept, filtering is the identity. */
  lemma {:induction false} FilterKeepsAll<T>(p: T -> bool, s: seq<T>)
    requires forall x :: x in s ==> p(x)
    ensures Filter(p, s) == s
  {
    if |s| != 0 {
      assert s[0] in s;
      forall x | x in s[1..] ensures p(x) {
        assert x in s;
      }
      FilterKeepsAll(p, s[1..]);
      assert s == [s[0]] + s[1..];
    }
  }

  /** Each element keeps its multiplicity when kept, and vanishes otherwise. */
  lemma {:induction false} FilterMultiplicity<T>(p: T -> bool, s: seq<T>, x: T)
    ensures multiset(Filter(p, s))[x] == if p(x) then multiset(s)[x] else 0
  {
    if |s| != 0 {
      FilterMultiplicity(p, s[1..], x);
      assert s == [s[0]] + s[1..];
      assert multiset(s) == multiset([s[0]]) + multiset(s[1..]);
    }
  }

  /** Two filters whose predicates never both hold select at most `|s|` elements together. */
  lemma {:induction false} FilterDisjointBound<T>(p: T -> bool, q: T -> bool, s: seq<T>)
    requires forall x :: x in s ==> !(p(x) && q(x))
    ensures |Filter(p, s)| + |Filter(q, s)| <= |s|
  {
    if |s| != 0 {
      assert s[0] in s;
      forall x | x in s[1..] ensures !(p(x) && q(x)) {
        assert x in s;
      }
      FilterDisjointBound(p, q, s[1..]);
    }
  }
}
