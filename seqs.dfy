/**
 * The two array operations the shop's components use over and over:
 * `Array.prototype.filter` (order-preserving selection) and
 * `Array.prototype.slice(0, n)` (the first n elements).
 */
module Seqs {

  /** `s.filter(f)`: the elements of `s` that satisfy `f`, in their original order. */
  function Filter<T>(s: seq<T>, f: T -> bool): (r: seq<T>)
    ensures |r| <= |s|
    ensures forall i :: 0 <= i < |r| ==> f(r[i]) && r[i] in s
  {
    if s == [] then []
    else if f(s[0]) then [s[0]] + Filter(s[1..], f)
    else Filter(s[1..], f)
  }

  /** `s.slice(0, n)` for a non-negative `n`. */
  function Take<T>(s: seq<T>, n: nat): (r: seq<T>)
    ensures |r| == if |s| <= n then |s| else n
    ensures r <= s
  {
    if |s| <= n then s else s[..n]
  }

  /** Everything in `s` that satisfies `f` is kept. */
  lemma {:induction false} FilterKeeps<T>(s: seq<T>, f: T -> bool, x: T)
    requires x in s && f(x)
    ensures x in Filter(s, f)
  {
    if s[0] != x {
      FilterKeeps(s[1..], f, x);
    }
  }

  /** Membership in a filter result, both directions. */
  lemma FilterMembership<T>(s: seq<T>, f: T -> bool, x: T)
    ensures x in Filter(s, f) <==> x in s && f(x)
  {
    if x in s && f(x) {
      FilterKeeps(s, f, x);
    }
  }

  /** Each element occurs in the result exactly as often as in `s` if it passes `f`, and never otherwise. */
  lemma {:induction false} FilterMultiplicity<T>(s: seq<T>, f: T -> bool, x: T)
    ensures multiset(Filter(s, f))[x] == if f(x) then multiset(s)[x] else 0
  {
    if s != [] {
      FilterMultiplicity(s[1..], f, x);
      assert s == [s[0]] + s[1..];
      assert multiset(s) == multiset{s[0]} + multiset(s[1..]);
    }
  }

  /** Filtering distributes over concatenation, which is what "order-preserving" means. */
  lemma {:induction false} FilterAppend<T>(a: seq<T>, b: seq<T>, f: T -> bool)
    ensures Filter(a + b, f) == Filter(a, f) + Filter(b, f)
  {
    if a != [] {
      assert (a + b)[0] == a[0];
      assert (a + b)[1..] == a[1..] + b;
      FilterAppend(a[1..], b, f);
      if f(a[0]) {
        assert Filter(a + b, f) == [a[0]] + Filter(a[1..] + b, f);
        assert Filter(a, f) == [a[0]] + Filter(a[1..], f);
      }
    } else {
      assert a + b == b;
    }
  }

  /** Filtering a sequence with a known first element. */
  lemma FilterHead<T>(x: T, s: seq<T>, f: T -> bool)
    ensures Filter([x] + s, f) == (if f(x) then [x] else []) + Filter(s, f)
  {
    assert ([x] + s)[1..] == s;
  }

  /** A filter that every element passes returns its input unchanged. */
  lemma {:induction false} FilterAll<T>(s: seq<T>, f: T -> bool)
    requires forall i :: 0 <= i < |s| ==> f(s[i])
    ensures Filter(s, f) == s
  {
    if s != [] {
      FilterAll(s[1..], f);
    }
  }

  /**
   * Two complementary filters split `s`: together they hold every element
   * exactly as often as `s` does, and no element is in both.
   */
  lemma FilterSplit<T>(s: seq<T>, f: T -> bool, g: T -> bool)
    requires forall x :: f(x) != g(x)
    ensures multiset(Filter(s, f)) + multiset(Filter(s, g)) == multiset(s)
    ensures forall x :: !(x in Filter(s, f) && x in Filter(s, g))
  {
    forall x
      ensures (multiset(Filter(s, f)) + multiset(Filter(s, g)))[x] == multiset(s)[x]
    {
      FilterMultiplicity(s, f, x);
      FilterMultiplicity(s, g, x);
    }
  }
}
