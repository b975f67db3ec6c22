/** Sequence helpers shared by the whole model: an optional value, the order-preserving
    filter that TypeScript's `Array.prototype.filter` performs, and sums over a sequence. */
module Collections {

  datatype Option<T> = None | Some(value: T)

  /** `r` can be obtained from `s` by dropping elements, keeping the rest in order.
      Matching greedily against the first possible element is complete. */
  predicate SubsequenceOf<T(==)>(r: seq<T>, s: seq<T>)
    decreases |s|
  {
    if r == [] then true
    else if s == [] then false
    else if r[0] == s[0] then SubsequenceOf(r[1..], s[1..])
    else SubsequenceOf(r, s[1..])
  }

  /** `s.filter(p)`: the elements of `s` that satisfy `p`, in their original order. */
  function Filter<T(==,!new)>(s: seq<T>, p: T -> bool): (r: seq<T>)
    ensures |r| <= |s|
    ensures forall x :: x in r <==> x in s && p(x)
    ensures forall i :: 0 <= i < |r| ==> p(r[i])
    ensures SubsequenceOf(r, s)
  {
    if s == [] then []
    else if p(s[0]) then
      var rest := Filter(s[1..], p);
      assert ([s[0]] + rest)[1..] == rest;
      [s[0]] + rest
    else Filter(s[1..], p)
  }

  /** A filter keeps the whole sequence exactly when every element satisfies the predicate. */
  lemma {:induction false} FilterLength<T(!new)>(s: seq<T>, p: T -> bool)
    ensures |Filter(s, p)| == |s| <==> forall i :: 0 <= i < |s| ==> p(s[i])
  {
    if s != [] {
      FilterLength(s[1..], p);
      assert forall i :: 1 <= i < |s| ==> s[1..][i - 1] == s[i];
    }
  }

  /** Filtering by a predicate and by its negation splits the sequence between the two. */
  lemma {:induction false} FilterComplement<T(!new)>(s: seq<T>, p: T -> bool, q: T -> bool)
    requires forall x :: q(x) == !p(x)
    ensures |Filter(s, p)| + |Filter(s, q)| == |s|
  {
    if s != [] {
      FilterComplement(s[1..], p, q);
    }
  }

  /** Filtering a concatenation filters each part. */
  lemma {:induction false} FilterAppend<T(!new)>(a: seq<T>, b: seq<T>, p: T -> bool)
    ensures Filter(a + b, p) == Filter(a, p) + Filter(b, p)
  {
    if a == [] {
      assert a + b == b;
    } else {
      assert (a + b)[1..] == a[1..] + b;
      FilterAppend(a[1..], b, p);
    }
  }

  /** A filter whose predicate holds everywhere returns the sequence itself. */
  lemma {:induction false} FilterAll<T(!new)>(s: seq<T>, p: T -> bool)
    requires forall i :: 0 <= i < |s| ==> p(s[i])
    ensures Filter(s, p) == s
  {
    if s != [] {
      FilterAll(s[1..], p);
      assert s == [s[0]] + s[1..];
    }
  }

  /** Filtering twice keeps what both predicates accept. */
  lemma {:induction false} FilterFilter<T(!new)>(s: seq<T>, p: T -> bool, q: T -> bool, both: T -> bool)
    requires forall x :: both(x) == (p(x) && q(x))
    ensures Filter(Filter(s, p), q) == Filter(s, both)
  {
    if s != [] {
      FilterFilter(s[1..], p, q, both);
      if p(s[0]) {
        var rest := Filter(s[1..], p);
        assert ([s[0]] + rest)[1..] == rest;
      }
    }
  }

  /** Two predicates that never hold together select at most the whole sequence between them. */
  lemma {:induction false} FilterDisjoint<T(!new)>(s: seq<T>, p: T -> bool, q: T -> bool)
    requires forall x :: !(p(x) && q(x))
    ensures |Filter(s, p)| + |Filter(s, q)| <= |s|
  {
    if s != [] {
      FilterDisjoint(s[1..], p, q);
    }
  }

  /** `s.map(f)`. */
  function Map<A, B>(s: seq<A>, f: A -> B): (r: seq<B>)
    ensures |r| == |s|
    ensures forall i :: 0 <= i < |s| ==> r[i] == f(s[i])
  {
    if s == [] then [] else [f(s[0])] + Map(s[1..], f)
  }

  function Min(a: int, b: int): int
  {
    if a <= b then a else b
  }

  /** How `Array.prototype.slice` reads an index: negative counts from the end, and the
      result is clamped to `0..n`. */
  function SliceIndex(x: int, n: nat): (k: nat)
    ensures k <= n
    ensures 0 <= x ==> k == Min(x, n)
  {
    if x < 0 then (if n + x < 0 then 0 else n + x) else Min(x, n)
  }

  /** `s.slice(start, end)`. */
  function Slice<T>(s: seq<T>, start: int, end: int): (r: seq<T>)
    ensures 0 <= start <= end ==> r == s[Min(start, |s|)..Min(end, |s|)]
  {
    var a, b := SliceIndex(start, |s|), SliceIndex(end, |s|);
    if a < b then s[a..b] else []
  }

  /** `s.reduce((sum, x) => sum + f(x), 0)`. */
  function SumOf<T>(s: seq<T>, f: T -> real): real
  {
    if s == [] then 0.0 else SumOf(s[..|s| - 1], f) + f(s[|s| - 1])
  }

  lemma {:induction false} SumOfAppend<T>(a: seq<T>, b: seq<T>, f: T -> real)
    ensures SumOf(a + b, f) == SumOf(a, f) + SumOf(b, f)
    decreases |b|
  {
    if b == [] {
      assert a + b == a;
    } else {
      var b' := b[..|b| - 1];
      assert (a + b)[..|a + b| - 1] == a + b';
      SumOfAppend(a, b', f);
    }
  }

  lemma {:induction false} SumOfNonNegative<T>(s: seq<T>, f: T -> real)
    requires forall i :: 0 <= i < |s| ==> f(s[i]) >= 0.0
    ensures SumOf(s, f) >= 0.0
  {
    if s != [] {
      SumOfNonNegative(s[..|s| - 1], f);
    }
  }

  /** `y => y !== x`. */
  function Except<T(==)>(x: T): T -> bool
  {
    y => y != x
  }

  /** Splitting a sequence by a predicate and its negation splits its sum. */
  lemma {:induction false} SumOfPartition<T(!new)>(s: seq<T>, p: T -> bool, q: T -> bool, f: T -> real)
    requires forall y :: q(y) == !p(y)
    ensures SumOf(s, f) == SumOf(Filter(s, p), f) + SumOf(Filter(s, q), f)
    decreases |s|
  {
    if s == [] {
    } else {
      var init, last := s[..|s| - 1], s[|s| - 1];
      assert s == init + [last];
      SumOfPartition(init, p, q, f);
      FilterAppend(init, [last], p);
      FilterAppend(init, [last], q);
      SumOfAppend(Filter(init, p), Filter([last], p), f);
      SumOfAppend(Filter(init, q), Filter([last], q), f);
      assert SumOf([last], f) == f(last) by {
        assert [last][..0] == [];
      }
      if p(last) {
        assert Filter([last], p) == [last] && Filter([last], q) == [];
      } else {
        assert Filter([last], p) == [] && Filter([last], q) == [last];
      }
    }
  }

  /** Removing the only occurrence of `x` removes `x`'s share of the sum. */
  lemma SumOfExceptSingle<T(!new)>(s: seq<T>, x: T, f: T -> real)
    requires multiset(s)[x] == 1
    ensures SumOf(s, f) == SumOf(Filter(s, Except(x)), f) + f(x)
  {
    SumOfPartition(s, Except(x), Only(x), f);
    OnlySingle(s, x);
    assert SumOf([x], f) == f(x) by {
      assert [x][..0] == [];
    }
  }

  /** `y => y === x`. */
  function Only<T(==)>(x: T): T -> bool
  {
    y => y == x
  }

  lemma {:induction false} OnlySingle<T(!new)>(s: seq<T>, x: T)
    requires multiset(s)[x] == 1
    ensures Filter(s, Only(x)) == [x]
    decreases |s|
  {
    assert s == [s[0]] + s[1..];
    assert multiset(s) == multiset{s[0]} + multiset(s[1..]);
    if s[0] == x {
      assert x !in s[1..];
      NoneKept(s[1..], x);
    } else {
      OnlySingle(s[1..], x);
    }
  }

  lemma {:induction false} NoneKept<T(!new)>(s: seq<T>, x: T)
    requires x !in s
    ensures Filter(s, Only(x)) == []
    decreases |s|
  {
    if s != [] {
      NoneKept(s[1..], x);
    }
  }

  /** Number of elements of `s` that satisfy `p`. */
  function CountWhere<T(==,!new)>(s: seq<T>, p: T -> bool): nat
  {
    |Filter(s, p)|
  }

  /** `Math.ceil(a / b)` for a non-negative numerator and a positive denominator. */
  function CeilDiv(a: nat, b: nat): (q: nat)
    requires b > 0
    ensures (q - 1) * b < a <= q * b || (a == 0 && q == 0)
  {
    (a + b - 1) / b
  }
}
