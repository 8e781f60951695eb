/**
 * The array methods the application builds everything from — `filter`,
 * `findIndex`/`find`, `some`, `reduce`, `sort`, `slice` and
 * `Array.from(new Set(...))` — as functions on sequences, each with the
 * property the callers rely on.
 */
module Seqs {
  import opened Wrappers

  // ---------------------------------------------------------------- predicates as values

  /** Both predicates hold. */
  function And<T>(p: T -> bool, q: T -> bool): T -> bool {
    x => p(x) && q(x)
  }

  /** A filter stage that is applied only when `active`: inactive stages keep everything. */
  function When<T>(active: bool, p: T -> bool): T -> bool {
    x => !active || p(x)
  }

  // ---------------------------------------------------------------- filter

  /** `s.filter(p)`. */
  function Filter<T>(s: seq<T>, p: T -> bool): (r: seq<T>)
    ensures |r| <= |s|
    ensures forall i :: 0 <= i < |r| ==> r[i] in s && p(r[i])
    ensures forall i :: 0 <= i < |s| && p(s[i]) ==> s[i] in r
    decreases |s|
  {
    if |s| == 0 then []
    else if p(s[0]) then [s[0]] + Filter(s[1..], p)
    else Filter(s[1..], p)
  }

  /** `r` is `s` with some elements left out and the rest in their original order. */
  predicate IsSubsequence<T(==)>(r: seq<T>, s: seq<T>)
    decreases |s|
  {
    |r| == 0 || (|s| > 0 && ((r[0] == s[0] && IsSubsequence(r[1..], s[1..])) || IsSubsequence(r, s[1..])))
  }

  /** A filter keeps the order of what it keeps. */
  lemma {:induction false} FilterIsSubsequence<T>(s: seq<T>, p: T -> bool)
    ensures IsSubsequence(Filter(s, p), s)
    decreases |s|
  {
    if |s| > 0 {
      FilterIsSubsequence(s[1..], p);
      if p(s[0]) {
        assert Filter(s, p)[1..] == Filter(s[1..], p);
      }
    }
  }

  /** A filter whose predicate holds everywhere keeps the whole sequence. */
  lemma {:induction false} FilterKeepsAll<T>(s: seq<T>, p: T -> bool)
    requires forall i :: 0 <= i < |s| ==> p(s[i])
    ensures Filter(s, p) == s
    decreases |s|
  {
    if |s| > 0 {
      FilterKeepsAll(s[1..], p);
      assert s == [s[0]] + s[1..];
    }
  }

  /** Filtering twice is filtering once by both predicates. */
  lemma {:induction false} FilterFilter<T>(s: seq<T>, p: T -> bool, q: T -> bool)
    ensures Filter(Filter(s, p), q) == Filter(s, And(p, q))
    decreases |s|
  {
    if |s| > 0 {
      FilterFilter(s[1..], p, q);
      if p(s[0]) {
        assert Filter(s, p)[1..] == Filter(s[1..], p);
        assert Filter(s, p)[0] == s[0];
      }
    }
  }

  /** Filters by predicates that agree on every element give the same result. */
  lemma {:induction false} FilterSamePredicate<T>(s: seq<T>, p: T -> bool, q: T -> bool)
    requires forall i :: 0 <= i < |s| ==> p(s[i]) == q(s[i])
    ensures Filter(s, p) == Filter(s, q)
    decreases |s|
  {
    if |s| > 0 {
      FilterSamePredicate(s[1..], p, q);
    }
  }

  /** A stage applied only when `active` is the filter by `When(active, p)`. */
  lemma StageIsFilter<T>(s: seq<T>, active: bool, p: T -> bool)
    ensures (if active then Filter(s, p) else s) == Filter(s, When(active, p))
  {
    if active {
      FilterSamePredicate(s, p, When(active, p));
    } else {
      FilterKeepsAll(s, When(active, p));
    }
  }

  /** A filter keeps every occurrence of each element that passes and none of the others. */
  lemma {:induction false} FilterMultiset<T>(s: seq<T>, p: T -> bool)
    ensures forall x :: multiset(Filter(s, p))[x] == if p(x) then multiset(s)[x] else 0
    ensures multiset(Filter(s, p)) <= multiset(s)
    decreases |s|
  {
    if |s| > 0 {
      FilterMultiset(s[1..], p);
      assert s == [s[0]] + s[1..];
    }
  }

  /** `s.map(f)`. */
  function Map<T, U>(s: seq<T>, f: T -> U): (r: seq<U>)
    ensures |r| == |s|
    ensures forall i :: 0 <= i < |s| ==> r[i] == f(s[i])
  {
    seq(|s|, i requires 0 <= i < |s| => f(s[i]))
  }

  // ---------------------------------------------------------------- count and sum

  /** `s.filter(p).length`. */
  function Count<T>(s: seq<T>, p: T -> bool): (n: nat)
    ensures n <= |s|
  {
    |Filter(s, p)|
  }

  /** A filter keeps everything exactly when its predicate holds everywhere, and nothing
      exactly when it holds nowhere. */
  lemma CountAllOrNone<T>(s: seq<T>, p: T -> bool)
    ensures |Filter(s, p)| == |s| <==> forall i :: 0 <= i < |s| ==> p(s[i])
    ensures |Filter(s, p)| == 0 <==> forall i :: 0 <= i < |s| ==> !p(s[i])
  {
    if forall i :: 0 <= i < |s| ==> p(s[i]) {
      FilterKeepsAll(s, p);
    } else {
      var i :| 0 <= i < |s| && !p(s[i]);
      FilterDropsRejected(s, p, i);
    }
    if forall i :: 0 <= i < |s| ==> !p(s[i]) {
      FilterKeepsNone(s, p);
    } else {
      var i :| 0 <= i < |s| && p(s[i]);
      assert s[i] in Filter(s, p);
    }
  }

  /** Counting with two predicates that never hold together counts no more than the whole. */
  lemma {:induction false} CountDisjoint<T>(s: seq<T>, p: T -> bool, q: T -> bool)
    requires forall i :: 0 <= i < |s| ==> !(p(s[i]) && q(s[i]))
    ensures Count(s, p) + Count(s, q) <= |s|
    decreases |s|
  {
    if |s| > 0 {
      CountDisjoint(s[1..], p, q);
    }
  }

  /** `s.reduce((acc, x) => acc + f(x), 0)`. */
  function Sum<T>(s: seq<T>, f: T -> int): int
    decreases |s|
  {
    if |s| == 0 then 0 else f(s[0]) + Sum(s[1..], f)
  }

  /** Sums split over concatenation. */
  lemma {:induction false} SumAppend<T>(s: seq<T>, t: seq<T>, f: T -> int)
    ensures Sum(s + t, f) == Sum(s, f) + Sum(t, f)
    decreases |s|
  {
    if |s| > 0 {
      assert (s + t)[1..] == s[1..] + t;
      assert (s + t)[0] == s[0];
      SumAppend(s[1..], t, f);
    } else {
      assert s + t == t;
    }
  }

  /** A sum of terms that all lie in [lo, hi] lies between |s|·lo and |s|·hi. */
  lemma {:induction false} SumBounds<T>(s: seq<T>, f: T -> int, lo: int, hi: int)
    requires forall i :: 0 <= i < |s| ==> lo <= f(s[i]) <= hi
    ensures |s| * lo <= Sum(s, f) <= |s| * hi
    decreases |s|
  {
    if |s| > 0 {
      SumBounds(s[1..], f, lo, hi);
    }
  }

  /** A filter whose predicate holds nowhere keeps nothing. */
  lemma {:induction false} FilterKeepsNone<T>(s: seq<T>, p: T -> bool)
    requires forall i :: 0 <= i < |s| ==> !p(s[i])
    ensures Filter(s, p) == []
    decreases |s|
  {
    if |s| > 0 {
      FilterKeepsNone(s[1..], p);
    }
  }

  /** Filtering a sequence extended by one element extends the filtered sequence by that
      element exactly when it passes. */
  lemma {:induction false} FilterSnoc<T>(s: seq<T>, x: T, p: T -> bool)
    ensures Filter(s + [x], p) == Filter(s, p) + (if p(x) then [x] else [])
    decreases |s|
  {
    if |s| == 0 {
      assert s + [x] == [x];
      assert [x][1..] == [];
    } else {
      assert (s + [x])[1..] == s[1..] + [x];
      assert (s + [x])[0] == s[0];
      FilterSnoc(s[1..], x, p);
    }
  }

  /** Counting over a sequence extended by one element. */
  lemma CountSnoc<T>(s: seq<T>, x: T, p: T -> bool)
    ensures Count(s + [x], p) == Count(s, p) + (if p(x) then 1 else 0)
  {
    FilterSnoc(s, x, p);
  }

  /** Summing over a sequence extended by one element. */
  lemma SumSnoc<T>(s: seq<T>, x: T, f: T -> int)
    ensures Sum(s + [x], f) == Sum(s, f) + f(x)
  {
    SumAppend(s, [x], f);
  }

  /** Summing the filtered part of a sequence extended by one element. */
  lemma FilterSumSnoc<T>(s: seq<T>, x: T, p: T -> bool, f: T -> int)
    ensures Sum(Filter(s + [x], p), f) == Sum(Filter(s, p), f) + (if p(x) then f(x) else 0)
  {
    FilterSnoc(s, x, p);
    SumAppend(Filter(s, p), if p(x) then [x] else [], f);
  }

  /** Replacing one element changes the sum by the difference of the two terms. */
  lemma SumUpdate<T>(s: seq<T>, k: nat, x: T, f: T -> int)
    requires k < |s|
    ensures Sum(s[k := x], f) == Sum(s, f) - f(s[k]) + f(x)
  {
    assert s == s[..k] + ([s[k]] + s[k + 1..]);
    assert s[k := x] == s[..k] + ([x] + s[k + 1..]);
    SumAppend(s[..k], [s[k]] + s[k + 1..], f);
    SumAppend(s[..k], [x] + s[k + 1..], f);
    SumAppend([s[k]], s[k + 1..], f);
    SumAppend([x], s[k + 1..], f);
  }

  /** Sums do not depend on the order of the terms. */
  lemma {:induction false} SumPermutation<T>(a: seq<T>, b: seq<T>, f: T -> int)
    requires multiset(a) == multiset(b)
    ensures Sum(a, f) == Sum(b, f)
    decreases |a|
  {
    if |a| > 0 {
      var k := IndexOfMember(b, a[0]);
      var rest := b[..k] + b[k + 1..];
      MultisetRemoveAt(b, k);
      assert multiset(a[1..]) == multiset(a) - multiset{a[0]} by {
        assert a == [a[0]] + a[1..];
      }
      SumPermutation(a[1..], rest, f);
      SumRemoveAt(b, k, f);
    } else {
      assert |b| == |multiset(b)|;
    }
  }

  /** An index of an element of a sequence. */
  lemma IndexOfMember<T>(s: seq<T>, x: T) returns (k: nat)
    requires x in multiset(s)
    ensures k < |s| && s[k] == x
  {
    assert x in s;
    k :| k < |s| && s[k] == x;
  }

  /** Taking element k out of a sequence takes one copy of it out of its multiset. */
  lemma MultisetRemoveAt<T>(s: seq<T>, k: nat)
    requires k < |s|
    ensures multiset(s[..k] + s[k + 1..]) == multiset(s) - multiset{s[k]}
  {
    assert s == s[..k] + ([s[k]] + s[k + 1..]);
    assert multiset(s) == multiset(s[..k]) + multiset{s[k]} + multiset(s[k + 1..]);
  }

  /** The sum is element k's term plus the sum of the others. */
  lemma SumRemoveAt<T>(s: seq<T>, k: nat, f: T -> int)
    requires k < |s|
    ensures Sum(s, f) == f(s[k]) + Sum(s[..k] + s[k + 1..], f)
  {
    AroundIndex(s, k);
    SumAppend(s[..k], [s[k]] + s[k + 1..], f);
    SumCons(s[k], s[k + 1..], f);
    SumAppend(s[..k], s[k + 1..], f);
  }

  /** A sequence is what lies before index k, element k, and what lies after it. */
  lemma AroundIndex<T>(s: seq<T>, k: nat)
    requires k < |s|
    ensures s == s[..k] + ([s[k]] + s[k + 1..])
  {
  }

  /** The sum of a sequence with a first element. */
  lemma SumCons<T>(x: T, t: seq<T>, f: T -> int)
    ensures Sum([x] + t, f) == f(x) + Sum(t, f)
  {
    assert ([x] + t)[1..] == t;
  }

  // ---------------------------------------------------------------- find

  /** `s.findIndex(p)`: the first index where `p` holds, or -1. */
  function FirstIndex<T>(s: seq<T>, p: T -> bool): (r: int)
    ensures -1 <= r < |s|
    ensures r == -1 <==> forall i :: 0 <= i < |s| ==> !p(s[i])
    ensures r >= 0 ==> p(s[r]) && forall j :: 0 <= j < r ==> !p(s[j])
    decreases |s|
  {
    if |s| == 0 then -1
    else if p(s[0]) then 0
    else
      var k := FirstIndex(s[1..], p);
      if k == -1 then -1 else k + 1
  }

  /** `s.find(p)`: the first element where `p` holds, or nothing. */
  function Find<T>(s: seq<T>, p: T -> bool): (r: Option<T>)
    ensures r.None? <==> forall i :: 0 <= i < |s| ==> !p(s[i])
    ensures r.Some? ==> r.value == s[FirstIndex(s, p)]
  {
    var i := FirstIndex(s, p);
    if i < 0 then None else Some(s[i])
  }

  // ---------------------------------------------------------------- update and remove by key

  /** The opposite predicate. */
  function Not<T>(p: T -> bool): T -> bool {
    x => !p(x)
  }

  /** A filter that rejects some element is shorter than its input. */
  lemma {:induction false} FilterDropsRejected<T>(s: seq<T>, p: T -> bool, i: nat)
    requires i < |s| && !p(s[i])
    ensures |Filter(s, p)| < |s|
    decreases |s|
  {
    if i > 0 {
      FilterDropsRejected(s[1..], p, i - 1);
    }
  }

  /** A filter that rejects exactly one element removes just that element. */
  lemma {:induction false} FilterRemovesOne<T>(s: seq<T>, p: T -> bool, k: nat)
    requires k < |s| && !p(s[k])
    requires forall i :: 0 <= i < |s| && i != k ==> p(s[i])
    ensures Filter(s, p) == s[..k] + s[k + 1..]
    decreases |s|
  {
    if k == 0 {
      FilterKeepsAll(s[1..], p);
    } else {
      var t := s[1..];
      assert forall i :: 0 <= i < |t| ==> t[i] == s[i + 1];
      FilterRemovesOne(t, p, k - 1);
      FilterRemovesOneStep(s, p, k);
    }
  }

  /** The step of the lemma above: a kept head goes in front of the rest's result. */
  lemma FilterRemovesOneStep<T>(s: seq<T>, p: T -> bool, k: nat)
    requires 0 < k < |s| && p(s[0])
    requires Filter(s[1..], p) == s[1..][..k - 1] + s[1..][k..]
    ensures Filter(s, p) == s[..k] + s[k + 1..]
  {
    assert Filter(s, p) == [s[0]] + Filter(s[1..], p);
    DropAfterHead(s, k);
  }

  /** A sequence whose head is that of `s` and whose tail is the tail of `s` is `s`. */
  lemma HeadAndTail<T>(s: seq<T>, r: seq<T>, tail: seq<T>)
    requires |s| >= 1 && r == [s[0]] + tail && tail == s[1..]
    ensures r == s
  {
    assert [s[0]] + s[1..] == s;
  }

  /** Leaving out element k > 0 of `s` is keeping its head and leaving out element k - 1 of
      its tail. */
  lemma DropAfterHead<T>(s: seq<T>, k: nat)
    requires 0 < k < |s|
    ensures s[..k] + s[k + 1..] == [s[0]] + (s[1..][..k - 1] + s[1..][k..])
  {
    assert s[1..][..k - 1] == s[1..k];
    assert s[1..][k..] == s[k + 1..];
    assert s[..k] == [s[0]] + s[1..k];
  }

  /** The stores' update: find the first element matching `p`; fail when there is none,
      otherwise replace that one element by `f` of it in a copy. */
  function UpdateFirst<T>(s: seq<T>, p: T -> bool, f: T -> T): (r: Option<seq<T>>)
    ensures r.None? <==> forall i :: 0 <= i < |s| ==> !p(s[i])
    ensures r.Some? ==>
      var k := FirstIndex(s, p);
      && |r.value| == |s|
      && r.value[k] == f(s[k])
      && forall j :: 0 <= j < |s| && j != k ==> r.value[j] == s[j]
  {
    var k := FirstIndex(s, p);
    if k == -1 then None else Some(s[k := f(s[k])])
  }

  /** The stores' delete: fail when nothing matches `p`, otherwise keep exactly the
      elements that do not match, in order. */
  function RemoveAll<T>(s: seq<T>, p: T -> bool): (r: Option<seq<T>>)
    ensures r.None? <==> forall i :: 0 <= i < |s| ==> !p(s[i])
    ensures r.Some? ==>
      && |r.value| < |s|
      && (forall i :: 0 <= i < |r.value| ==> r.value[i] in s && !p(r.value[i]))
      && (forall i :: 0 <= i < |s| && !p(s[i]) ==> s[i] in r.value)
      && IsSubsequence(r.value, s)
  {
    var k := FirstIndex(s, p);
    if k == -1 then None
    else
      FilterDropsRejected(s, Not(p), k);
      FilterIsSubsequence(s, Not(p));
      Some(Filter(s, Not(p)))
  }

  // ---------------------------------------------------------------- distinct values

  /** The predicate "equals `v`". */
  function Is<T(==)>(v: T): T -> bool {
    x => x == v
  }

  /** Extending a sequence by one element leaves the first index of anything already found
      where it was; otherwise the new element is found at the end, or nothing is. */
  lemma FirstIndexSnoc<T>(t: seq<T>, x: T, p: T -> bool)
    ensures FirstIndex(t + [x], p) == if FirstIndex(t, p) >= 0 then FirstIndex(t, p) else if p(x) then |t| else -1
  {
    var s := t + [x];
    assert forall i :: 0 <= i < |t| ==> s[i] == t[i];
    assert s[|t|] == x;
  }

  /** The values of `r` come in the order in which they first occur in `s`. */
  predicate InFirstAppearanceOrder<T(==)>(r: seq<T>, s: seq<T>) {
    forall i, j :: 0 <= i < j < |r| ==> FirstIndex(s, Is(r[i])) < FirstIndex(s, Is(r[j]))
  }

  /** `Array.from(new Set(s))`: the values of `s`, each once, in order of first appearance. */
  function Distinct<T(==,!new)>(s: seq<T>): (r: seq<T>)
    ensures |r| <= |s|
    ensures forall x :: x in r <==> x in s
    ensures forall i, j :: 0 <= i < j < |r| ==> r[i] != r[j]
    ensures InFirstAppearanceOrder(r, s)
    decreases |s|
  {
    if |s| == 0 then []
    else
      var t := s[..|s| - 1];
      var x := s[|s| - 1];
      var d := Distinct(t);
      assert s == t + [x];
      assert forall i :: 0 <= i < |s| - 1 ==> s[i] == t[i];
      DistinctSnocOrder(t, x, d);
      if x in d then d else d + [x]
  }

  /** The order step of `Distinct`: a value seen before keeps its first index when the
      sequence grows, and a new value is first seen at the end, after all the others. */
  lemma DistinctSnocOrder<T>(t: seq<T>, x: T, d: seq<T>)
    requires forall y :: y in d <==> y in t
    requires InFirstAppearanceOrder(d, t)
    ensures InFirstAppearanceOrder(if x in d then d else d + [x], t + [x])
  {
    forall y | y in t ensures FirstIndex(t + [x], Is(y)) == FirstIndex(t, Is(y)) < |t| {
      FirstIndexSnoc(t, x, Is(y));
    }
    if x !in d {
      FirstIndexSnoc(t, x, Is(x));
      var r := d + [x];
      forall i, j | 0 <= i < j < |r| ensures FirstIndex(t + [x], Is(r[i])) < FirstIndex(t + [x], Is(r[j])) {
        assert r[i] == d[i] && r[i] in t;
        if j < |d| {
          assert r[j] == d[j] && r[j] in t;
        }
      }
    }
  }

  // ---------------------------------------------------------------- sort and slice

  /** Ascending by `key`. */
  predicate SortedBy<T>(s: seq<T>, key: T -> int) {
    forall i, j :: 0 <= i < j < |s| ==> key(s[i]) <= key(s[j])
  }

  /** Descending by `key`. */
  predicate SortedDescendingBy<T>(s: seq<T>, key: T -> int) {
    forall i, j :: 0 <= i < j < |s| ==> key(s[i]) >= key(s[j])
  }

  function Negated<T>(key: T -> int): T -> int {
    x => -key(x)
  }

  /** The predicate "has key `k`". */
  function KeyIs<T>(key: T -> int, k: int): T -> bool {
    x => key(x) == k
  }

  /** Filtering a sequence with a head is filtering the tail, with the head in front when it
      passes. */
  lemma FilterCons<T>(x: T, s: seq<T>, p: T -> bool)
    ensures Filter([x] + s, p) == (if p(x) then [x] else []) + Filter(s, p)
  {
    assert ([x] + s)[0] == x;
    assert ([x] + s)[1..] == s;
  }

  /** Filtering a concatenation is concatenating the filtered parts. */
  lemma {:induction false} FilterAppend<T>(a: seq<T>, b: seq<T>, p: T -> bool)
    ensures Filter(a + b, p) == Filter(a, p) + Filter(b, p)
    decreases |a|
  {
    if |a| == 0 {
      assert a + b == b;
    } else {
      var h, t := a[0], a[1..];
      var front := if p(h) then [h] else [];
      assert a == [h] + t;
      assert a + b == [h] + (t + b);
      calc {
        Filter(a + b, p);
        == { FilterCons(h, t + b, p); }
        front + Filter(t + b, p);
        == { FilterAppend(t, b, p); }
        front + (Filter(t, p) + Filter(b, p));
        == 
        (front + Filter(t, p)) + Filter(b, p);
        == { FilterCons(h, t, p); }
        Filter(a, p) + Filter(b, p);
      }
    }
  }

  /** Puts `x` before the first element whose key is not smaller, so that earlier
      elements stay ahead of later ones with the same key: among the elements with any one
      key, `x` comes first and the others keep their order. */
  function Insert<T>(x: T, s: seq<T>, key: T -> int): (r: seq<T>)
    requires SortedBy(s, key)
    ensures SortedBy(r, key)
    ensures multiset(r) == multiset(s) + multiset{x}
    ensures forall k :: Filter(r, KeyIs(key, k)) == (if key(x) == k then [x] else []) + Filter(s, KeyIs(key, k))
    decreases |s|
  {
    if |s| == 0 then
      FilterConsByKey(x, s, key);
      assert [x] + s == [x];
      [x]
    else if key(x) <= key(s[0]) then
      FilterConsByKey(x, s, key);
      [x] + s
    else
      var t := Insert(x, s[1..], key);
      assert s == [s[0]] + s[1..];
      LowerBoundKept(key(s[0]), x, s[1..], t, key);
      InsertBehindHead(x, s[0], s[1..], t, key);
      [s[0]] + t
  }

  /** `FilterCons` for every key at once. */
  lemma FilterConsByKey<T>(x: T, s: seq<T>, key: T -> int)
    ensures forall k :: Filter([x] + s, KeyIs(key, k)) == (if key(x) == k then [x] else []) + Filter(s, KeyIs(key, k))
  {
    forall k ensures Filter([x] + s, KeyIs(key, k)) == (if key(x) == k then [x] else []) + Filter(s, KeyIs(key, k)) {
      FilterCons(x, s, KeyIs(key, k));
    }
  }

  /** The step of `Insert` past a head with a smaller key: the head and `x` never share a
      key, so putting the head in front keeps each key's order. */
  lemma InsertBehindHead<T>(x: T, h: T, s: seq<T>, t: seq<T>, key: T -> int)
    requires key(h) < key(x)
    requires forall k :: Filter(t, KeyIs(key, k)) == (if key(x) == k then [x] else []) + Filter(s, KeyIs(key, k))
    ensures forall k :: Filter([h] + t, KeyIs(key, k)) == (if key(x) == k then [x] else []) + Filter([h] + s, KeyIs(key, k))
  {
    FilterConsByKey(h, t, key);
    FilterConsByKey(h, s, key);
  }

  /** A bound that holds for `x` and every element of `u` holds for every element of a
      sequence with their elements. */
  lemma LowerBoundKept<T>(lo: int, x: T, u: seq<T>, t: seq<T>, key: T -> int)
    requires lo <= key(x) && forall k :: 0 <= k < |u| ==> lo <= key(u[k])
    requires multiset(t) == multiset(u) + multiset{x}
    ensures forall k :: 0 <= k < |t| ==> lo <= key(t[k])
  {
    forall k | 0 <= k < |t| ensures lo <= key(t[k]) {
      assert t[k] in multiset(t);
      assert t[k] == x || t[k] in u;
    }
  }

  /** `s.sort((a, b) => key(a) - key(b))`, a stable sort (insertion sort as the reference):
      the elements with any one key keep their order. */
  function SortBy<T>(s: seq<T>, key: T -> int): (r: seq<T>)
    ensures SortedBy(r, key)
    ensures multiset(r) == multiset(s)
    ensures forall k :: Filter(r, KeyIs(key, k)) == Filter(s, KeyIs(key, k))
    decreases |s|
  {
    if |s| == 0 then []
    else
      assert s == [s[0]] + s[1..];
      FilterConsByKey(s[0], s[1..], key);
      Insert(s[0], SortBy(s[1..], key), key)
  }

  /** `s.sort((a, b) => key(b) - key(a))`: the stable sort by the negated key. */
  function SortDescendingBy<T>(s: seq<T>, key: T -> int): (r: seq<T>)
    ensures SortedDescendingBy(r, key)
    ensures multiset(r) == multiset(s)
    ensures forall k :: Filter(r, KeyIs(key, k)) == Filter(s, KeyIs(key, k))
  {
    var r := SortBy(s, Negated(key));
    assert forall i, j :: 0 <= i < j < |r| ==> -key(r[i]) <= -key(r[j]) by {
      assert forall i, j :: 0 <= i < j < |r| ==> Negated(key)(r[i]) <= Negated(key)(r[j]);
    }
    assert forall k :: Filter(r, KeyIs(key, k)) == Filter(s, KeyIs(key, k)) by {
      forall k ensures Filter(r, KeyIs(key, k)) == Filter(s, KeyIs(key, k)) {
        assert Filter(r, KeyIs(Negated(key), -k)) == Filter(s, KeyIs(Negated(key), -k));
        FilterSamePredicate(r, KeyIs(key, k), KeyIs(Negated(key), -k));
        FilterSamePredicate(s, KeyIs(key, k), KeyIs(Negated(key), -k));
      }
    }
    r
  }

  /** Two sequences with the same elements counted with multiplicity have the same members. */
  lemma SameMembers<T>(a: seq<T>, b: seq<T>)
    requires multiset(a) == multiset(b)
    ensures forall i :: 0 <= i < |a| ==> a[i] in b
    ensures forall i :: 0 <= i < |b| ==> b[i] in a
  {
    forall i | 0 <= i < |a| ensures a[i] in b {
      assert a[i] in multiset(a);
    }
    forall i | 0 <= i < |b| ensures b[i] in a {
      assert b[i] in multiset(b);
    }
  }

  /** `s.slice(0, n)`. */
  function Take<T>(s: seq<T>, n: nat): (r: seq<T>)
    ensures |r| == if n < |s| then n else |s|
    ensures r == s[..|r|]
  {
    if n < |s| then s[..n] else s
  }

  /** The first `n` elements of a descending sort are the `n` largest: nothing left out
      has a greater key than anything kept. */
  lemma TopOfDescending<T>(s: seq<T>, key: T -> int, n: nat)
    requires SortedDescendingBy(s, key)
    ensures forall i, j :: 0 <= i < |Take(s, n)| <= j < |s| ==> key(s[i]) >= key(s[j])
  {
  }

  /** What a cut keeps of the elements passing a filter is the first of them: filtering a
      prefix gives a prefix of the filtered whole. */
  lemma TakeFilterIsPrefix<T>(s: seq<T>, n: nat, p: T -> bool)
    ensures Filter(Take(s, n), p) <= Filter(s, p)
  {
    var t := Take(s, n);
    assert s == t + s[|t|..];
    FilterAppend(t, s[|t|..], p);
  }
}
