/** Sequence helpers shared by the components: the order-preserving filter that
    `Array.prototype.filter` performs, sublists, and `slice(0, n)`. */
module Seqs {

  /** `xs.filter(p)`: keeps, in order, the elements satisfying `p`. */
  function Filter<T(==,!new)>(p: T -> bool, s: seq<T>): (r: seq<T>)
    ensures |r| <= |s|
    ensures forall x :: x in r <==> x in s && p(x)
    ensures forall i :: 0 <= i < |r| ==> p(r[i])
    ensures multiset(r) <= multiset(s)
  {
    if s == [] then []
    else
      assert s == [s[0]] + s[1..];
      if p(s[0]) then [s[0]] + Filter(p, s[1..])
      else Filter(p, s[1..])
  }

  /** `a` is obtained from `b` by deleting elements, keeping the order of the rest. */
  predicate IsSubsequence<T(==)>(a: seq<T>, b: seq<T>)
  {
    if a == [] then true
    else if b == [] then false
    else if a[0] == b[0] then IsSubsequence(a[1..], b[1..])
    else IsSubsequence(a, b[1..])
  }

  lemma {:induction false} SubsequenceOfEmpty<T>(b: seq<T>)
    ensures IsSubsequence([], b)
  {
  }

  /** Every filter result is a sublist of its input, in the input's order. */
  lemma {:induction false} FilterIsSubsequence<T(!new)>(p: T -> bool, s: seq<T>)
    ensures IsSubsequence(Filter(p, s), s)
  {
    if s != [] {
      FilterIsSubsequence(p, s[1..]);
      if !p(s[0]) {
        SkipHead(Filter(p, s[1..]), s);
      }
    }
  }

  /** A sublist of the tail is a sublist of the whole. */
  lemma {:induction false} SkipHead<T(!new)>(a: seq<T>, b: seq<T>)
    requires b != []
    requires IsSubsequence(a, b[1..])
    ensures IsSubsequence(a, b)
    decreases |b|, 0
  {
    if a != [] && a[0] == b[0] {
      SubsequenceTail(a, b[1..]);
    }
  }

  /** Dropping the head of a sublist keeps it a sublist. */
  lemma {:induction false} SubsequenceTail<T(!new)>(a: seq<T>, b: seq<T>)
    requires a != []
    requires IsSubsequence(a, b)
    ensures IsSubsequence(a[1..], b)
    decreases |b|, 1
  {
    if a[0] == b[0] {
      SkipHead(a[1..], b);
    } else {
      SubsequenceTail(a, b[1..]);
      SkipHead(a[1..], b);
    }
  }

  /** When every element passes, the filter is the identity. */
  lemma {:induction false} FilterKeepsAll<T(!new)>(p: T -> bool, s: seq<T>)
    requires forall i :: 0 <= i < |s| ==> p(s[i])
    ensures Filter(p, s) == s
  {
    if s != [] {
      FilterKeepsAll(p, s[1..]);
    }
  }

  /** When no element passes, the filter is empty. */
  lemma {:induction false} FilterKeepsNone<T(!new)>(p: T -> bool, s: seq<T>)
    requires forall i :: 0 <= i < |s| ==> !p(s[i])
    ensures Filter(p, s) == []
  {
    if s != [] {
      FilterKeepsNone(p, s[1..]);
    }
  }

  /** Filtering distributes over concatenation. */
  lemma {:induction false} FilterAppend<T(!new)>(p: T -> bool, a: seq<T>, b: seq<T>)
    ensures Filter(p, a + b) == Filter(p, a) + Filter(p, b)
  {
    if a == [] {
      assert a + b == b;
    } else {
      assert (a + b)[1..] == a[1..] + b;
      FilterAppend(p, a[1..], b);
    }
  }

  /** A filter of two elements keeps each of them exactly when it passes, in order. */
  lemma FilterPair<T(!new)>(p: T -> bool, a: T, b: T)
    ensures Filter(p, [a, b]) == (if p(a) then [a] else []) + (if p(b) then [b] else [])
  {
    assert [a, b][1..] == [b];
    assert [b][1..] == [];
  }

  /** A prefix of a sublist is a sublist. */
  lemma {:induction false} PrefixIsSubsequence<T(!new)>(a: seq<T>, b: seq<T>, k: nat)
    requires k <= |a| && IsSubsequence(a, b)
    ensures IsSubsequence(a[..k], b)
    decreases |b|
  {
    if k > 0 {
      assert b != [];
      if a[0] == b[0] {
        PrefixIsSubsequence(a[1..], b[1..], k - 1);
        assert a[..k][1..] == a[1..][..k - 1];
      } else {
        PrefixIsSubsequence(a, b[1..], k);
      }
    }
  }

  /** An element that passes comes in the filter right after the passing elements before it. */
  lemma FilterPosition<T(!new)>(p: T -> bool, s: seq<T>, k: nat)
    requires k < |s| && p(s[k])
    ensures |Filter(p, s[..k])| < |Filter(p, s)|
    ensures Filter(p, s)[|Filter(p, s[..k])|] == s[k]
  {
    assert s == s[..k] + ([s[k]] + s[k + 1..]);
    FilterAppend(p, s[..k], [s[k]] + s[k + 1..]);
    FilterAppend(p, [s[k]], s[k + 1..]);
    assert [s[k]][1..] == [];
  }

  /** `s.filter(p).slice(0, n)` is a sublist of `s` that holds every passing element with
      fewer than `n` passing elements before it. */
  lemma TakeFilter<T(!new)>(p: T -> bool, s: seq<T>, n: nat)
    ensures IsSubsequence(Take(Filter(p, s), n), s)
    ensures forall k :: 0 <= k < |s| && p(s[k]) && |Filter(p, s[..k])| < n ==> s[k] in Take(Filter(p, s), n)
  {
    FilterIsSubsequence(p, s);
    PrefixIsSubsequence(Filter(p, s), s, |Take(Filter(p, s), n)|);
    forall k | 0 <= k < |s| && p(s[k]) && |Filter(p, s[..k])| < n
      ensures s[k] in Take(Filter(p, s), n)
    {
      FilterPosition(p, s, k);
    }
  }

  /** Two predicates that agree on the elements of `s` filter it alike. */
  lemma {:induction false} FilterCongruent<T(!new)>(p: T -> bool, q: T -> bool, s: seq<T>)
    requires forall i :: 0 <= i < |s| ==> p(s[i]) == q(s[i])
    ensures Filter(p, s) == Filter(q, s)
  {
    if s != [] {
      FilterCongruent(p, q, s[1..]);
    }
  }

  /** Filtering twice is filtering once by the conjunction. */
  lemma {:induction false} FilterTwice<T(!new)>(p: T -> bool, q: T -> bool, both: T -> bool, s: seq<T>)
    requires forall i :: 0 <= i < |s| ==> both(s[i]) == (p(s[i]) && q(s[i]))
    ensures Filter(q, Filter(p, s)) == Filter(both, s)
  {
    if s != [] {
      FilterTwice(p, q, both, s[1..]);
      if p(s[0]) {
        assert Filter(p, s) == [s[0]] + Filter(p, s[1..]);
        assert ([s[0]] + Filter(p, s[1..]))[1..] == Filter(p, s[1..]);
      }
    }
  }

  /** `(y) => y !== x`. */
  function Differs<T(==)>(x: T): T -> bool
  {
    y => y != x
  }

  /** Removing a value just appended to a list without it gives the list back. */
  lemma RemoveAppended<T(!new)>(s: seq<T>, x: T)
    requires x !in s
    ensures Filter(Differs(x), s + [x]) == s
  {
    FilterAppend(Differs(x), s, [x]);
    FilterKeepsAll(Differs(x), s);
    assert Filter(Differs(x), [x]) == [];
  }

  /** No value occurs twice. */
  predicate NoDuplicates<T(==)>(s: seq<T>)
  {
    forall i, j :: 0 <= i < j < |s| ==> s[i] != s[j]
  }

  lemma {:induction false} NoDuplicatesTail<T(!new)>(s: seq<T>)
    requires s != [] && NoDuplicates(s)
    ensures NoDuplicates(s[1..]) && s[0] !in s[1..]
  {
    forall j | 0 <= j < |s[1..]|
      ensures s[1..][j] != s[0]
    {
      assert s[1..][j] == s[j + 1];
    }
  }

  /** A filter of a duplicate-free list is duplicate-free. */
  lemma {:induction false} FilterNoDuplicates<T(!new)>(p: T -> bool, s: seq<T>)
    requires NoDuplicates(s)
    ensures NoDuplicates(Filter(p, s))
  {
    if s != [] {
      NoDuplicatesTail(s);
      FilterNoDuplicates(p, s[1..]);
      var rest := Filter(p, s[1..]);
      if p(s[0]) {
        assert s[0] !in rest;
        var r := [s[0]] + rest;
        forall i, j | 0 <= i < j < |r| ensures r[i] != r[j] {
          if i == 0 {
            assert r[j] == rest[j - 1];
            assert r[j] in rest;
          } else {
            assert r[i] == rest[i - 1] && r[j] == rest[j - 1];
          }
        }
      }
    }
  }

  /** The elements of `s` ascend by `key`, as `order('…', { ascending: true })` returns them. */
  predicate SortedBy<T>(key: T -> int, s: seq<T>)
  {
    forall i, j :: 0 <= i < j < |s| ==> key(s[i]) <= key(s[j])
  }

  lemma {:induction false} SortedTail<T>(key: T -> int, s: seq<T>)
    requires s != [] && SortedBy(key, s)
    ensures SortedBy(key, s[1..])
    ensures forall k :: 0 <= k < |s[1..]| ==> key(s[0]) <= key(s[1..][k])
  {
    forall i, j | 0 <= i < j < |s[1..]| ensures key(s[1..][i]) <= key(s[1..][j]) {
      assert s[1..][i] == s[i + 1] && s[1..][j] == s[j + 1];
    }
    forall k | 0 <= k < |s[1..]| ensures key(s[0]) <= key(s[1..][k]) {
      assert s[1..][k] == s[k + 1];
    }
  }

  /** A lower bound on the keys of a list bounds the keys of its filter. */
  lemma BoundSurvivesFilter<T(!new)>(p: T -> bool, key: T -> int, s: seq<T>, bound: int)
    requires forall k :: 0 <= k < |s| ==> bound <= key(s[k])
    ensures forall j :: 0 <= j < |Filter(p, s)| ==> bound <= key(Filter(p, s)[j])
  {
    var r := Filter(p, s);
    forall j | 0 <= j < |r| ensures bound <= key(r[j]) {
      assert r[j] in r;
      var k :| 0 <= k < |s| && s[k] == r[j];
    }
  }

  /** Filtering a sorted list yields a sorted list. */
  lemma {:induction false} FilterKeepsSorted<T(!new)>(p: T -> bool, key: T -> int, s: seq<T>)
    requires SortedBy(key, s)
    ensures SortedBy(key, Filter(p, s))
  {
    if s != [] {
      SortedTail(key, s);
      FilterKeepsSorted(p, key, s[1..]);
      if p(s[0]) {
        BoundSurvivesFilter(p, key, s[1..], key(s[0]));
        SortedCons(key, s[0], Filter(p, s[1..]));
      }
    }
  }

  /** A head no larger than every key of a sorted tail keeps the list sorted. */
  lemma SortedCons<T>(key: T -> int, x: T, rest: seq<T>)
    requires SortedBy(key, rest)
    requires forall k :: 0 <= k < |rest| ==> key(x) <= key(rest[k])
    ensures SortedBy(key, [x] + rest)
  {
    var r := [x] + rest;
    forall i, j | 0 <= i < j < |r| ensures key(r[i]) <= key(r[j]) {
      assert r[j] == rest[j - 1];
      if i > 0 {
        assert r[i] == rest[i - 1];
      }
    }
  }

  /** `copy.splice(index, 1)` on a copy of `s`: a negative index counts from the end
      (clamped to 0), an index past the end removes nothing. */
  function SpliceOut<T>(s: seq<T>, index: int): (r: seq<T>)
    ensures index >= |s| ==> r == s
    ensures s != [] && index < |s| ==> |r| == |s| - 1
  {
    var start := if index < 0 then (if |s| + index < 0 then 0 else |s| + index)
                 else if index < |s| then index else |s|;
    if start < |s| then s[..start] + s[start + 1..] else s
  }

  /** Removing at a valid index deletes exactly that element; the others keep their order. */
  lemma SpliceOutAt<T>(s: seq<T>, i: int)
    requires 0 <= i < |s|
    ensures |SpliceOut(s, i)| == |s| - 1
    ensures forall j :: 0 <= j < i ==> SpliceOut(s, i)[j] == s[j]
    ensures forall j :: i <= j < |s| - 1 ==> SpliceOut(s, i)[j] == s[j + 1]
    ensures multiset(SpliceOut(s, i)) + multiset{s[i]} == multiset(s)
  {
    assert s == s[..i] + [s[i]] + s[i + 1..];
  }

  /** A negative index removes the element that many places from the end. */
  lemma SpliceOutFromEnd<T>(s: seq<T>, i: int)
    requires 1 <= i <= |s|
    ensures SpliceOut(s, -i) == SpliceOut(s, |s| - i)
  {
  }

  /** `s.filter((_, i) => i !== index)`: drops the element at position `index`, if any. */
  function WithoutIndex<T>(s: seq<T>, index: int): (r: seq<T>)
    ensures !(0 <= index < |s|) ==> r == s
    ensures 0 <= index < |s| ==> r == s[..index] + s[index + 1..]
    decreases |s|
  {
    if s == [] then []
    else
      var rest := WithoutIndex(s[1..], index - 1);
      assert 0 < index < |s| ==> s[1..][..index - 1] + s[1..][index..] == s[1..index] + s[index + 1..];
      (if index == 0 then [] else [s[0]]) + rest
  }

  /** Within bounds, the filter by position and `splice(index, 1)` remove the same element;
      a negative index is where they part: the filter keeps everything. */
  lemma WithoutIndexIsSpliceOut<T>(s: seq<T>, index: int)
    ensures 0 <= index < |s| ==> WithoutIndex(s, index) == SpliceOut(s, index)
    ensures index < 0 ==> WithoutIndex(s, index) == s
    ensures index < 0 && s != [] ==> |SpliceOut(s, index)| == |s| - 1
  {
  }

  /** Concatenation regroups freely. */
  lemma Regroup<T>(a: seq<T>, b: seq<T>, c: seq<T>)
    ensures a + b + c == a + (b + c)
  {
  }

  /** `s.slice(0, n)`. */
  function Take<T>(s: seq<T>, n: nat): (r: seq<T>)
    ensures |r| <= n && |r| <= |s|
    ensures |s| <= n ==> r == s
    ensures |s| > n ==> |r| == n
    ensures r == s[..|r|]
  {
    if |s| <= n then s else s[..n]
  }
}
