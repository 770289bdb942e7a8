/** The array built-ins the record managers are made of: `filter`, `slice(0, n)`,
    `reduce` into a sum, and `sort` with a numeric comparator (stable, as
    ECMAScript 2019 requires). */
module Seqs {

  /** `s.filter(p)`: the elements of `s` that satisfy `p`, in their order. */
  function Filter<T>(s: seq<T>, p: T -> bool): (r: seq<T>)
    ensures |r| <= |s|
    ensures forall i :: 0 <= i < |r| ==> p(r[i])
  {
    if s == [] then []
    else if p(s[0]) then [s[0]] + Filter(s[1..], p)
    else Filter(s[1..], p)
  }

  /** `a` can be obtained from `b` by deleting elements (order is kept). */
  ghost predicate SubsequenceOf<T>(a: seq<T>, b: seq<T>)
    decreases |b|
  {
    if a == [] then true
    else if b == [] then false
    else if a[0] == b[0] then SubsequenceOf(a[1..], b[1..])
    else SubsequenceOf(a, b[1..])
  }

  lemma {:induction false} FilterMembership<T>(s: seq<T>, p: T -> bool, x: T)
    ensures x in Filter(s, p) <==> x in s && p(x)
  {
    if s != [] {
      FilterMembership(s[1..], p, x);
      assert s == [s[0]] + s[1..];
    }
  }

  lemma {:induction false} FilterIsSubsequence<T>(s: seq<T>, p: T -> bool)
    ensures SubsequenceOf(Filter(s, p), s)
  {
    if s != [] {
      FilterIsSubsequence(s[1..], p);
      var r := Filter(s[1..], p);
      if p(s[0]) {
        assert ([s[0]] + r)[1..] == r;
      } else {
        SubsequenceOfCons(r, s);
      }
    }
  }

  /** Dropping the head of `b` keeps `a` a subsequence when `a` already was one
      of the tail. */
  lemma {:induction false} SubsequenceOfCons<T>(a: seq<T>, b: seq<T>)
    requires b != [] && SubsequenceOf(a, b[1..])
    ensures SubsequenceOf(a, b)
    decreases |b|, 0
  {
    if a != [] && a[0] == b[0] {
      // a[0] == b[0]: the tail of a is a subsequence of the tail of a's witness
      SubsequenceDropHead(a, b[1..]);
    }
  }

  lemma {:induction false} SubsequenceDropHead<T>(a: seq<T>, b: seq<T>)
    requires a != [] && SubsequenceOf(a, b)
    ensures SubsequenceOf(a[1..], b)
    decreases |b|, 1
  {
    if b != [] {
      if a[0] == b[0] {
        SubsequenceOfCons(a[1..], b);
      } else {
        SubsequenceDropHead(a, b[1..]);
        SubsequenceOfCons(a[1..], b);
      }
    }
  }

  lemma {:induction false} SubsequenceOfSelf<T>(s: seq<T>)
    ensures SubsequenceOf(s, s)
  {
    if s != [] {
      SubsequenceOfSelf(s[1..]);
    }
  }

  /** A prefix of a subsequence of `b` is still a subsequence of `b`. */
  lemma {:induction false} PrefixOfSubsequence<T>(a: seq<T>, b: seq<T>, n: nat)
    requires SubsequenceOf(a, b) && n <= |a|
    ensures SubsequenceOf(a[..n], b)
    decreases |b|
  {
    if n > 0 {
      if a[0] == b[0] {
        PrefixOfSubsequence(a[1..], b[1..], n - 1);
        assert a[..n][1..] == a[1..][..n - 1];
      } else {
        PrefixOfSubsequence(a, b[1..], n);
      }
    }
  }

  /** Nothing passes a filter no element satisfies. */
  lemma {:induction false} FilterNone<T>(s: seq<T>, p: T -> bool)
    requires forall i :: 0 <= i < |s| ==> !p(s[i])
    ensures Filter(s, p) == []
  {
    if s != [] {
      assert forall i :: 0 <= i < |s[1..]| ==> s[1..][i] == s[i + 1];
      FilterNone(s[1..], p);
    }
  }

  /** Filtering by `p` and then by `q` is filtering by any `r` that holds
      exactly when both do. */
  lemma {:induction false} FilterThenFilter<T>(s: seq<T>, p: T -> bool, q: T -> bool, r: T -> bool)
    requires forall x :: r(x) == (p(x) && q(x))
    ensures Filter(Filter(s, p), q) == Filter(s, r)
  {
    if s != [] {
      FilterThenFilter(s[1..], p, q, r);
    }
  }

  /** A filter every element passes keeps the whole sequence. */
  lemma {:induction false} FilterKeepsAll<T>(s: seq<T>, p: T -> bool)
    requires forall i :: 0 <= i < |s| ==> p(s[i])
    ensures Filter(s, p) == s
  {
    if s != [] {
      assert forall i :: 0 <= i < |s[1..]| ==> s[1..][i] == s[i + 1];
      FilterKeepsAll(s[1..], p);
    }
  }

  /** Filtering distributes over concatenation. */
  lemma {:induction false} FilterAppend<T>(a: seq<T>, b: seq<T>, p: T -> bool)
    ensures Filter(a + b, p) == Filter(a, p) + Filter(b, p)
  {
    if a != [] {
      FilterAppend(a[1..], b, p);
      assert (a + b)[1..] == a[1..] + b;
    } else {
      assert a + b == b;
    }
  }

  /** How many elements of `s` satisfy `p`. */
  function Count<T>(s: seq<T>, p: T -> bool): nat {
    |Filter(s, p)|
  }

  /** Each element falls on exactly one side of a predicate. */
  lemma {:induction false} CountSplit<T>(s: seq<T>, p: T -> bool)
    ensures Count(s, p) + Count(s, x => !p(x)) == |s|
  {
    if s != [] {
      CountSplit(s[1..], p);
    }
  }

  /** Two predicates no element satisfies together count at most `|s|`
      between them. */
  lemma {:induction false} CountDisjoint<T>(s: seq<T>, p: T -> bool, q: T -> bool)
    requires forall i :: 0 <= i < |s| ==> !(p(s[i]) && q(s[i]))
    ensures Count(s, p) + Count(s, q) <= |s|
  {
    if s != [] {
      assert forall i :: 0 <= i < |s[1..]| ==> s[1..][i] == s[i + 1];
      CountDisjoint(s[1..], p, q);
    }
  }

  /** Appending one element adds one to the count when it satisfies `p`. */
  lemma {:induction false} CountSnoc<T>(s: seq<T>, x: T, p: T -> bool)
    ensures Count(s + [x], p) == Count(s, p) + (if p(x) then 1 else 0)
  {
    if s == [] {
      assert s + [x] == [x];
    } else {
      CountSnoc(s[1..], x, p);
      assert (s + [x])[1..] == s[1..] + [x];
    }
  }

  /** `s.slice(0, limit)` for an integer `limit`; a negative limit counts from
      the end, as in JavaScript. */
  function SliceTo<T>(s: seq<T>, limit: int): (r: seq<T>)
    ensures limit >= 0 ==> |r| == if limit < |s| then limit else |s|
    ensures limit < 0 ==> |r| == if |s| + limit > 0 then |s| + limit else 0
    ensures |r| <= |s| && r == s[..|r|]
  {
    if limit >= 0 then (if limit < |s| then s[..limit] else s)
    else if |s| + limit > 0 then s[..|s| + limit]
    else []
  }

  /** The index `s.slice` makes of an argument: a negative one counts from
      the end, and both are clamped to `[0, n]`. */
  function SliceIndex(n: nat, x: int): (r: nat)
    ensures r <= n
    ensures 0 <= x <= n ==> r == x
  {
    if x < 0 then (if n + x > 0 then n + x else 0) else if x < n then x else n
  }

  /** `s.slice(start, end)`. */
  function Slice<T>(s: seq<T>, start: int, end: int): (r: seq<T>)
    ensures |r| <= |s|
    ensures 0 <= start <= |s| && start <= end ==>
      |r| == (if end < |s| then end else |s|) - start
      && forall i :: 0 <= i < |r| ==> r[i] == s[start + i]
    ensures start >= |s| ==> r == []
  {
    var from := SliceIndex(|s|, start);
    var to := SliceIndex(|s|, end);
    if from < to then s[from..to] else []
  }

  /** `s.reduce((sum, x) => sum + f(x), 0)`, accumulated from the left. */
  function Sum<T>(s: seq<T>, f: T -> real): real
    decreases |s|
  {
    if s == [] then 0.0 else Sum(s[..|s| - 1], f) + f(s[|s| - 1])
  }

  lemma {:induction false} SumAppend<T>(a: seq<T>, b: seq<T>, f: T -> real)
    ensures Sum(a + b, f) == Sum(a, f) + Sum(b, f)
    decreases |b|
  {
    if b != [] {
      var ab := a + b;
      assert ab[..|ab| - 1] == a + b[..|b| - 1];
      assert ab[|ab| - 1] == b[|b| - 1];
      SumAppend(a, b[..|b| - 1], f);
      calc {
        Sum(ab, f);
        Sum(ab[..|ab| - 1], f) + f(ab[|ab| - 1]);
        Sum(a + b[..|b| - 1], f) + f(b[|b| - 1]);
        Sum(a, f) + Sum(b[..|b| - 1], f) + f(b[|b| - 1]);
        Sum(a, f) + Sum(b, f);
      }
    } else {
      assert a + b == a;
    }
  }

  lemma {:induction false} SumCons<T>(x: T, s: seq<T>, f: T -> real)
    ensures Sum([x] + s, f) == f(x) + Sum(s, f)
  {
    SumAppend([x], s, f);
    assert [x][..0] == [];
  }

  /** A sum of terms each between 0 and a bound. */
  lemma {:induction false} SumNonNegative<T>(s: seq<T>, f: T -> real)
    requires forall i :: 0 <= i < |s| ==> f(s[i]) >= 0.0
    ensures Sum(s, f) >= 0.0
    decreases |s|
  {
    if s != [] {
      SumNonNegative(s[..|s| - 1], f);
    }
  }

  /** Non-increasing by `key`. */
  ghost predicate SortedDesc<T>(s: seq<T>, key: T -> real) {
    forall i, j :: 0 <= i < j < |s| ==> key(s[i]) >= key(s[j])
  }

  /** Inserts `x` before the first element whose key is not larger; used by
      the sort below, where `x` comes from earlier in the input than every
      element of `r`, so equal keys keep their input order. */
  function Insert<T>(x: T, r: seq<T>, key: T -> real): (o: seq<T>)
    ensures |o| == |r| + 1
    ensures multiset(o) == multiset(r) + multiset{x}
  {
    if r == [] || key(r[0]) <= key(x) then [x] + r
    else
      assert r == [r[0]] + r[1..];
      [r[0]] + Insert(x, r[1..], key)
  }

  /** `s.sort((a, b) => key(b) - key(a))`: a stable sort, largest key first. */
  function SortDesc<T>(s: seq<T>, key: T -> real): (o: seq<T>)
    ensures |o| == |s|
    ensures multiset(o) == multiset(s)
  {
    if s == [] then []
    else
      assert s == [s[0]] + s[1..];
      Insert(s[0], SortDesc(s[1..], key), key)
  }

  lemma {:induction false} InsertSorted<T>(x: T, r: seq<T>, key: T -> real)
    requires SortedDesc(r, key)
    ensures SortedDesc(Insert(x, r, key), key)
  {
    if r == [] || key(r[0]) <= key(x) {
    } else {
      InsertSorted(x, r[1..], key);
      var t := Insert(x, r[1..], key);
      forall k | 0 <= k < |t| ensures key(t[k]) <= key(r[0]) {
        assert t[k] in multiset(t);
        assert t[k] == x || t[k] in multiset(r[1..]);
        if t[k] != x {
          var m :| 0 <= m < |r[1..]| && r[1..][m] == t[k];
          assert r[m + 1] == t[k];
        }
      }
    }
  }

  /** The sort's result is ordered, largest key first. */
  lemma {:induction false} SortDescSorted<T>(s: seq<T>, key: T -> real)
    ensures SortedDesc(SortDesc(s, key), key)
  {
    if s != [] {
      SortDescSorted(s[1..], key);
      InsertSorted(s[0], SortDesc(s[1..], key), key);
    }
  }

  /** Every prefix of a sorted sequence is sorted: `slice(0, n)` after `sort`. */
  lemma SliceSorted<T>(s: seq<T>, key: T -> real, limit: int)
    requires SortedDesc(s, key)
    ensures SortedDesc(SliceTo(s, limit), key)
  {
  }

  /** `s.filter(keep).sort((a, b) => key(b) - key(a)).slice(0, limit)`: the
      ranking queries of the record managers. */
  function TopBy<T>(s: seq<T>, keep: T -> bool, key: T -> real, limit: int): (r: seq<T>)
    ensures limit >= 0 ==> |r| <= limit
    ensures |r| <= |s|
    ensures forall i :: 0 <= i < |r| ==> keep(r[i])
    ensures SortedDesc(r, key)
    ensures forall x :: x in r ==> x in s
  {
    var kept := Filter(s, keep);
    var sorted := SortDesc(kept, key);
    SortDescSorted(kept, key);
    SliceSorted(sorted, key, limit);
    var r := SliceTo(sorted, limit);
    assert forall x :: x in r ==> x in sorted;
    assert forall x :: x in sorted ==> x in multiset(kept);
    assert forall i :: 0 <= i < |r| ==> r[i] in multiset(kept);
    FilterAll(s, keep);
    r
  }

  /** `TopBy` selects as many elements as are kept, up to `limit`. */
  lemma TopBySize<T>(s: seq<T>, keep: T -> bool, key: T -> real, limit: int)
    requires limit >= 0
    ensures |TopBy(s, keep, key, limit)| == if limit < |Filter(s, keep)| then limit else |Filter(s, keep)|
  {
    assert TopBy(s, keep, key, limit) == SliceTo(SortDesc(Filter(s, keep), key), limit);
  }

  /** Every element `TopBy` selects is a kept one, selected no more often
      than it is kept. */
  lemma TopByDrawnFromKept<T>(s: seq<T>, keep: T -> bool, key: T -> real, limit: int)
    ensures multiset(TopBy(s, keep, key, limit)) <= multiset(Filter(s, keep))
  {
    var sorted := SortDesc(Filter(s, keep), key);
    var r := TopBy(s, keep, key, limit);
    assert r == SliceTo(sorted, limit);
    PrefixMultiset(sorted, |r|);
  }

  /** No kept element that `TopBy` leaves out ranks above one it selects. */
  lemma TopByLeavesOutLower<T>(s: seq<T>, keep: T -> bool, key: T -> real, limit: int)
    ensures var r := TopBy(s, keep, key, limit);
            forall x, i :: x in s && keep(x) && x !in r && 0 <= i < |r| ==> key(x) <= key(r[i])
  {
    var sorted := SortDesc(Filter(s, keep), key);
    var r := TopBy(s, keep, key, limit);
    assert r == SliceTo(sorted, limit) == sorted[..|r|];
    SortDescSorted(Filter(s, keep), key);
    forall x, i | x in s && keep(x) && x !in r && 0 <= i < |r| ensures key(x) <= key(r[i]) {
      FilterMembership(s, keep, x);
      assert x in multiset(sorted);
      LeftOutRanksLower(sorted, key, |r|, x);
      assert r[i] == sorted[i];
    }
  }

  lemma PrefixMultiset<T>(s: seq<T>, n: nat)
    requires n <= |s|
    ensures multiset(s[..n]) <= multiset(s)
  {
    assert s == s[..n] + s[n..];
  }

  /** An element of a sorted sequence that is not in its first `n` ranks no
      higher than any of them. */
  lemma LeftOutRanksLower<T>(sorted: seq<T>, key: T -> real, n: nat, x: T)
    requires SortedDesc(sorted, key) && n <= |sorted| && x in sorted && x !in sorted[..n]
    ensures forall i :: 0 <= i < n ==> key(x) <= key(sorted[i])
  {
  }

  lemma {:induction false} FilterAll<T>(s: seq<T>, p: T -> bool)
    ensures forall x :: x in Filter(s, p) ==> x in s && p(x)
  {
    forall x | x in Filter(s, p) ensures x in s && p(x) {
      FilterMembership(s, p, x);
    }
  }

  /** Exactly the elements of `s` that satisfy `p` pass the filter. */
  lemma FilterExactly<T>(s: seq<T>, p: T -> bool)
    ensures forall x :: x in Filter(s, p) <==> x in s && p(x)
  {
    forall x {
      FilterMembership(s, p, x);
    }
  }

  /** `(all ? s : s.filter(p)).slice(0, limit)`: the history queries with a
      type filter where `'all'` means no filter. */
  function FilterSlice<T>(s: seq<T>, all: bool, p: T -> bool, limit: int): (r: seq<T>)
    ensures limit >= 0 ==> |r| <= limit
    ensures forall i :: 0 <= i < |r| ==> all || p(r[i])
    ensures SubsequenceOf(r, s)
    ensures var matches := if all then s else Filter(s, p);
            |r| <= |matches| && r == matches[..|r|] && (limit >= 0 ==> |r| == if limit < |matches| then limit else |matches|)
  {
    var filtered := if all then s else Filter(s, p);
    assert SubsequenceOf(filtered, s) by {
      if all {
        SubsequenceOfSelf(s);
      } else {
        FilterIsSubsequence(s, p);
      }
    }
    var r := SliceTo(filtered, limit);
    PrefixOfSubsequence(filtered, s, |r|);
    r
  }

  /** Counts per key in the order keys are first met, as a JavaScript object
      used as a counter (`if (!o[k]) o[k] = 0; o[k]++`) enumerates them. */
  type Tally<K> = seq<(K, nat)>

  function Bump<K(==,!new)>(t: Tally<K>, k: K): (r: Tally<K>)
    ensures TallyTotal(r) == TallyTotal(t) + 1
    ensures CountOf(r, k) == CountOf(t, k) + 1
    ensures forall k' :: k' != k ==> CountOf(r, k') == CountOf(t, k')
  {
    if t == [] then [(k, 1)]
    else if t[0].0 == k then [(k, t[0].1 + 1)] + t[1..]
    else [t[0]] + Bump(t[1..], k)
  }

  function TallyTotal<K>(t: Tally<K>): nat {
    if t == [] then 0 else t[0].1 + TallyTotal(t[1..])
  }

  /** `o[k] || 0`; the first entry for a key is the one that counts. */
  function CountOf<K(==)>(t: Tally<K>, k: K): nat {
    if t == [] then 0 else if t[0].0 == k then t[0].1 else CountOf(t[1..], k)
  }

  /** The counter after visiting `s` in order, counting `key(x)` for each. */
  function TallyBy<T, K(==,!new)>(s: seq<T>, key: T -> K): Tally<K>
    decreases |s|
  {
    if s == [] then [] else Bump(TallyBy(s[..|s| - 1], key), key(s[|s| - 1]))
  }

  /** The counts add up to the number of elements, and each is the number
      of elements with that key. */
  lemma {:induction false} TallyCounts<T, K(!new)>(s: seq<T>, key: T -> K, k: K)
    ensures TallyTotal(TallyBy(s, key)) == |s|
    ensures CountOf(TallyBy(s, key), k) == Count(s, x => key(x) == k)
    decreases |s|
  {
    if s != [] {
      var init := s[..|s| - 1];
      TallyCounts(init, key, k);
      CountSnoc(init, s[|s| - 1], x => key(x) == k);
      assert init + [s[|s| - 1]] == s;
    }
  }

  /** `Sum` over the left-to-right accumulation of a loop. */
  lemma SumSnoc<T>(s: seq<T>, x: T, f: T -> real)
    ensures Sum(s + [x], f) == Sum(s, f) + f(x)
  {
    assert (s + [x])[..|s|] == s;
  }

  /** Inserting an element adds its term to the sum. */
  lemma {:induction false} SumInsert<T>(x: T, r: seq<T>, key: T -> real, f: T -> real)
    ensures Sum(Insert(x, r, key), f) == f(x) + Sum(r, f)
  {
    if r == [] || key(r[0]) <= key(x) {
      SumCons(x, r, f);
    } else {
      SumInsert(x, r[1..], key, f);
      SumCons(r[0], Insert(x, r[1..], key), f);
      SumCons(r[0], r[1..], f);
      assert [r[0]] + r[1..] == r;
    }
  }

  /** Sorting leaves a sum unchanged. */
  lemma {:induction false} SumSortDesc<T>(s: seq<T>, key: T -> real, f: T -> real)
    ensures Sum(SortDesc(s, key), f) == Sum(s, f)
  {
    if s != [] {
      var tail := s[1..];
      var sortedTail := SortDesc(tail, key);
      assert SortDesc(s, key) == Insert(s[0], sortedTail, key);
      SumSortDesc(tail, key, f);
      SumInsert(s[0], sortedTail, key, f);
      SumCons(s[0], tail, f);
      assert [s[0]] + tail == s;
    }
  }
}
