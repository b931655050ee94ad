/** Sequence operations the screens use on fetched rows: `Array.prototype.filter`,
    `reduce` into a sum, `[...new Set(xs)]`, the stable `sort` of ES2019 and
    `slice(0, n)`. */
module Seqs {

  /** r is s with some elements deleted and the rest kept in their order. */
  ghost predicate IsSubsequence<T(!new)>(r: seq<T>, s: seq<T>)
    decreases |s|
  {
    if r == [] then true
    else if s == [] then false
    else (r[0] == s[0] && IsSubsequence(r[1..], s[1..])) || IsSubsequence(r, s[1..])
  }

  /** No value occurs twice. */
  ghost predicate NoDuplicates<T(!new)>(s: seq<T>) {
    forall i, j :: 0 <= i < j < |s| ==> s[i] != s[j]
  }

  /** `s.filter(p)`: the elements satisfying p, in order, each as often as in s.
      With FilterCounts and FilterIsSubsequence this determines the result uniquely. */
  function Filter<T(!new)>(s: seq<T>, p: T -> bool): (r: seq<T>)
    ensures |r| <= |s|
    ensures forall x :: x in r <==> x in s && p(x)
  {
    if s == [] then []
    else if p(s[0]) then [s[0]] + Filter(s[1..], p) else Filter(s[1..], p)
  }

  /** Every selected value is kept as often as it occurs in s. */
  lemma {:induction false} FilterCounts<T(!new)>(s: seq<T>, p: T -> bool)
    ensures forall x | p(x) :: multiset(Filter(s, p))[x] == multiset(s)[x]
  {
    if s != [] {
      FilterCounts(s[1..], p);
      assert s == [s[0]] + s[1..];
    }
  }

  /** The kept values stay in their order in s. */
  lemma {:induction false} FilterIsSubsequence<T(!new)>(s: seq<T>, p: T -> bool)
    ensures IsSubsequence(Filter(s, p), s)
  {
    if s != [] {
      FilterIsSubsequence(s[1..], p);
      var r := Filter(s, p);
      if p(s[0]) {
        assert r[0] == s[0] && r[1..] == Filter(s[1..], p);
      }
    }
  }

  /** Filtering a sequence that starts with a. */
  lemma FilterCons<T(!new)>(a: T, b: seq<T>, p: T -> bool)
    ensures Filter([a] + b, p) == if p(a) then [a] + Filter(b, p) else Filter(b, p)
  {
    assert ([a] + b)[0] == a;
    assert ([a] + b)[1..] == b;
  }

  lemma {:induction false} FilterAppend<T(!new)>(a: seq<T>, b: seq<T>, p: T -> bool)
    ensures Filter(a + b, p) == Filter(a, p) + Filter(b, p)
  {
    if a == [] {
      assert a + b == b;
    } else {
      assert (a + b)[0] == a[0];
      assert (a + b)[1..] == a[1..] + b;
      FilterAppend(a[1..], b, p);
    }
  }

  /** Filtering a prefix gives a prefix of the filtered sequence. */
  lemma FilterPrefix<T(!new)>(s: seq<T>, k: nat, p: T -> bool)
    requires k <= |s|
    ensures Filter(s[..k], p) <= Filter(s, p)
  {
    assert s == s[..k] + s[k..];
    FilterAppend(s[..k], s[k..], p);
  }

  /** A filter whose predicate holds everywhere keeps the whole sequence. */
  lemma {:induction false} FilterKeepsAll<T(!new)>(s: seq<T>, p: T -> bool)
    requires forall x :: x in s ==> p(x)
    ensures Filter(s, p) == s
  {
    if s != [] {
      FilterKeepsAll(s[1..], p);
    }
  }

  /** Two predicates that agree on s select the same elements. */
  lemma {:induction false} FilterCongruent<T(!new)>(s: seq<T>, p: T -> bool, q: T -> bool)
    requires forall x :: x in s ==> p(x) == q(x)
    ensures Filter(s, p) == Filter(s, q)
  {
    if s != [] {
      FilterCongruent(s[1..], p, q);
    }
  }

  /** A stronger predicate selects no more elements. */
  /** A value that fails the test makes the filtered sequence strictly shorter. */
  lemma {:induction false} FilterDropsFailing<T(!new)>(s: seq<T>, p: T -> bool, x: T)
    requires x in s && !p(x)
    ensures |Filter(s, p)| < |s|
  {
    if s[0] != x {
      FilterDropsFailing(s[1..], p, x);
    }
  }

  /** The filter drops nothing exactly when every value passes, and keeps nothing exactly
      when none does. */
  lemma FilterLengthExtremes<T(!new)>(s: seq<T>, p: T -> bool)
    ensures |Filter(s, p)| == |s| <==> forall x | x in s :: p(x)
    ensures |Filter(s, p)| == 0 <==> forall x | x in s :: !p(x)
  {
    var r := Filter(s, p);
    if forall x | x in s :: p(x) {
      FilterKeepsAll(s, p);
    } else {
      var x :| x in s && !p(x);
      FilterDropsFailing(s, p, x);
    }
    if r != [] {
      assert r[0] in r;
    }
  }

  lemma {:induction false} FilterStrongerIsShorter<T(!new)>(s: seq<T>, p: T -> bool, q: T -> bool)
    requires forall x :: x in s && p(x) ==> q(x)
    ensures |Filter(s, p)| <= |Filter(s, q)|
  {
    if s != [] {
      FilterStrongerIsShorter(s[1..], p, q);
    }
  }

  /** `s.reduce((sum, x) => sum + f(x), 0)`. */
  function SumBy<T(!new)>(s: seq<T>, f: T -> int): int {
    if s == [] then 0 else f(s[0]) + SumBy(s[1..], f)
  }

  lemma {:induction false} SumByAppend<T(!new)>(a: seq<T>, b: seq<T>, f: T -> int)
    ensures SumBy(a + b, f) == SumBy(a, f) + SumBy(b, f)
  {
    if a == [] {
      assert a + b == b;
    } else {
      assert (a + b)[0] == a[0];
      assert (a + b)[1..] == a[1..] + b;
      SumByAppend(a[1..], b, f);
    }
  }

  /** Summands that agree on the elements give the same sum. */
  lemma {:induction false} SumByCongruent<T(!new)>(s: seq<T>, f: T -> int, g: T -> int)
    requires forall x :: x in s ==> f(x) == g(x)
    ensures SumBy(s, f) == SumBy(s, g)
  {
    if s != [] {
      SumByCongruent(s[1..], f, g);
    }
  }

  /** Summing over a stronger filter gives no more, when the summand is never negative. */
  lemma {:induction false} SumByStrongerFilter<T(!new)>(s: seq<T>, p: T -> bool, q: T -> bool, f: T -> int)
    requires forall x :: x in s && p(x) ==> q(x)
    requires forall x :: x in s ==> f(x) >= 0
    ensures SumBy(Filter(s, p), f) <= SumBy(Filter(s, q), f)
  {
    if s != [] {
      SumByStrongerFilter(s[1..], p, q, f);
      if p(s[0]) {
        assert Filter(s, p) == [s[0]] + Filter(s[1..], p);
        assert Filter(s, q) == [s[0]] + Filter(s[1..], q);
      } else if q(s[0]) {
        assert Filter(s, q) == [s[0]] + Filter(s[1..], q);
      }
    }
  }

  /** `[...new Set(s)]`: each value once, in the order it is first seen. */
  function Distinct<T(==,!new)>(s: seq<T>): (r: seq<T>)
    ensures forall x :: x in r <==> x in s
    ensures NoDuplicates(r)
  {
    if s == [] then []
    else
      var d := Distinct(s[..|s| - 1]);
      assert s == s[..|s| - 1] + [s[|s| - 1]];
      if s[|s| - 1] in d then d else d + [s[|s| - 1]]
  }

  /** First-seen order: the distinct values of any prefix of s start the distinct values of s. */
  lemma {:induction false} DistinctPrefix<T(!new)>(s: seq<T>, k: nat)
    requires k <= |s|
    ensures Distinct(s[..k]) <= Distinct(s)
  {
    if k == |s| {
      assert s[..k] == s;
    } else {
      DistinctPrefix(s[..|s| - 1], k);
      assert s[..|s| - 1][..k] == s[..k];
    }
  }

  /** Once a prefix of s holds the j-th distinct value, it holds every earlier one. */
  lemma DistinctFirstSeen<T(!new)>(s: seq<T>, k: nat, i: nat, j: nat)
    requires k <= |s| && i < j < |Distinct(s)|
    requires Distinct(s)[j] in s[..k]
    ensures Distinct(s)[i] in s[..k]
  {
    var days := Distinct(s);
    DistinctPrefix(s, k);
    var met := Distinct(s[..k]);
    var m :| 0 <= m < |met| && met[m] == days[j];
    assert days[m] == days[j];
    assert days[i] == met[i];
  }

  /** Sequences with one multiset have the same members. */
  lemma SameMembers<T>(a: seq<T>, b: seq<T>)
    requires multiset(a) == multiset(b)
    ensures forall x :: x in a <==> x in b
  {
    forall x ensures x in a <==> x in b {
      assert x in a <==> x in multiset(a);
      assert x in b <==> x in multiset(b);
    }
  }

  /** Keys never increase from left to right. */
  ghost predicate NonIncreasing<T(!new)>(s: seq<T>, key: T -> int) {
    forall i, j :: 0 <= i < j < |s| ==> key(s[i]) >= key(s[j])
  }

  /** Inserts x after every element whose key is at least key(x). */
  function InsertDesc<T(!new)>(r: seq<T>, x: T, key: T -> int): (t: seq<T>)
    ensures multiset(t) == multiset(r) + multiset{x}
  {
    if r == [] then [x]
    else if key(r[0]) >= key(x) then
      assert r == [r[0]] + r[1..];
      [r[0]] + InsertDesc(r[1..], x, key)
    else [x] + r
  }

  /** Every key of InsertDesc(r, x, key) stays under a bound that r and x stay under. */
  lemma {:induction false} InsertDescBounded<T(!new)>(r: seq<T>, x: T, key: T -> int, b: int)
    requires forall i :: 0 <= i < |r| ==> key(r[i]) <= b
    requires key(x) <= b
    ensures forall i :: 0 <= i < |InsertDesc(r, x, key)| ==> key(InsertDesc(r, x, key)[i]) <= b
  {
    if r != [] && key(r[0]) >= key(x) {
      InsertDescBounded(r[1..], x, key, b);
    }
  }

  lemma {:induction false} InsertDescSorted<T(!new)>(r: seq<T>, x: T, key: T -> int)
    requires NonIncreasing(r, key)
    ensures NonIncreasing(InsertDesc(r, x, key), key)
  {
    if r != [] && key(r[0]) >= key(x) {
      var rest := r[1..];
      InsertDescSorted(rest, x, key);
      InsertDescBounded(rest, x, key, key(r[0]));
    }
  }

  /** `s.sort((a, b) => key(b) - key(a))`: descending by key, and stable, as the
      ECMAScript sort has been required to be since 2019. */
  function SortDesc<T(!new)>(s: seq<T>, key: T -> int): (r: seq<T>)
    ensures multiset(r) == multiset(s)
    ensures |r| == |s|
    ensures NonIncreasing(r, key)
  {
    if s == [] then []
    else
      var init, last := s[..|s| - 1], s[|s| - 1];
      assert s == init + [last];
      assert multiset(s) == multiset(init) + multiset{last};
      var sorted := SortDesc(init, key);
      InsertDescSorted(sorted, last, key);
      var r := InsertDesc(sorted, last, key);
      assert |r| == |multiset(r)| == |multiset(s)| == |s|;
      r
  }

  /** The predicate "has key v". */
  function HasKey<T(!new)>(key: T -> int, v: int): T -> bool {
    x => key(x) == v
  }

  /** The elements of s whose key is v, in their order in s. */
  function Tied<T(!new)>(s: seq<T>, key: T -> int, v: int): seq<T> {
    Filter(s, HasKey(key, v))
  }

  lemma {:induction false} InsertDescTied<T(!new)>(r: seq<T>, x: T, key: T -> int, v: int)
    requires NonIncreasing(r, key)
    ensures Tied(InsertDesc(r, x, key), key, v) == Tied(r, key, v) + (if key(x) == v then [x] else [])
  {
    var p := HasKey(key, v);
    if r == [] {
      assert InsertDesc(r, x, key) == [x] + [];
      FilterCons(x, [], p);
    } else if key(r[0]) >= key(x) {
      var head, rest := r[0], r[1..];
      NonIncreasingTail(r, key);
      InsertDescTied(rest, x, key, v);
      assert r == [head] + rest;
      assert InsertDesc(r, x, key) == [head] + InsertDesc(rest, x, key);
      FilterCons(head, rest, p);
      FilterCons(head, InsertDesc(rest, x, key), p);
    } else {
      InsertDescTiedFront(r, x, key, v);
    }
  }

  /** x goes in front: nothing in r ties with it, since all of r ranks lower. */
  lemma InsertDescTiedFront<T(!new)>(r: seq<T>, x: T, key: T -> int, v: int)
    requires NonIncreasing(r, key)
    requires r != [] && key(r[0]) < key(x)
    ensures Tied(InsertDesc(r, x, key), key, v) == Tied(r, key, v) + (if key(x) == v then [x] else [])
  {
    assert InsertDesc(r, x, key) == [x] + r;
    FilterCons(x, r, HasKey(key, v));
    if key(x) == v {
      TiedBelow(r, key, v);
    }
  }

  lemma NonIncreasingTail<T(!new)>(r: seq<T>, key: T -> int)
    requires r != [] && NonIncreasing(r, key)
    ensures NonIncreasing(r[1..], key)
  {
    var rest := r[1..];
    forall i, j | 0 <= i < j < |rest| ensures key(rest[i]) >= key(rest[j]) {
      assert rest[i] == r[i + 1] && rest[j] == r[j + 1];
    }
  }

  /** No element ties at v when the first key of a non-increasing sequence is below v. */
  lemma {:induction false} TiedBelow<T(!new)>(r: seq<T>, key: T -> int, v: int)
    requires NonIncreasing(r, key)
    requires r != [] && key(r[0]) < v
    ensures Tied(r, key, v) == []
  {
    if |r| > 1 {
      assert key(r[1..][0]) <= key(r[0]);
      TiedBelow(r[1..], key, v);
    }
  }

  /** Stability: elements with equal keys keep their input order. */
  lemma {:induction false} SortDescStable<T(!new)>(s: seq<T>, key: T -> int, v: int)
    ensures Tied(SortDesc(s, key), key, v) == Tied(s, key, v)
  {
    if s != [] {
      var p, init, last := HasKey(key, v), s[..|s| - 1], s[|s| - 1];
      var sortedInit := SortDesc(init, key);
      assert s == init + [last];
      assert SortDesc(s, key) == InsertDesc(sortedInit, last, key);
      SortDescStable(init, key, v);
      InsertDescTied(sortedInit, last, key, v);
      FilterAppend(init, [last], p);
      FilterCons(last, [], p);
      assert [last] + [] == [last];
    }
  }

  /** `SortDesc(s, key).slice(0, n)`: the n first entries of the stable ranking. */
  function Top<T(!new)>(s: seq<T>, key: T -> int, n: nat): (r: seq<T>)
    ensures |r| == if |s| < n then |s| else n
    ensures NonIncreasing(r, key)
    ensures multiset(r) <= multiset(s)
    ensures forall i, z :: 0 <= i < |r| && multiset(r)[z] < multiset(s)[z] ==> key(z) <= key(r[i])
    ensures forall v :: Tied(r, key, v) <= Tied(s, key, v)
  {
    var k := if |s| < n then |s| else n;
    PrefixMultiset(SortDesc(s, key), k);
    TopExcluded(s, key, k);
    forall v ensures Tied(SortDesc(s, key)[..k], key, v) <= Tied(s, key, v) {
      TopTied(s, key, k, v);
    }
    SortDesc(s, key)[..k]
  }

  /** The prefix of length i + 1 is the prefix of length i and one more entry. */
  lemma PrefixGrows<T>(s: seq<T>, i: nat)
    requires i < |s|
    ensures s[..i + 1] == s[..i] + [s[i]]
  {
  }

  lemma PrefixWhole<T>(s: seq<T>)
    ensures s[..|s|] == s
  {
  }

  lemma PrefixMultiset<T>(s: seq<T>, k: nat)
    requires k <= |s|
    ensures multiset(s[..k]) <= multiset(s)
  {
    assert s == s[..k] + s[k..];
  }

  /** Whatever the top k leave out, counting copies, ranks no higher than anything they keep. */
  lemma TopExcluded<T(!new)>(s: seq<T>, key: T -> int, k: nat)
    requires k <= |s|
    ensures forall i, z :: 0 <= i < k && multiset(SortDesc(s, key)[..k])[z] < multiset(s)[z] ==>
      key(z) <= key(SortDesc(s, key)[i])
  {
    var full := SortDesc(s, key);
    forall i, z | 0 <= i < k && multiset(full[..k])[z] < multiset(s)[z]
      ensures key(z) <= key(full[i])
    {
      var j := LeftOutCopy(full, s, k, z);
    }
  }

  /** A value s holds more copies of than the first k entries of a permutation of s sits
      at some later position. */
  lemma LeftOutCopy<T>(full: seq<T>, s: seq<T>, k: nat, z: T) returns (j: nat)
    requires k <= |full| && multiset(full) == multiset(s)
    requires multiset(full[..k])[z] < multiset(s)[z]
    ensures k <= j < |full| && full[j] == z
  {
    var kept, rest := full[..k], full[k..];
    assert full == kept + rest;
    assert multiset(full) == multiset(kept) + multiset(rest);
    assert z in multiset(rest);
    var m :| 0 <= m < |rest| && rest[m] == z;
    j := k + m;
  }

  /** A value of s missing from r is one r holds fewer copies of. */
  lemma AbsentIsFewer<T(!new)>(r: seq<T>, s: seq<T>, key: T -> int)
    requires forall i, z :: 0 <= i < |r| && multiset(r)[z] < multiset(s)[z] ==> key(z) <= key(r[i])
    ensures forall i, z :: 0 <= i < |r| && z in s && z !in r ==> key(z) <= key(r[i])
  {
    forall i, z | 0 <= i < |r| && z in s && z !in r ensures key(z) <= key(r[i]) {
      assert multiset(r)[z] == 0 < multiset(s)[z];
    }
  }

  lemma TopTied<T(!new)>(s: seq<T>, key: T -> int, k: nat, v: int)
    requires k <= |s|
    ensures Tied(SortDesc(s, key)[..k], key, v) <= Tied(s, key, v)
  {
    FilterPrefix(SortDesc(s, key), k, HasKey(key, v));
    SortDescStable(s, key, v);
  }
}
