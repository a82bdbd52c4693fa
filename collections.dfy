/** Sequence operations behind the query builder's `where`, `first`,
    `orderBy`, `groupBy`, `count` and `limit`: filtering, the first match,
    a stable insertion sort by an integer key, the distinct elements of a
    sequence in first-occurrence order, and the grouped counts of a
    sequence. */
module Collections {
  import opened Common

  /** Non-decreasing by `key`. */
  predicate SortedBy<T>(xs: seq<T>, key: T -> int)
  {
    forall i, j :: 0 <= i < j < |xs| ==> key(xs[i]) <= key(xs[j])
  }

  function Insert<T>(x: T, xs: seq<T>, key: T -> int): (r: seq<T>)
    requires SortedBy(xs, key)
    ensures SortedBy(r, key)
    ensures multiset(r) == multiset(xs) + multiset{x}
    ensures |r| == |xs| + 1
    ensures r[0] == x || (xs != [] && r[0] == xs[0])
  {
    if xs == [] then [x]
    else if key(x) <= key(xs[0]) then
      ConsSorted(x, xs, key);
      [x] + xs
    else
      var tail := Insert(x, xs[1..], key);
      assert key(xs[0]) <= key(tail[0]);
      ConsSorted(xs[0], tail, key);
      assert multiset(xs) == multiset{xs[0]} + multiset(xs[1..]) by {
        assert xs == [xs[0]] + xs[1..];
      }
      [xs[0]] + tail
  }

  /** An element no greater than the head of a sorted sequence can go in
      front of it. */
  lemma ConsSorted<T>(h: T, t: seq<T>, key: T -> int)
    requires SortedBy(t, key) && (t != [] ==> key(h) <= key(t[0]))
    ensures SortedBy([h] + t, key)
  {
    var r := [h] + t;
    forall i, j | 0 <= i < j < |r| ensures key(r[i]) <= key(r[j]) {
      assert r[j] == t[j - 1];
      if i > 0 {
        assert r[i] == t[i - 1];
      }
    }
  }

  /** `orderBy(key)`: the elements of `xs`, rearranged into non-decreasing
      key order. */
  function SortBy<T>(xs: seq<T>, key: T -> int): (r: seq<T>)
    ensures SortedBy(r, key)
    ensures multiset(r) == multiset(xs)
    ensures |r| == |xs|
  {
    if xs == [] then []
    else
      assert xs == [xs[0]] + xs[1..];
      Insert(xs[0], SortBy(xs[1..], key), key)
  }

  /** `limit(n)`: the first `n` elements. */
  function Take<T>(xs: seq<T>, n: nat): (r: seq<T>)
    ensures |r| <= n && |r| <= |xs|
    ensures r == xs[..|r|]
    ensures n <= |xs| ==> |r| == n
  {
    if |xs| <= n then xs else xs[..n]
  }

  /** Pairwise distinct elements. */
  predicate NoDuplicates<T(==)>(xs: seq<T>)
  {
    forall i, j :: 0 <= i < j < |xs| ==> xs[i] != xs[j]
  }

  /** The distinct elements of `xs`, in order of first occurrence. */
  function Distinct<T(==)>(xs: seq<T>): (r: seq<T>)
    ensures forall i :: 0 <= i < |r| ==> r[i] in xs
    ensures forall i :: 0 <= i < |xs| ==> xs[i] in r
    ensures NoDuplicates(r)
    ensures |r| <= |xs|
  {
    if xs == [] then []
    else
      var rest := Distinct(xs[..|xs| - 1]);
      assert xs == xs[..|xs| - 1] + [xs[|xs| - 1]];
      if xs[|xs| - 1] in rest then rest else rest + [xs[|xs| - 1]]
  }

  /** `groupBy(x)` with `COUNT(*)`: one pair per distinct element, holding
      its number of occurrences, in order of first occurrence. */
  function GroupCount<T(==)>(xs: seq<T>): (g: seq<(T, nat)>)
    ensures NoDuplicates(Keys(g))
    ensures forall i :: 0 <= i < |g| ==> g[i].0 in xs && g[i].1 == multiset(xs)[g[i].0] && g[i].1 > 0
    ensures forall i :: 0 <= i < |xs| ==> xs[i] in Keys(g)
    ensures SumCounts(g) == |xs|
    ensures |g| == |Distinct(xs)|
  {
    var d := Distinct(xs);
    var g := seq(|d|, i requires 0 <= i < |d| => (d[i], multiset(xs)[d[i]]));
    assert Keys(g) == d;
    SumOverCoveringKeys(d, xs);
    g
  }

  function Keys<K, V>(g: seq<(K, V)>): (ks: seq<K>)
    ensures |ks| == |g|
    ensures forall i :: 0 <= i < |g| ==> ks[i] == g[i].0
  {
    seq(|g|, i requires 0 <= i < |g| => g[i].0)
  }

  function SumCounts<K>(g: seq<(K, nat)>): nat
  {
    if g == [] then 0 else g[0].1 + SumCounts(g[1..])
  }

  /** The occurrences in `m` of the keys in `ks`, summed. */
  function SumOver<T>(ks: seq<T>, m: multiset<T>): nat
  {
    if ks == [] then 0 else m[ks[0]] + SumOver(ks[1..], m)
  }

  lemma {:induction false} SumOverEmpty<T>(ks: seq<T>)
    ensures SumOver(ks, multiset{}) == 0
  {
    if ks != [] {
      SumOverEmpty(ks[1..]);
    }
  }

  /** Adding one element raises the sum by one when that element is a key. */
  lemma {:induction false} SumOverAdd<T>(ks: seq<T>, m: multiset<T>, x: T)
    requires NoDuplicates(ks)
    ensures SumOver(ks, m + multiset{x}) == SumOver(ks, m) + (if x in ks then 1 else 0)
  {
    if ks != [] {
      SumOverAdd(ks[1..], m, x);
      assert x in ks <==> x == ks[0] || x in ks[1..];
      assert ks[0] == x ==> x !in ks[1..];
    }
  }

  /** Summing the counts of a duplicate-free key list that covers `xs`
      gives the length of `xs`. */
  lemma {:induction false} SumOverCoveringKeys<T>(ks: seq<T>, xs: seq<T>)
    requires NoDuplicates(ks)
    requires forall i :: 0 <= i < |xs| ==> xs[i] in ks
    ensures SumOver(ks, multiset(xs)) == |xs|
    ensures SumCounts(seq(|ks|, i requires 0 <= i < |ks| => (ks[i], multiset(xs)[ks[i]]))) == |xs|
  {
    if xs == [] {
      SumOverEmpty(ks);
    } else {
      var ys := xs[..|xs| - 1];
      assert xs == ys + [xs[|xs| - 1]];
      SumOverCoveringKeys(ks, ys);
      SumOverAdd(ks, multiset(ys), xs[|xs| - 1]);
    }
    SumCountsTally(ks, multiset(xs));
  }

  lemma {:induction false} SumCountsTally<T>(ks: seq<T>, m: multiset<T>)
    ensures SumCounts(seq(|ks|, i requires 0 <= i < |ks| => (ks[i], m[ks[i]]))) == SumOver(ks, m)
  {
    if ks != [] {
      var g := seq(|ks|, i requires 0 <= i < |ks| => (ks[i], m[ks[i]]));
      var ks' := ks[1..];
      assert g[1..] == seq(|ks'|, i requires 0 <= i < |ks'| => (ks'[i], m[ks'[i]]));
      SumCountsTally(ks', m);
    }
  }

  /** `where(p)->first()`: the first element satisfying `p`, none exactly
      when no element does. */
  function FirstWhere<T>(xs: seq<T>, p: T -> bool): (r: Option<T>)
    ensures r.None? <==> forall i :: 0 <= i < |xs| ==> !p(xs[i])
    ensures r.Some? ==> exists i :: (0 <= i < |xs| && xs[i] == r.value && p(r.value) &&
      forall k :: 0 <= k < i ==> !p(xs[k]))
  {
    if xs == [] then None
    else if p(xs[0]) then Some(xs[0])
    else
      var r := FirstWhere(xs[1..], p);
      assert r.Some? ==> exists i :: (0 <= i < |xs| && xs[i] == r.value && p(r.value) &&
        forall k :: 0 <= k < i ==> !p(xs[k])) by {
        if r.Some? {
          var i :| 0 <= i < |xs[1..]| && xs[1..][i] == r.value && p(r.value) &&
            forall k :: 0 <= k < i ==> !p(xs[1..][k]);
          assert xs[i + 1] == r.value;
          forall k | 0 <= k < i + 1 ensures !p(xs[k]) {
            if k > 0 {
              assert xs[k] == xs[1..][k - 1];
            }
          }
        }
      }
      assert r.None? ==> forall i :: 0 <= i < |xs| ==> !p(xs[i]) by {
        if r.None? {
          forall i | 0 <= i < |xs| ensures !p(xs[i]) {
            if i > 0 {
              assert xs[i] == xs[1..][i - 1];
            }
          }
        }
      }
      r
  }

  /** `where(p)`: the elements satisfying `p`, in their original order. */
  function Filter<T>(xs: seq<T>, p: T -> bool): (r: seq<T>)
    ensures |r| <= |xs|
    ensures forall i :: 0 <= i < |r| ==> p(r[i]) && r[i] in xs
    ensures forall i :: 0 <= i < |xs| && p(xs[i]) ==> xs[i] in r
    ensures multiset(r) <= multiset(xs)
  {
    if xs == [] then []
    else
      assert xs == [xs[0]] + xs[1..];
      (if p(xs[0]) then [xs[0]] else []) + Filter(xs[1..], p)
  }

  /** Each element survives the filter exactly as often as it occurs when
      it satisfies the predicate, and not at all otherwise. */
  lemma {:induction false} FilterCounts<T>(xs: seq<T>, p: T -> bool, x: T)
    ensures multiset(Filter(xs, p))[x] == if p(x) then multiset(xs)[x] else 0
  {
    if xs != [] {
      var y, t := xs[0], xs[1..];
      FilterCounts(t, p, x);
      assert xs == [y] + t;
      assert multiset(xs) == multiset([y]) + multiset(t);
      var h: seq<T> := if p(y) then [y] else [];
      assert Filter(xs, p) == h + Filter(t, p);
      assert multiset(Filter(xs, p)) == multiset(h) + multiset(Filter(t, p));
    }
  }


  /** Filtering distributes over concatenation: the kept elements stay in
      their relative order. */
  lemma {:induction false} FilterAppend<T>(xs: seq<T>, ys: seq<T>, p: T -> bool)
    ensures Filter(xs + ys, p) == Filter(xs, p) + Filter(ys, p)
  {
    if xs == [] {
      assert xs + ys == ys;
    } else {
      assert (xs + ys)[1..] == xs[1..] + ys;
      FilterAppend(xs[1..], ys, p);
    }
  }

  /** Two predicates that agree everywhere select the same elements. */
  lemma {:induction false} FilterSame<T>(xs: seq<T>, p: T -> bool, q: T -> bool)
    requires forall x :: p(x) == q(x)
    ensures Filter(xs, p) == Filter(xs, q)
  {
    if xs != [] {
      FilterSame(xs[1..], p, q);
    }
  }

  /** A predicate that is the disjoint union of two others selects as many
      elements as the two together. */
  lemma {:induction false} FilterSplit<T>(xs: seq<T>, p: T -> bool, q: T -> bool, u: T -> bool)
    requires forall x :: p(x) == (q(x) || u(x))
    requires forall x :: !(q(x) && u(x))
    ensures |Filter(xs, p)| == |Filter(xs, q)| + |Filter(xs, u)|
  {
    if xs != [] {
      FilterSplit(xs[1..], p, q, u);
    }
  }

  /** In a duplicate-free sequence every element occurs at most once. */
  lemma {:induction false} NoDuplicatesOccursOnce<T>(a: seq<T>, x: T)
    requires NoDuplicates(a)
    ensures multiset(a)[x] <= 1
  {
    if a != [] {
      assert a == [a[0]] + a[1..];
      NoDuplicatesOccursOnce(a[1..], x);
      assert a[0] !in a[1..];
    }
  }

  /** Rearranging a duplicate-free sequence keeps it duplicate-free. */
  lemma PermutationNoDuplicates<T>(a: seq<T>, b: seq<T>)
    requires multiset(a) == multiset(b) && NoDuplicates(a)
    ensures NoDuplicates(b)
  {
    forall i, j | 0 <= i < j < |b|
      ensures b[i] != b[j]
    {
      if b[i] == b[j] {
        assert b == b[..i] + [b[i]] + b[i + 1..j] + [b[j]] + b[j + 1..];
        assert multiset(b)[b[i]] >= 2;
        NoDuplicatesOccursOnce(a, b[i]);
        assert false;
      }
    }
  }

  function NegCount<T>(e: (T, nat)): int
  {
    -(e.1 as int)
  }

  /** `groupBy(x)->orderByDesc(count)`: the grouped counts of `xs`, most
      frequent first (the order among equal counts is unspecified). */
  function RankByCount<T(==)>(xs: seq<T>): (r: seq<(T, nat)>)
    ensures NoDuplicates(Keys(r))
    ensures forall i :: 0 <= i < |r| ==> r[i].0 in xs && r[i].1 == multiset(xs)[r[i].0] && r[i].1 > 0
    ensures forall i :: 0 <= i < |xs| ==> xs[i] in Keys(r)
    ensures forall i, j :: 0 <= i < j < |r| ==> r[i].1 >= r[j].1
    ensures SumCounts(r) == |xs|
    ensures |r| == |Distinct(xs)|
  {
    var g := GroupCount(xs);
    var r := SortBy(g, NegCount);
    RankFacts(xs, g, r);
    r
  }

  lemma RankFacts<T>(xs: seq<T>, g: seq<(T, nat)>, r: seq<(T, nat)>)
    requires g == GroupCount(xs)
    requires multiset(r) == multiset(g) && SortedBy(r, NegCount)
    ensures NoDuplicates(Keys(r))
    ensures forall i :: 0 <= i < |r| ==> r[i].0 in xs && r[i].1 == multiset(xs)[r[i].0] && r[i].1 > 0
    ensures forall i :: 0 <= i < |xs| ==> xs[i] in Keys(r)
    ensures forall i, j :: 0 <= i < j < |r| ==> r[i].1 >= r[j].1
    ensures SumCounts(r) == |xs|
  {
    RankEntries(xs, g, r);
    RankCovers(xs, g, r);
    RankKeysDistinct(xs, g, r);
    SumCountsPermutation(g, r);
  }

  lemma RankEntries<T>(xs: seq<T>, g: seq<(T, nat)>, r: seq<(T, nat)>)
    requires g == GroupCount(xs)
    requires multiset(r) == multiset(g)
    ensures forall i :: 0 <= i < |r| ==> r[i].0 in xs && r[i].1 == multiset(xs)[r[i].0] && r[i].1 > 0
  {
    forall i | 0 <= i < |r|
      ensures r[i].0 in xs && r[i].1 == multiset(xs)[r[i].0] && r[i].1 > 0
    {
      assert r[i] in multiset(r);
      assert r[i] in g;
    }
  }

  lemma RankCovers<T>(xs: seq<T>, g: seq<(T, nat)>, r: seq<(T, nat)>)
    requires g == GroupCount(xs)
    requires multiset(r) == multiset(g)
    ensures forall i :: 0 <= i < |xs| ==> xs[i] in Keys(r)
  {
    forall i | 0 <= i < |xs|
      ensures xs[i] in Keys(r)
    {
      assert xs[i] in Keys(g);
      var k :| 0 <= k < |g| && Keys(g)[k] == xs[i];
      assert g[k] in multiset(g);
      assert g[k] in r;
      var m :| 0 <= m < |r| && r[m] == g[k];
      assert Keys(r)[m] == xs[i];
    }
  }

  lemma RankKeysDistinct<T>(xs: seq<T>, g: seq<(T, nat)>, r: seq<(T, nat)>)
    requires g == GroupCount(xs)
    requires multiset(r) == multiset(g)
    ensures NoDuplicates(Keys(r))
  {
    KeysNoDuplicatesPairs(g);
    PermutationNoDuplicates(g, r);
    RankEntries(xs, g, r);
    forall i, j | 0 <= i < j < |r|
      ensures Keys(r)[i] != Keys(r)[j]
    {
      assert r[i] != r[j];
    }
  }

  lemma KeysNoDuplicatesPairs<K, V>(g: seq<(K, V)>)
    requires NoDuplicates(Keys(g))
    ensures NoDuplicates(g)
  {
    forall i, j | 0 <= i < j < |g|
      ensures g[i] != g[j]
    {
      assert Keys(g)[i] != Keys(g)[j];
    }
  }

  /** The sum of counts does not depend on the order of the pairs. */
  lemma {:induction false} SumCountsPermutation<K>(a: seq<(K, nat)>, b: seq<(K, nat)>)
    requires multiset(a) == multiset(b)
    ensures SumCounts(a) == SumCounts(b)
    decreases |a|
  {
    if a != [] {
      assert a[0] in multiset(b);
      var k :| 0 <= k < |b| && b[k] == a[0];
      var b' := b[..k] + b[k + 1..];
      assert b == b[..k] + [b[k]] + b[k + 1..];
      assert a == [a[0]] + a[1..];
      assert multiset(b) == multiset(b[..k]) + multiset{b[k]} + multiset(b[k + 1..]);
      assert multiset(b') == multiset(b[..k]) + multiset(b[k + 1..]);
      assert multiset(a) == multiset{a[0]} + multiset(a[1..]);
      forall x
        ensures multiset(a[1..])[x] == multiset(b')[x]
      {
        assert multiset(a)[x] == multiset{a[0]}[x] + multiset(a[1..])[x];
        assert multiset(b)[x] == multiset(b[..k])[x] + multiset{b[k]}[x] + multiset(b[k + 1..])[x];
      }
      assert multiset(a[1..]) == multiset(b');
      SumCountsPermutation(a[1..], b');
      SumCountsRemove(b, k);
    } else {
      assert |multiset(b)| == 0;
    }
  }

  lemma {:induction false} SumCountsRemove<K>(b: seq<(K, nat)>, k: nat)
    requires k < |b|
    ensures SumCounts(b) == b[k].1 + SumCounts(b[..k] + b[k + 1..])
  {
    if k > 0 {
      SumCountsRemove(b[1..], k - 1);
      assert b[1..][..k - 1] + b[1..][k..] == (b[..k] + b[k + 1..])[1..];
    } else {
      assert b[..k] + b[k + 1..] == b[1..];
    }
  }

  /** `groupBy(x)->orderByDesc(count)->limit(n)`: at most `n` entries of
      `RankByCount(xs)`, most frequent first. */
  function TopByCount<T(==)>(xs: seq<T>, n: nat): (s: seq<(T, nat)>)
    ensures |s| == if n <= |Distinct(xs)| then n else |Distinct(xs)|
    ensures NoDuplicates(Keys(s))
    ensures forall i :: 0 <= i < |s| ==> s[i].0 in xs && s[i].1 == multiset(xs)[s[i].0] && s[i].1 > 0
    ensures forall i, j :: 0 <= i < j < |s| ==> s[i].1 >= s[j].1
    ensures forall i, x :: 0 <= i < |s| && x in xs && x !in Keys(s) ==> multiset(xs)[x] <= s[i].1
    ensures n >= |Distinct(xs)| ==> forall x :: x in xs ==> x in Keys(s)
  {
    var r := RankByCount(xs);
    var s := Take(r, n);
    TopFacts(xs, r, s);
    s
  }

  lemma TopFacts<T>(xs: seq<T>, r: seq<(T, nat)>, s: seq<(T, nat)>)
    requires r == RankByCount(xs)
    requires |s| <= |r| && s == r[..|s|]
    ensures NoDuplicates(Keys(s))
    ensures forall i :: 0 <= i < |s| ==> s[i].0 in xs && s[i].1 == multiset(xs)[s[i].0] && s[i].1 > 0
    ensures forall i, j :: 0 <= i < j < |s| ==> s[i].1 >= s[j].1
    ensures forall i, x :: 0 <= i < |s| && x in xs && x !in Keys(s) ==> multiset(xs)[x] <= s[i].1
    ensures |s| == |r| ==> forall x :: x in xs ==> x in Keys(s)
  {
    assert forall i :: 0 <= i < |s| ==> s[i] == r[i];
    assert forall i :: 0 <= i < |s| ==> Keys(s)[i] == Keys(r)[i];
    PrefixMostFrequent(xs, r, s);
    if |s| == |r| {
      assert s == r;
    }
  }

  /** A prefix of a ranking by count holds the most frequent elements: any
      element left out occurs no more often than any element kept. */
  lemma PrefixMostFrequent<T>(xs: seq<T>, r: seq<(T, nat)>, s: seq<(T, nat)>)
    requires forall i :: 0 <= i < |r| ==> r[i].1 == multiset(xs)[r[i].0]
    requires forall i :: 0 <= i < |xs| ==> xs[i] in Keys(r)
    requires forall i, j :: 0 <= i < j < |r| ==> r[i].1 >= r[j].1
    requires |s| <= |r| && s == r[..|s|]
    ensures forall i, x :: 0 <= i < |s| && x in xs && x !in Keys(s) ==> multiset(xs)[x] <= s[i].1
  {
    forall i, x | 0 <= i < |s| && x in xs && x !in Keys(s)
      ensures multiset(xs)[x] <= s[i].1
    {
      var k :| 0 <= k < |xs| && xs[k] == x;
      assert x in Keys(r);
      var m :| 0 <= m < |r| && Keys(r)[m] == x;
      assert r[i].1 >= r[m].1;
    }
  }
}
