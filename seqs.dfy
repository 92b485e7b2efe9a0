/** The array comprehensions the pages are built from: `filter`, `find`,
    `map`, `reduce` into a sum, `new Set(...)` (first-occurrence de-duplication),
    a stable `sort`, and the `reduce` into a keyed accumulator (`acc[key] += w`). */
module Seqs {
  import opened Wrappers

  /** `a` is `s` with some elements left out, the rest in their order. */
  predicate IsSubsequence<T(==)>(a: seq<T>, s: seq<T>) {
    if a == [] then true
    else if s == [] then false
    else if a[0] == s[0] then IsSubsequence(a[1..], s[1..])
    else IsSubsequence(a, s[1..])
  }

  /** `s.filter(p)`: the elements satisfying `p`, each kept as often as it
      occurs, in their original order. */
  function Filter<T(==,!new)>(s: seq<T>, p: T -> bool): (r: seq<T>)
    ensures |r| <= |s|
    ensures forall i :: 0 <= i < |r| ==> p(r[i])
    ensures forall x :: multiset(r)[x] == if p(x) then multiset(s)[x] else 0
    ensures IsSubsequence(r, s)
  {
    if s == [] then []
    else
      assert s == [s[0]] + s[1..];
      var rest := Filter(s[1..], p);
      if p(s[0]) then
        assert ([s[0]] + rest)[1..] == rest;
        [s[0]] + rest
      else
        assert rest != [] ==> rest[0] != s[0];
        rest
  }

  /** Filtering keeps the first element exactly when it satisfies the predicate. */
  lemma FilterLengthStep<T(!new)>(s: seq<T>, p: T -> bool)
    requires s != []
    ensures |Filter(s, p)| == |Filter(s[1..], p)| + (if p(s[0]) then 1 else 0)
  {
  }

  /** Filtering with a predicate every element satisfies changes nothing. */
  lemma {:induction false} FilterKeepsAll<T(!new)>(s: seq<T>, p: T -> bool)
    requires forall i :: 0 <= i < |s| ==> p(s[i])
    ensures Filter(s, p) == s
  {
    if s != [] {
      FilterKeepsAll(s[1..], p);
    }
  }

  /** Filtering distributes over concatenation. */
  lemma {:induction false} FilterAppend<T(!new)>(a: seq<T>, b: seq<T>, p: T -> bool)
    ensures Filter(a + b, p) == Filter(a, p) + Filter(b, p)
  {
    if a == [] {
      assert a + b == b;
    } else {
      assert (a + b)[1..] == a[1..] + b;
      assert (a + b)[0] == a[0];
      FilterAppend(a[1..], b, p);
    }
  }

  /** Filtering twice is filtering once by both predicates. */
  lemma {:induction false} FilterCompose<T(!new)>(s: seq<T>, p: T -> bool, q: T -> bool, r: T -> bool)
    requires forall x :: r(x) == (p(x) && q(x))
    ensures Filter(Filter(s, p), q) == Filter(s, r)
  {
    if s != [] {
      FilterCompose(s[1..], p, q, r);
      if p(s[0]) {
        assert Filter(s, p)[1..] == Filter(s[1..], p);
      }
    }
  }

  /** Predicates that agree everywhere filter alike. */
  lemma {:induction false} FilterSame<T(!new)>(s: seq<T>, p: T -> bool, q: T -> bool)
    requires forall x :: p(x) == q(x)
    ensures Filter(s, p) == Filter(s, q)
  {
    if s != [] {
      FilterSame(s[1..], p, q);
    }
  }

  /** A filter step that runs only when its field is set (`on`) narrows the
      list to the predicate "`p`, and `q` if set". */
  lemma FilterIfSet<T(!new)>(s: seq<T>, p: T -> bool, q: T -> bool, r: T -> bool, on: bool)
    requires forall x :: r(x) == (p(x) && (!on || q(x)))
    ensures (if on then Filter(Filter(s, p), q) else Filter(s, p)) == Filter(s, r)
  {
    if on {
      FilterCompose(s, p, q, r);
    } else {
      FilterSame(s, p, r);
    }
  }

  /** Filters by two predicates that never hold together select at most `|s|` elements. */
  lemma {:induction false} FilterDisjoint<T(!new)>(s: seq<T>, p: T -> bool, q: T -> bool)
    requires forall x :: !(p(x) && q(x))
    ensures |Filter(s, p)| + |Filter(s, q)| <= |s|
  {
    if s != [] {
      FilterDisjoint(s[1..], p, q);
    }
  }

  /** Index of the first element satisfying `p` (`findIndex`), if any. */
  function FirstIndex<T>(s: seq<T>, p: T -> bool): (r: Option<nat>)
    ensures r.Some? ==> r.value < |s| && p(s[r.value])
    ensures r.Some? ==> forall j :: 0 <= j < r.value ==> !p(s[j])
    ensures r.None? <==> forall j :: 0 <= j < |s| ==> !p(s[j])
  {
    if s == [] then None
    else if p(s[0]) then Some(0)
    else
      match FirstIndex(s[1..], p)
      case None => None
      case Some(k) => Some(k + 1)
  }

  /** Searches that agree position by position stop at the same index. */
  lemma {:induction false} FirstIndexAgree<T, U>(s: seq<T>, p: T -> bool, t: seq<U>, q: U -> bool)
    requires |s| == |t|
    requires forall i :: 0 <= i < |s| ==> p(s[i]) == q(t[i])
    ensures FirstIndex(s, p) == FirstIndex(t, q)
  {
    if s != [] {
      FirstIndexAgree(s[1..], p, t[1..], q);
    }
  }

  /** `s.find(p)`: the first element satisfying `p`, if any. */
  function Find<T>(s: seq<T>, p: T -> bool): (r: Option<T>)
    ensures r.Some? ==> exists i :: 0 <= i < |s| && s[i] == r.value && p(s[i]) && forall j :: 0 <= j < i ==> !p(s[j])
    ensures r.None? <==> forall j :: 0 <= j < |s| ==> !p(s[j])
  {
    match FirstIndex(s, p)
    case None => None
    case Some(i) => Some(s[i])
  }

  /** `s.map(f)`. */
  function Map<T, U>(s: seq<T>, f: T -> U): (r: seq<U>)
    ensures |r| == |s|
    ensures forall i :: 0 <= i < |s| ==> r[i] == f(s[i])
  {
    if s == [] then [] else Map(s[..|s| - 1], f) + [f(s[|s| - 1])]
  }

  /** `s.reduce((sum, x) => sum + f(x), 0)`. */
  function SumOf<T>(s: seq<T>, f: T -> int): int
  {
    if s == [] then 0 else SumOf(s[..|s| - 1], f) + f(s[|s| - 1])
  }

  lemma {:induction false} SumOfAppend<T>(a: seq<T>, b: seq<T>, f: T -> int)
    ensures SumOf(a + b, f) == SumOf(a, f) + SumOf(b, f)
  {
    if b != [] {
      assert (a + b)[..|a + b| - 1] == a + b[..|b| - 1];
      assert (a + b)[|a + b| - 1] == b[|b| - 1];
      SumOfAppend(a, b[..|b| - 1], f);
    } else {
      assert a + b == a;
    }
  }

  lemma {:induction false} SumOfNonNegative<T>(s: seq<T>, f: T -> int)
    requires forall i :: 0 <= i < |s| ==> f(s[i]) >= 0
    ensures SumOf(s, f) >= 0
  {
    if s != [] {
      SumOfNonNegative(s[..|s| - 1], f);
    }
  }

  lemma SumOfSingle<T>(x: T, f: T -> int)
    ensures SumOf([x], f) == f(x)
  {
    assert [x][..0] == [];
  }

  /** Splitting a list by a predicate and its negation splits its sum. */
  lemma {:induction false} FilterSplitsSum<T(!new)>(s: seq<T>, p: T -> bool, q: T -> bool, f: T -> int)
    requires forall x :: q(x) == !p(x)
    ensures SumOf(Filter(s, p), f) + SumOf(Filter(s, q), f) == SumOf(s, f)
  {
    if s != [] {
      var rest := s[1..];
      assert s == [s[0]] + rest;
      FilterSplitsSum(rest, p, q, f);
      SumOfAppend([s[0]], rest, f);
      SumOfSingle(s[0], f);
      if p(s[0]) {
        SumOfAppend([s[0]], Filter(rest, p), f);
      } else {
        SumOfAppend([s[0]], Filter(rest, q), f);
      }
    }
  }

  /** Summing the constant 1 counts the elements. */
  lemma {:induction false} SumOfOnes<T>(s: seq<T>, f: T -> int)
    requires forall x :: f(x) == 1
    ensures SumOf(s, f) == |s|
  {
    if s != [] {
      SumOfOnes(s[..|s| - 1], f);
    }
  }

  /** `[...new Set(s)]`: each element once, in order of first occurrence. */
  function Distinct<T(==,!new)>(s: seq<T>): seq<T>
  {
    if s == [] then []
    else
      var init := s[..|s| - 1];
      if s[|s| - 1] in init then Distinct(init) else Distinct(init) + [s[|s| - 1]]
  }

  /** The de-duplicated list holds the same elements as the list, none twice. */
  lemma {:induction false} DistinctSpec<T(!new)>(s: seq<T>)
    ensures forall x :: x in Distinct(s) <==> x in s
    ensures forall i, j :: 0 <= i < j < |Distinct(s)| ==> Distinct(s)[i] != Distinct(s)[j]
  {
    if s != [] {
      var init := s[..|s| - 1];
      DistinctSpec(init);
      assert s == init + [s[|s| - 1]];
    }
  }

  /** `d` lists elements of `s` in order of first occurrence: wherever a later
      element of `d` occurs in `s`, every earlier one has occurred before it. */
  ghost predicate InFirstOccurrenceOrder<T>(d: seq<T>, s: seq<T>) {
    forall i, j, k :: 0 <= i < j < |d| && 0 <= k < |s| && s[k] == d[j] ==> d[i] in s[..k]
  }

  /** `[...new Set(s)]` keeps the order in which the elements first occur. */
  lemma {:induction false} DistinctOrder<T(!new)>(s: seq<T>)
    ensures InFirstOccurrenceOrder(Distinct(s), s)
  {
    if s != [] {
      var n := |s| - 1;
      var init, x := s[..n], s[n];
      DistinctOrder(init);
      DistinctSpec(init);
      var d0, d := Distinct(init), Distinct(s);
      forall i, j, k | 0 <= i < j < |d| && 0 <= k < |s| && s[k] == d[j]
        ensures d[i] in s[..k]
      {
        if x in init {
          assert d == d0;
          if k < n {
            assert init[..k] == s[..k];
          } else {
            var k' :| 0 <= k' < n && init[k'] == x;
            assert d[i] in init[..k'];
            assert init[..k'] == s[..k'] && s[..k'] <= s[..k];
          }
        } else {
          assert d == d0 + [x];
          if j < |d0| {
            assert d0[j] in init;
            assert k < n;
            assert init[..k] == s[..k];
          } else {
            assert d[i] == d0[i] && d0[i] in init;
            assert k == n;
            assert s[..k] == init;
          }
        }
      }
    }
  }

  // ---------------------------------------------------------------------
  // Stable sort by a comparator (`Array.prototype.sort` is stable).

  ghost predicate TotalPreorder<T(!new)>(le: (T, T) -> bool) {
    && (forall a, b :: le(a, b) || le(b, a))
    && (forall a, b, c :: le(a, b) && le(b, c) ==> le(a, c))
  }

  ghost predicate SortedBy<T>(s: seq<T>, le: (T, T) -> bool) {
    forall i, j :: 0 <= i < j < |s| ==> le(s[i], s[j])
  }

  /** In a list without repeats every element occurs once. */
  lemma {:induction false} DistinctOccursOnce<T>(s: seq<T>)
    requires forall i, j :: 0 <= i < j < |s| ==> s[i] != s[j]
    ensures forall x :: multiset(s)[x] <= 1
  {
    if s != [] {
      var init := s[..|s| - 1];
      DistinctOccursOnce(init);
      assert s == init + [s[|s| - 1]];
      assert s[|s| - 1] !in init;
    }
  }

  /** Rearranging a list without repeats gives a list without repeats. */
  lemma PermutationKeepsDistinct<T>(a: seq<T>, b: seq<T>)
    requires multiset(a) == multiset(b)
    requires forall i, j :: 0 <= i < j < |a| ==> a[i] != a[j]
    ensures forall i, j :: 0 <= i < j < |b| ==> b[i] != b[j]
  {
    DistinctOccursOnce(a);
    forall i, j | 0 <= i < j < |b| ensures b[i] != b[j] {
      var x := b[i];
      assert b == b[..j] + [b[j]] + b[j + 1..];
      assert b[..j][i] == x;
      assert multiset(b)[x] == multiset(b[..j])[x] + multiset([b[j]])[x] + multiset(b[j + 1..])[x];
      assert multiset([b[j]])[x] == 0;
    }
  }

  /** Inserts `x` before the first element it does not follow. */
  function Insert<T>(x: T, s: seq<T>, le: (T, T) -> bool): (r: seq<T>)
    ensures |r| == |s| + 1
    ensures multiset(r) == multiset(s) + multiset{x}
  {
    if s == [] then [x]
    else if le(x, s[0]) then [x] + s
    else
      assert s == [s[0]] + s[1..];
      [s[0]] + Insert(x, s[1..], le)
  }

  lemma {:induction false} InsertSorted<T(!new)>(x: T, s: seq<T>, le: (T, T) -> bool)
    requires TotalPreorder(le) && SortedBy(s, le)
    ensures SortedBy(Insert(x, s, le), le)
  {
    if s != [] && !le(x, s[0]) {
      var rest := Insert(x, s[1..], le);
      InsertSorted(x, s[1..], le);
      assert le(s[0], x);
      forall k | 0 <= k < |rest| ensures le(s[0], rest[k]) {
        assert rest[k] in multiset(rest);
        assert rest[k] == x || rest[k] in multiset(s[1..]);
        if rest[k] != x {
          var m :| 0 <= m < |s[1..]| && s[1..][m] == rest[k];
          assert s[1 + m] == rest[k];
        }
      }
      assert Insert(x, s, le) == [s[0]] + rest;
    }
  }

  /** The stable sort: equal elements keep their relative order. */
  function SortBy<T(!new)>(s: seq<T>, le: (T, T) -> bool): (r: seq<T>)
    requires TotalPreorder(le)
    ensures |r| == |s|
    ensures multiset(r) == multiset(s)
    ensures SortedBy(r, le)
  {
    if s == [] then []
    else
      assert s == [s[0]] + s[1..];
      var rest := SortBy(s[1..], le);
      InsertSorted(s[0], rest, le);
      Insert(s[0], rest, le)
  }

  /** Rearranging a list whose elements have pairwise different keys keeps
      the keys pairwise different. */
  lemma PermutationKeepsDistinctKeys<T, K>(a: seq<T>, b: seq<T>, f: T -> K)
    requires multiset(a) == multiset(b)
    requires forall i, j :: 0 <= i < j < |a| ==> f(a[i]) != f(a[j])
    ensures forall i, j :: 0 <= i < j < |b| ==> f(b[i]) != f(b[j])
  {
    PermutationKeepsDistinct(a, b);
    forall i, j | 0 <= i < j < |b| ensures f(b[i]) != f(b[j]) {
      assert b[i] in multiset(a) && b[j] in multiset(a);
      var p :| 0 <= p < |a| && a[p] == b[i];
      var q :| 0 <= q < |a| && a[q] == b[j];
      assert p != q;
      assert f(a[p]) != f(a[q]);
    }
  }

  /** In a sorted list, an element outside the first `m` comes after each of them. */
  lemma SortedPrefixBeats<T>(s: seq<T>, le: (T, T) -> bool, m: nat, x: T)
    requires SortedBy(s, le) && m <= |s|
    requires x in s && x !in s[..m]
    ensures forall i :: 0 <= i < m ==> le(s[i], x)
  {
    var j :| 0 <= j < |s| && s[j] == x;
    assert j >= m;
  }

  /** In a sorted list, an element outside the last `m` comes before each of them. */
  lemma SortedSuffixTrails<T>(s: seq<T>, le: (T, T) -> bool, m: nat, x: T)
    requires SortedBy(s, le) && m <= |s|
    requires x in s && x !in s[|s| - m..]
    ensures forall i :: |s| - m <= i < |s| ==> le(x, s[i])
  {
    var j :| 0 <= j < |s| && s[j] == x;
    assert j < |s| - m;
  }

  // ---------------------------------------------------------------------
  // Keyed accumulation: `items.reduce((acc, x) => { acc[key(x)] = (acc[key(x)] || 0) + weight(x); ... }, {})`

  /** The total weight of the items filed under key `k`. */
  function SumFor<T, K(==)>(items: seq<T>, key: T -> K, weight: T -> int, k: K): int
  {
    if items == [] then 0
    else
      var last := items[|items| - 1];
      SumFor(items[..|items| - 1], key, weight, k) + (if key(last) == k then weight(last) else 0)
  }

  /** With unit weights the total under `k` is the number of items whose key is `k`. */
  lemma {:induction false} SumForCounts<T, K>(items: seq<T>, key: T -> K, weight: T -> int, k: K)
    requires forall x :: weight(x) == 1
    ensures SumFor(items, key, weight, k) == multiset(Map(items, key))[k]
  {
    if items != [] {
      var init := items[..|items| - 1];
      SumForCounts(init, key, weight, k);
      assert Map(items, key) == Map(init, key) + [key(items[|items| - 1])];
    }
  }

  lemma {:induction false} SumForAbsent<T, K>(items: seq<T>, key: T -> K, weight: T -> int, k: K)
    requires k !in Map(items, key)
    ensures SumFor(items, key, weight, k) == 0
  {
    if items != [] {
      var init := items[..|items| - 1];
      assert Map(items, key) == Map(init, key) + [key(items[|items| - 1])];
      SumForAbsent(init, key, weight, k);
    }
  }

  /** Extending the input by one item extends the de-duplicated keys by that
      item's key when it is new. */
  lemma TallyStepOrder<T, K(!new)>(items: seq<T>, i: nat, key: T -> K)
    requires i < |items|
    ensures Distinct(Map(items[..i + 1], key))
         == if key(items[i]) in Distinct(Map(items[..i], key)) then Distinct(Map(items[..i], key))
            else Distinct(Map(items[..i], key)) + [key(items[i])]
  {
    DistinctSpec(Map(items[..i], key));
    assert items[..i + 1][..i] == items[..i];
    assert Map(items[..i + 1], key) == Map(items[..i], key) + [key(items[i])];
  }

  /** Extending the input by one item adds its weight to its own key only. */
  lemma TallyStepSum<T, K>(items: seq<T>, i: nat, key: T -> K, weight: T -> int, k: K)
    requires i < |items|
    ensures SumFor(items[..i + 1], key, weight, k)
         == SumFor(items[..i], key, weight, k) + (if key(items[i]) == k then weight(items[i]) else 0)
  {
    assert items[..i + 1][..i] == items[..i];
  }

  /** Adding the next item's weight under its key keeps `order` and `sums` the
      accumulated object: the keys in order of first occurrence and the total
      weight under each. */
  lemma TallyStep<T, K(!new)>(items: seq<T>, i: nat, key: T -> K, weight: T -> int,
                              order: seq<K>, sums: map<K, int>, order': seq<K>, sums': map<K, int>)
    requires i < |items|
    requires order == Distinct(Map(items[..i], key))
    requires forall k :: k in sums <==> k in order
    requires forall k :: k in sums ==> sums[k] == SumFor(items[..i], key, weight, k)
    requires key(items[i]) in sums ==> order' == order
    requires key(items[i]) !in sums ==> order' == order + [key(items[i])]
    requires sums' == sums[key(items[i]) := (if key(items[i]) in sums then sums[key(items[i])] else 0) + weight(items[i])]
    ensures order' == Distinct(Map(items[..i + 1], key))
    ensures forall k :: k in sums' <==> k in order'
    ensures forall k :: k in sums' ==> sums'[k] == SumFor(items[..i + 1], key, weight, k)
  {
    TallyStepOrder(items, i, key);
    DistinctSpec(Map(items[..i], key));
    TallySumsStep(items, i, key, weight, sums, sums');
  }

  /** Adding the next item's weight under its key keeps each total right. */
  lemma TallySumsStep<T, K>(items: seq<T>, i: nat, key: T -> K, weight: T -> int, sums: map<K, int>, sums': map<K, int>)
    requires i < |items|
    requires forall k :: k in sums ==> sums[k] == SumFor(items[..i], key, weight, k)
    requires key(items[i]) !in sums ==> key(items[i]) !in Map(items[..i], key)
    requires sums' == sums[key(items[i]) := (if key(items[i]) in sums then sums[key(items[i])] else 0) + weight(items[i])]
    ensures forall k :: k in sums' ==> sums'[k] == SumFor(items[..i + 1], key, weight, k)
  {
    var k := key(items[i]);
    if k !in sums {
      SumForAbsent(items[..i], key, weight, k);
    }
    forall k' | k' in sums'
      ensures sums'[k'] == SumFor(items[..i + 1], key, weight, k')
    {
      TallyStepSum(items, i, key, weight, k');
    }
  }

  /** The accumulated object: the keys in order of first occurrence and the total
      weight under each. */
  method Tally<T, K(==,!new)>(items: seq<T>, key: T -> K, weight: T -> int)
    returns (order: seq<K>, sums: map<K, int>)
    ensures order == Distinct(Map(items, key))
    ensures forall k :: k in sums <==> k in order
    ensures forall k :: k in sums ==> sums[k] == SumFor(items, key, weight, k)
  {
    order, sums := [], map[];
    for i := 0 to |items|
      invariant order == Distinct(Map(items[..i], key))
      invariant forall k :: k in sums <==> k in order
      invariant forall k :: k in sums ==> sums[k] == SumFor(items[..i], key, weight, k)
    {
      var k := key(items[i]);
      var order' := if k in sums then order else order + [k];
      var sums' := sums[k := (if k in sums then sums[k] else 0) + weight(items[i])];
      assert key(items[i]) !in sums ==> order' == order + [key(items[i])];
      assert sums' == sums[key(items[i]) := (if key(items[i]) in sums then sums[key(items[i])] else 0) + weight(items[i])];
      TallyStep(items, i, key, weight, order, sums, order', sums');
      order, sums := order', sums';
    }
    assert items[..|items|] == items;
  }

  /** Two running totals kept under one key, as in `acc[k].revenue += …; acc[k].orders += 1`. */
  datatype Totals = Totals(first: int, second: int)

  /** Adding the next item's two weights under its key keeps `order` and `sums`
      the accumulated object with two totals per key. */
  lemma TallyPairStep<T, K(!new)>(items: seq<T>, i: nat, key: T -> K, w1: T -> int, w2: T -> int,
                                  order: seq<K>, sums: map<K, Totals>, order': seq<K>, sums': map<K, Totals>)
    requires i < |items|
    requires order == Distinct(Map(items[..i], key))
    requires forall k :: k in sums <==> k in order
    requires forall k :: k in sums ==> sums[k] == Totals(SumFor(items[..i], key, w1, k), SumFor(items[..i], key, w2, k))
    requires key(items[i]) in sums ==> order' == order
    requires key(items[i]) !in sums ==> order' == order + [key(items[i])]
    requires var prev := if key(items[i]) in sums then sums[key(items[i])] else Totals(0, 0);
      sums' == sums[key(items[i]) := Totals(prev.first + w1(items[i]), prev.second + w2(items[i]))]
    ensures order' == Distinct(Map(items[..i + 1], key))
    ensures forall k :: k in sums' <==> k in order'
    ensures forall k :: k in sums' ==> sums'[k] == Totals(SumFor(items[..i + 1], key, w1, k), SumFor(items[..i + 1], key, w2, k))
  {
    TallyStepOrder(items, i, key);
    DistinctSpec(Map(items[..i], key));
    TallyPairSumsStep(items, i, key, w1, w2, sums, sums');
  }

  /** Adding the next item's two weights under its key keeps each pair of totals right. */
  lemma TallyPairSumsStep<T, K>(items: seq<T>, i: nat, key: T -> K, w1: T -> int, w2: T -> int, sums: map<K, Totals>, sums': map<K, Totals>)
    requires i < |items|
    requires forall k :: k in sums ==> sums[k] == Totals(SumFor(items[..i], key, w1, k), SumFor(items[..i], key, w2, k))
    requires key(items[i]) !in sums ==> key(items[i]) !in Map(items[..i], key)
    requires var prev := if key(items[i]) in sums then sums[key(items[i])] else Totals(0, 0);
      sums' == sums[key(items[i]) := Totals(prev.first + w1(items[i]), prev.second + w2(items[i]))]
    ensures forall k :: k in sums' ==> sums'[k] == Totals(SumFor(items[..i + 1], key, w1, k), SumFor(items[..i + 1], key, w2, k))
  {
    var k := key(items[i]);
    if k !in sums {
      SumForAbsent(items[..i], key, w1, k);
      SumForAbsent(items[..i], key, w2, k);
    }
    forall k' | k' in sums'
      ensures sums'[k'] == Totals(SumFor(items[..i + 1], key, w1, k'), SumFor(items[..i + 1], key, w2, k'))
    {
      TallyStepSum(items, i, key, w1, k');
      TallyStepSum(items, i, key, w2, k');
    }
  }

  /** The accumulated object with two totals per key: the keys in order of
      first occurrence and, under each, the two total weights. */
  method TallyPair<T, K(==,!new)>(items: seq<T>, key: T -> K, w1: T -> int, w2: T -> int)
    returns (order: seq<K>, sums: map<K, Totals>)
    ensures order == Distinct(Map(items, key))
    ensures forall k :: k in sums <==> k in order
    ensures forall k :: k in sums ==> sums[k] == Totals(SumFor(items, key, w1, k), SumFor(items, key, w2, k))
  {
    order, sums := [], map[];
    for i := 0 to |items|
      invariant order == Distinct(Map(items[..i], key))
      invariant forall k :: k in sums <==> k in order
      invariant forall k :: k in sums ==> sums[k] == Totals(SumFor(items[..i], key, w1, k), SumFor(items[..i], key, w2, k))
    {
      var x := items[i];
      var k := key(x);
      var prev := if k in sums then sums[k] else Totals(0, 0);
      var order' := if k in sums then order else order + [k];
      var sums' := sums[k := Totals(prev.first + w1(x), prev.second + w2(x))];
      assert key(items[i]) !in sums ==> order' == order + [key(items[i])];
      TallyPairStep(items, i, key, w1, w2, order, sums, order', sums');
      order, sums := order', sums';
    }
    assert items[..|items|] == items;
  }

  /** Filtering by "the key is `k`" keeps as many elements as `k` occurs among the keys. */
  lemma {:induction false} FilterCountsKey<T(!new), K>(s: seq<T>, key: T -> K, k: K, p: T -> bool)
    requires forall x :: p(x) == (key(x) == k)
    ensures |Filter(s, p)| == multiset(Map(s, key))[k]
  {
    if s != [] {
      FilterCountsKey(s[1..], key, k, p);
      assert Map(s, key) == [key(s[0])] + Map(s[1..], key);
      assert multiset(Map(s, key)) == multiset{key(s[0])} + multiset(Map(s[1..], key));
    }
  }

  /** The sum of the totals of the listed keys. */
  function SumOverKeys<T, K(==)>(keys: seq<K>, items: seq<T>, key: T -> K, weight: T -> int): int
  {
    if keys == [] then 0
    else SumOverKeys(keys[..|keys| - 1], items, key, weight) + SumFor(items, key, weight, keys[|keys| - 1])
  }

  lemma {:induction false} SumOverKeysExtend<T, K>(keys: seq<K>, items: seq<T>, x: T, key: T -> K, weight: T -> int)
    requires forall i, j :: 0 <= i < j < |keys| ==> keys[i] != keys[j]
    ensures SumOverKeys(keys, items + [x], key, weight)
         == SumOverKeys(keys, items, key, weight) + (if key(x) in keys then weight(x) else 0)
  {
    var items' := items + [x];
    assert items'[..|items'| - 1] == items;
    if keys != [] {
      var init := keys[..|keys| - 1];
      SumOverKeysExtend(init, items, x, key, weight);
      assert key(x) in keys <==> key(x) in init || key(x) == keys[|keys| - 1];
    }
  }

  lemma {:induction false} SumOverKeysAbsent<T, K>(keys: seq<K>, items: seq<T>, k: K, key: T -> K, weight: T -> int)
    ensures SumOverKeys(keys + [k], items, key, weight) == SumOverKeys(keys, items, key, weight) + SumFor(items, key, weight, k)
  {
    assert (keys + [k])[..|keys|] == keys;
  }

  /** The per-key totals of a tally add up to the total weight: no item is lost
      or counted twice. */
  lemma {:induction false} TallyConserves<T, K(!new)>(items: seq<T>, key: T -> K, weight: T -> int)
    ensures SumOverKeys(Distinct(Map(items, key)), items, key, weight) == SumOf(items, weight)
  {
    if items != [] {
      var n := |items| - 1;
      var init, x := items[..n], items[n];
      assert items == init + [x] && items[..n + 1] == items;
      TallyConserves(init, key, weight);
      var d := Distinct(Map(init, key));
      TallyStepOrder(items, n, key);
      DistinctSpec(Map(init, key));
      SumOverKeysExtend(d, init, x, key, weight);
      assert SumOf(items, weight) == SumOf(init, weight) + weight(x);
      if key(x) !in d {
        SumOverKeysAbsent(d, items, key(x), key, weight);
        SumForAbsent(init, key, weight, key(x));
        assert SumFor(items, key, weight, key(x)) == SumFor(init, key, weight, key(x)) + weight(x);
      }
    }
  }
}
