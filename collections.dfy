/**
 * Generic list helpers shared by the stages: Python slicing `xs[:n]`,
 * `list(set(xs))` (kept in first-occurrence order), `Counter`, the stable
 * `list.sort`/`sorted`, and grouping into an insertion-ordered dict.
 */
module Collections {
  import opened Wrappers

  predicate Distinct<T(==)>(xs: seq<T>) {
    forall i, j :: 0 <= i < j < |xs| ==> xs[i] != xs[j]
  }

  /** `xs[:n]`. */
  function Take<T>(xs: seq<T>, n: nat): (r: seq<T>)
    ensures |r| <= n && |r| <= |xs| && r == xs[..|r|]
    ensures |xs| <= n ==> r == xs
    ensures n <= |xs| ==> |r| == n
  {
    if |xs| <= n then xs else xs[..n]
  }

  lemma TakeDistinct<T>(xs: seq<T>, n: nat)
    requires Distinct(xs)
    ensures Distinct(Take(xs, n))
  {
  }

  /** The number of occurrences of `x` in `xs`. */
  function Count<T(==)>(xs: seq<T>, x: T): (r: nat)
    ensures r <= |xs|
    ensures r > 0 <==> x in xs
  {
    if xs == [] then 0
    else
      var init := xs[..|xs| - 1];
      assert xs == init + [xs[|xs| - 1]];
      Count(init, x) + (if xs[|xs| - 1] == x then 1 else 0)
  }

  /** `sum(1 for x in xs if x in vocabulary)`. */
  function CountIn<T>(xs: seq<T>, vocabulary: set<T>): (n: nat)
    ensures n <= |xs|
  {
    if xs == [] then 0
    else CountIn(xs[..|xs| - 1], vocabulary) + (if xs[|xs| - 1] in vocabulary then 1 else 0)
  }

  /** The distinct elements of `xs` in the order of their first occurrence. */
  function Dedup<T(==)>(xs: seq<T>): (r: seq<T>)
    ensures Distinct(r)
    ensures forall i :: 0 <= i < |r| ==> r[i] in xs
    ensures forall i :: 0 <= i < |xs| ==> xs[i] in r
    ensures |r| <= |xs|
  {
    if xs == [] then []
    else
      var init := xs[..|xs| - 1];
      assert xs == init + [xs[|xs| - 1]];
      var d := Dedup(init);
      if xs[|xs| - 1] in d then d else d + [xs[|xs| - 1]]
  }

  /** Removing repeats keeps exactly the same members. */
  lemma DedupMembers<T>(xs: seq<T>, x: T)
    ensures x in Dedup(xs) <==> x in xs
  {
    var r := Dedup(xs);
    if x in r {
      var i :| 0 <= i < |r| && r[i] == x;
    }
    if x in xs {
      var i :| 0 <= i < |xs| && xs[i] == x;
    }
  }

  /** The elements of `xs` satisfying `p`, in order. */
  function Filter<T>(xs: seq<T>, p: T -> bool): (r: seq<T>)
    ensures |r| <= |xs|
    ensures forall i :: 0 <= i < |r| ==> p(r[i])
  {
    if xs == [] then []
    else Filter(xs[..|xs| - 1], p) + (if p(xs[|xs| - 1]) then [xs[|xs| - 1]] else [])
  }

  /** A second update of the same key replaces the first. */
  lemma MapOverwrite<K, V>(m: map<K, V>, k: K, a: V, b: V)
    ensures m[k := a][k := b] == m[k := b]
  {
  }

  /** One more element of the input either extends the filtered prefix by itself or leaves it as it was. */
  lemma FilterStep<T>(xs: seq<T>, i: nat, p: T -> bool)
    requires i < |xs|
    ensures Filter(xs[..i + 1], p) == Filter(xs[..i], p) + (if p(xs[i]) then [xs[i]] else [])
  {
    assert xs[..i + 1][..i] == xs[..i];
  }

  lemma FilterMembers<T>(xs: seq<T>, p: T -> bool)
    ensures forall i :: 0 <= i < |Filter(xs, p)| ==> Filter(xs, p)[i] in xs
    ensures forall i :: 0 <= i < |xs| && p(xs[i]) ==> xs[i] in Filter(xs, p)
  {
    if xs != [] {
      FilterMembers(xs[..|xs| - 1], p);
      assert xs == xs[..|xs| - 1] + [xs[|xs| - 1]];
    }
  }

  lemma FilterDistinct<T>(xs: seq<T>, p: T -> bool)
    requires Distinct(xs)
    ensures Distinct(Filter(xs, p))
  {
    if xs != [] {
      FilterDistinct(xs[..|xs| - 1], p);
      FilterMembers(xs[..|xs| - 1], p);
    }
  }

  lemma ConsSplit<T>(xs: seq<T>)
    requires xs != []
    ensures [xs[0]] + xs[1..] == xs
  {
  }

  /** `[f(x) for x in xs]`: one result per element, in order. */
  function MapSeq<A, B>(xs: seq<A>, f: A -> B): (r: seq<B>)
    ensures |r| == |xs|
    ensures forall i :: 0 <= i < |xs| ==> r[i] == f(xs[i])
  {
    if xs == [] then [] else MapSeq(xs[..|xs| - 1], f) + [f(xs[|xs| - 1])]
  }

  lemma MapSeqStep<A, B>(xs: seq<A>, i: nat, f: A -> B)
    requires i < |xs|
    ensures MapSeq(xs[..i + 1], f) == MapSeq(xs[..i], f) + [f(xs[i])]
  {
    assert xs[..i + 1][..i] == xs[..i];
  }

  /** `[y for x in xs for y in [f(x)] if y is not None]`: the successful results, in order. */
  function Successes<A, B>(xs: seq<A>, f: A -> Option<B>): (r: seq<B>)
    ensures |r| <= |xs|
  {
    if xs == [] then []
    else
      var last := f(xs[|xs| - 1]);
      Successes(xs[..|xs| - 1], f) + (if last.Some? then [last.value] else [])
  }

  lemma {:induction false} SuccessesAllSome<A, B>(xs: seq<A>, f: A -> Option<B>)
    requires forall i :: 0 <= i < |xs| ==> f(xs[i]).Some?
    ensures |Successes(xs, f)| == |xs|
    ensures forall i :: 0 <= i < |xs| ==> Successes(xs, f)[i] == f(xs[i]).value
  {
    if xs != [] {
      SuccessesAllSome(xs[..|xs| - 1], f);
    }
  }

  function SumReal(xs: seq<real>): real {
    if xs == [] then 0.0 else SumReal(xs[..|xs| - 1]) + xs[|xs| - 1]
  }

  lemma {:induction false} SumRealAppend(xs: seq<real>, ys: seq<real>)
    ensures SumReal(xs + ys) == SumReal(xs) + SumReal(ys)
  {
    if ys == [] {
      assert xs + ys == xs;
    } else {
      SumRealAppend(xs, ys[..|ys| - 1]);
      assert (xs + ys)[..|xs + ys| - 1] == xs + ys[..|ys| - 1];
      assert (xs + ys)[|xs + ys| - 1] == ys[|ys| - 1];
    }
  }

  /** A sum of `n` values in [lo, hi] lies in [n * lo, n * hi]. */
  lemma {:induction false} SumRealBounds(xs: seq<real>, lo: real, hi: real)
    requires forall i :: 0 <= i < |xs| ==> lo <= xs[i] <= hi
    ensures (|xs| as real) * lo <= SumReal(xs) <= (|xs| as real) * hi
  {
    if xs != [] {
      SumRealBounds(xs[..|xs| - 1], lo, hi);
    }
  }

  /** `max(xs)` for a non-empty list: one of its values, and no smaller than any. */
  function MaxReal(xs: seq<real>): (m: real)
    requires xs != []
    ensures m in xs
    ensures forall i :: 0 <= i < |xs| ==> xs[i] <= m
  {
    if |xs| == 1 then xs[0]
    else
      var best := MaxReal(xs[..|xs| - 1]);
      if xs[|xs| - 1] > best then xs[|xs| - 1] else best
  }

  function SumNat(xs: seq<nat>): nat {
    if xs == [] then 0 else SumNat(xs[..|xs| - 1]) + xs[|xs| - 1]
  }

  lemma SumNatStep(xs: seq<nat>, i: nat)
    requires i < |xs|
    ensures SumNat(xs[..i + 1]) == SumNat(xs[..i]) + xs[i]
  {
    assert xs[..i + 1][..i] == xs[..i];
  }

  lemma SuccessesStep<A, B>(xs: seq<A>, i: nat, f: A -> Option<B>)
    requires i < |xs|
    ensures Successes(xs[..i + 1], f)
            == Successes(xs[..i], f) + (if f(xs[i]).Some? then [f(xs[i]).value] else [])
  {
    assert xs[..i + 1][..i] == xs[..i];
  }

  /** Every success is the result of some element. */
  lemma {:induction false} SuccessesMember<A, B>(xs: seq<A>, f: A -> Option<B>, y: B)
    requires y in Successes(xs, f)
    ensures exists x :: x in xs && f(x) == Some(y)
  {
    var init := xs[..|xs| - 1];
    if y in Successes(init, f) {
      SuccessesMember(init, f, y);
      var x :| x in init && f(x) == Some(y);
      assert x in xs;
    } else {
      assert xs[|xs| - 1] in xs;
    }
  }

  /** When every element fails there are no results. */
  lemma {:induction false} SuccessesSome<A, B>(xs: seq<A>, f: A -> Option<B>, k: nat)
    requires k < |xs| && f(xs[k]).Some?
    ensures Successes(xs, f) != []
  {
    if k < |xs| - 1 {
      SuccessesSome(xs[..|xs| - 1], f, k);
    }
  }

  /** Every result of an element is among the successes. */
  lemma {:induction false} SuccessesContains<A, B>(xs: seq<A>, f: A -> Option<B>, k: nat)
    requires k < |xs| && f(xs[k]).Some?
    ensures f(xs[k]).value in Successes(xs, f)
  {
    if k < |xs| - 1 {
      SuccessesContains(xs[..|xs| - 1], f, k);
    }
  }

  lemma {:induction false} SuccessesNone<A, B>(xs: seq<A>, f: A -> Option<B>)
    requires forall i :: 0 <= i < |xs| ==> f(xs[i]).None?
    ensures Successes(xs, f) == []
  {
    if xs != [] {
      SuccessesNone(xs[..|xs| - 1], f);
    }
  }

  /** Lexicographic order on sort keys. */
  predicate KeyLe(a: (real, real), b: (real, real)) {
    a.0 < b.0 || (a.0 == b.0 && a.1 <= b.1)
  }

  predicate SortedBy<T>(xs: seq<T>, key: T -> (real, real)) {
    forall i, j :: 0 <= i < j < |xs| ==> KeyLe(key(xs[i]), key(xs[j]))
  }

  /** The sort key of `sorted(pairs, key=lambda x: x[1], reverse=True)`. */
  function ByValueDesc<K>(p: (K, real)): (real, real) { (-p.1, 0.0) }

  /** Sorted on `ByValueDesc` means the values never increase. */
  lemma ByValueDescOrder<K>(xs: seq<(K, real)>)
    requires SortedBy(xs, ByValueDesc)
    ensures forall i, j :: 0 <= i < j < |xs| ==> xs[i].1 >= xs[j].1
  {
    forall i, j | 0 <= i < j < |xs|
      ensures xs[i].1 >= xs[j].1
    {
      assert KeyLe(ByValueDesc(xs[i]), ByValueDesc(xs[j]));
    }
  }

  /** Inserts `x` after every element whose key is not greater than its own. */
  function InsertBy<T(==)>(s: seq<T>, x: T, key: T -> (real, real)): (r: seq<T>)
    ensures multiset(r) == multiset(s) + multiset{x}
    ensures |r| == |s| + 1
  {
    if s == [] then [x]
    else
      var last := s[|s| - 1];
      var init := s[..|s| - 1];
      assert s == init + [last];
      if KeyLe(key(last), key(x)) then s + [x]
      else InsertBy(init, x, key) + [last]
  }

  lemma {:induction false} InsertBySorted<T>(s: seq<T>, x: T, key: T -> (real, real))
    requires SortedBy(s, key)
    ensures SortedBy(InsertBy(s, x, key), key)
  {
    if s != [] {
      var last := s[|s| - 1];
      var init := s[..|s| - 1];
      assert s == init + [last];
      if !KeyLe(key(last), key(x)) {
        InsertBySorted(init, x, key);
        var r0 := InsertBy(init, x, key);
        forall i | 0 <= i < |r0|
          ensures KeyLe(key(r0[i]), key(last))
        {
          assert r0[i] in multiset(r0);
          assert r0[i] in multiset(init) + multiset{x};
        }
      }
    }
  }

  /** `sorted(xs, key=key)`: a stable sort on ascending keys. */
  function SortBy<T(==)>(xs: seq<T>, key: T -> (real, real)): (r: seq<T>)
    ensures multiset(r) == multiset(xs)
    ensures |r| == |xs|
  {
    if xs == [] then []
    else
      assert xs == xs[..|xs| - 1] + [xs[|xs| - 1]];
      InsertBy(SortBy(xs[..|xs| - 1], key), xs[|xs| - 1], key)
  }

  lemma {:induction false} SortBySorted<T>(xs: seq<T>, key: T -> (real, real))
    ensures SortedBy(SortBy(xs, key), key)
  {
    if xs != [] {
      SortBySorted(xs[..|xs| - 1], key);
      InsertBySorted(SortBy(xs[..|xs| - 1], key), xs[|xs| - 1], key);
    }
  }

  /** Every element of a sorted sequence comes from its input, and conversely. */
  lemma SortByMembers<T>(xs: seq<T>, key: T -> (real, real))
    ensures forall i :: 0 <= i < |xs| ==> SortBy(xs, key)[i] in xs
    ensures forall i :: 0 <= i < |xs| ==> xs[i] in SortBy(xs, key)
  {
    var r := SortBy(xs, key);
    forall i | 0 <= i < |xs|
      ensures r[i] in xs && xs[i] in r
    {
      assert r[i] in multiset(r);
      assert xs[i] in multiset(xs);
    }
  }

  /** No two elements share a projection (for pairs, no two share a dict key). */
  predicate DistinctBy<T, K(==)>(xs: seq<T>, proj: T -> K) {
    forall i, j :: 0 <= i < j < |xs| ==> proj(xs[i]) != proj(xs[j])
  }

  function Fst<K, V>(p: (K, V)): K { p.0 }

  function Fst3<K, A, B>(p: (K, A, B)): K { p.0 }

  lemma {:induction false} FilterDistinctBy<T, K>(xs: seq<T>, p: T -> bool, proj: T -> K)
    requires DistinctBy(xs, proj)
    ensures DistinctBy(Filter(xs, p), proj)
  {
    if xs != [] {
      var init := xs[..|xs| - 1];
      FilterDistinctBy(init, p, proj);
      FilterMembers(init, p);
      var f := Filter(init, p);
      forall i | 0 <= i < |f|
        ensures proj(f[i]) != proj(xs[|xs| - 1])
      {
        var k :| 0 <= k < |init| && init[k] == f[i];
      }
    }
  }

  lemma {:induction false} InsertByDistinctBy<T, K>(s: seq<T>, x: T, key: T -> (real, real), proj: T -> K)
    requires DistinctBy(s, proj)
    requires forall i :: 0 <= i < |s| ==> proj(s[i]) != proj(x)
    ensures DistinctBy(InsertBy(s, x, key), proj)
  {
    if s != [] {
      var last := s[|s| - 1];
      var init := s[..|s| - 1];
      if !KeyLe(key(last), key(x)) {
        InsertByDistinctBy(init, x, key, proj);
        var r0 := InsertBy(init, x, key);
        forall i | 0 <= i < |r0|
          ensures proj(r0[i]) != proj(last)
        {
          assert r0[i] in multiset(r0);
          assert r0[i] in multiset(init) + multiset{x};
          if r0[i] != x {
            var k :| 0 <= k < |init| && init[k] == r0[i];
          }
        }
      }
    }
  }

  /** Sorting never makes two elements share a projection. */
  lemma {:induction false} SortByDistinctBy<T, K>(xs: seq<T>, key: T -> (real, real), proj: T -> K)
    requires DistinctBy(xs, proj)
    ensures DistinctBy(SortBy(xs, key), proj)
  {
    if xs != [] {
      var init := xs[..|xs| - 1];
      SortByDistinctBy(init, key, proj);
      SortByMembers(init, key);
      var s := SortBy(init, key);
      forall i | 0 <= i < |s|
        ensures proj(s[i]) != proj(xs[|xs| - 1])
      {
        assert s[i] in init;
        var k :| 0 <= k < |init| && init[k] == s[i];
      }
      InsertByDistinctBy(s, xs[|xs| - 1], key, proj);
    }
  }

  /** Sorting a sequence without repetitions gives one without repetitions. */
  lemma SortByDistinct<T>(xs: seq<T>, key: T -> (real, real))
    requires Distinct(xs)
    ensures Distinct(SortBy(xs, key))
  {
    var id := (x: T) => x;
    SortByDistinctBy(xs, key, id);
    var r := SortBy(xs, key);
    forall i, j | 0 <= i < j < |r|
      ensures r[i] != r[j]
    {
      assert id(r[i]) != id(r[j]);
    }
  }

  /** `dict(pairs)`: later pairs override earlier ones. */
  function ToMap<K(!new), V>(ps: seq<(K, V)>): (m: map<K, V>)
    ensures forall k :: k in m <==> k in KeysOf(ps)
  {
    if ps == [] then map[]
    else
      var last := ps[|ps| - 1];
      assert KeysOf(ps) == KeysOf(ps[..|ps| - 1]) + [last.0];
      ToMap(ps[..|ps| - 1])[last.0 := last.1]
  }

  /** `dict(pairs)` has no more entries than there are pairs. */
  lemma {:induction false} ToMapSize<K(!new), V>(ps: seq<(K, V)>)
    ensures |ToMap(ps)| <= |ps|
  {
    if ps != [] {
      ToMapSize(ps[..|ps| - 1]);
    }
  }

  /** With distinct keys, `dict(pairs)` maps each key to its own value. */
  lemma {:induction false} ToMapValues<K(!new), V>(ps: seq<(K, V)>)
    requires DistinctBy(ps, Fst)
    ensures forall i :: 0 <= i < |ps| ==> ToMap(ps)[ps[i].0] == ps[i].1
  {
    if ps != [] {
      var init := ps[..|ps| - 1];
      assert DistinctBy(init, Fst) by {
        forall i, j | 0 <= i < j < |init|
          ensures Fst(init[i]) != Fst(init[j])
        {
          assert init[i] == ps[i] && init[j] == ps[j];
        }
      }
      ToMapValues(init);
      forall i | 0 <= i < |ps| - 1
        ensures ps[i].0 != ps[|ps| - 1].0
      {
        assert Fst(ps[i]) != Fst(ps[|ps| - 1]);
      }
    }
  }

  function KeysOf<K, V>(gs: seq<(K, V)>): (r: seq<K>)
    ensures |r| == |gs|
    ensures forall i :: 0 <= i < |gs| ==> r[i] == gs[i].0
  {
    seq(|gs|, i requires 0 <= i < |gs| => gs[i].0)
  }

  /** The inputs whose key is `k`, in order. */
  function WithKey<T, K(==)>(xs: seq<T>, key: T -> K, k: K): (r: seq<T>)
    ensures |r| <= |xs|
    ensures forall i :: 0 <= i < |r| ==> key(r[i]) == k
  {
    if xs == [] then []
    else WithKey(xs[..|xs| - 1], key, k) + (if key(xs[|xs| - 1]) == k then [xs[|xs| - 1]] else [])
  }

  /** Two different values together occur at most as often as there are elements. */
  lemma {:induction false} CountPair<T>(xs: seq<T>, a: T, b: T)
    requires a != b
    ensures Count(xs, a) + Count(xs, b) <= |xs|
  {
    if xs != [] {
      CountPair(xs[..|xs| - 1], a, b);
    }
  }

  /** A sum of naturals each at least `c` is at least `c` times their number. */
  lemma {:induction false} SumNatAtLeast(xs: seq<nat>, c: nat)
    requires forall i :: 0 <= i < |xs| ==> xs[i] >= c
    ensures SumNat(xs) >= c * |xs|
  {
    if xs != [] {
      SumNatAtLeast(xs[..|xs| - 1], c);
    }
  }

  // ------------------------------------------------------------ Counter ranking

  /** Sort key of `Counter(xs).most_common()`: descending count. */
  function ByCount<T(==)>(xs: seq<T>): T -> (real, real) {
    x => (-(Count(xs, x) as real), 0.0)
  }

  /** `[x for x, _ in Counter(xs).most_common()]`: ties keep the order of first appearance. */
  function RankedByCount<T(==)>(xs: seq<T>): seq<T> {
    SortBy(Dedup(xs), ByCount(xs))
  }

  /** `[x for x, _ in Counter(xs).most_common(n)]`. */
  function MostCommon<T(==)>(xs: seq<T>, n: nat): seq<T> {
    Take(RankedByCount(xs), n)
  }

  /** Every element of the input appears once in the ranking, by non-increasing count. */
  lemma RankedByCountSpec<T>(xs: seq<T>)
    ensures var sorted := RankedByCount(xs);
      Distinct(sorted) &&
      (forall i :: 0 <= i < |sorted| ==> sorted[i] in xs) &&
      (forall x :: x in xs ==> x in sorted) &&
      (forall i, j :: 0 <= i < j < |sorted| ==> Count(xs, sorted[i]) >= Count(xs, sorted[j]))
  {
    var d := Dedup(xs);
    var key := ByCount(xs);
    var sorted := RankedByCount(xs);
    SortByMembers(d, key);
    SortByDistinct(d, key);
    SortBySorted(d, key);
    forall i, j | 0 <= i < j < |sorted|
      ensures Count(xs, sorted[i]) >= Count(xs, sorted[j])
    {
      assert KeyLe(key(sorted[i]), key(sorted[j]));
    }
    forall x | x in xs
      ensures x in sorted
    {
      assert x in d;
      var j :| 0 <= j < |d| && d[j] == x;
    }
  }

  /** The first element of the ranking is a most frequent one. */
  lemma RankedByCountTop<T>(xs: seq<T>)
    requires xs != []
    ensures RankedByCount(xs) != []
    ensures forall x :: x in xs ==> Count(xs, x) <= Count(xs, RankedByCount(xs)[0])
  {
    RankedByCountSpec(xs);
    assert xs[0] in RankedByCount(xs);
    forall x | x in xs
      ensures Count(xs, x) <= Count(xs, RankedByCount(xs)[0])
    {
      var j :| 0 <= j < |RankedByCount(xs)| && RankedByCount(xs)[j] == x;
    }
  }

  /**
   * `most_common(n)` returns at most `n` distinct elements of the input, by
   * non-increasing count.
   */
  lemma MostCommonSpec<T>(xs: seq<T>, n: nat)
    ensures var r := MostCommon(xs, n);
      |r| <= n && Distinct(r) &&
      (forall i :: 0 <= i < |r| ==> r[i] in xs) &&
      (forall i, j :: 0 <= i < j < |r| ==> Count(xs, r[i]) >= Count(xs, r[j]))
  {
    RankedByCountSpec(xs);
    assert MostCommon(xs, n) == RankedByCount(xs)[..|MostCommon(xs, n)|];
  }

  /** An element `most_common(n)` leaves out occurs no more often than any it returns, which are `n`. */
  lemma MostCommonCut<T>(xs: seq<T>, n: nat, x: T)
    requires x in xs && x !in MostCommon(xs, n)
    ensures |MostCommon(xs, n)| == n
    ensures forall i :: 0 <= i < n ==> Count(xs, x) <= Count(xs, MostCommon(xs, n)[i])
  {
    var sorted := RankedByCount(xs);
    var r := MostCommon(xs, n);
    RankedByCountSpec(xs);
    assert r == sorted[..|r|];
    var t :| 0 <= t < |sorted| && sorted[t] == x;
    assert t >= |r|;
  }

  // ------------------------------------------------------------ counting dicts

  /**
   * A dict of counts built by `counts[k] = counts.get(k, 0) + 1`: `keys` in
   * insertion order, `counts` the tallies.
   */
  datatype Counter<K(==,!new)> = Counter(keys: seq<K>, counts: map<K, nat>)
  {
    ghost predicate Valid() {
      Distinct(keys) && forall k :: k in counts <==> k in keys
    }

    /** `counts.get(k, 0)`. */
    function Get(k: K): nat {
      if k in counts then counts[k] else 0
    }

    /** `counts[k] = counts.get(k, 0) + 1`. */
    function Bump(k: K): (r: Counter<K>)
      requires Valid()
      ensures r.Valid()
      ensures r.Get(k) == Get(k) + 1
      ensures forall other :: other != k ==> r.Get(other) == Get(other)
    {
      if k in counts then Counter(keys, counts[k := counts[k] + 1])
      else Counter(keys + [k], counts[k := 1])
    }

    /** `sum(counts.values())`. */
    function Total(): nat {
      SumCounts(keys, counts)
    }
  }

  function SumCounts<K>(keys: seq<K>, counts: map<K, nat>): nat {
    if keys == [] then 0
    else
      var last := keys[|keys| - 1];
      SumCounts(keys[..|keys| - 1], counts) + (if last in counts then counts[last] else 0)
  }

  /** The counter built from an empty dict by one increment per element of `xs`. */
  function CountsOf<K(==,!new)>(xs: seq<K>): (c: Counter<K>)
    ensures c.Valid()
  {
    if xs == [] then Counter([], map[]) else CountsOf(xs[..|xs| - 1]).Bump(xs[|xs| - 1])
  }

  lemma CountsOfSnoc<K(!new)>(xs: seq<K>, x: K)
    ensures CountsOf(xs + [x]) == CountsOf(xs).Bump(x)
  {
    assert (xs + [x])[..|xs|] == xs;
  }

  /** Keys come in order of first appearance. */
  lemma {:induction false} CountsOfKeys<K(!new)>(xs: seq<K>)
    ensures CountsOf(xs).keys == Dedup(xs)
  {
    if xs != [] {
      var init := xs[..|xs| - 1];
      var x := xs[|xs| - 1];
      CountsOfKeys(init);
      var c := CountsOf(init);
      assert CountsOf(xs) == c.Bump(x);
      assert Dedup(xs) == if x in Dedup(init) then Dedup(init) else Dedup(init) + [x];
      assert x in c.counts <==> x in c.keys;
    }
  }

  /** Each count is the number of occurrences. */
  lemma {:induction false} CountsOfGet<K(!new)>(xs: seq<K>, x: K)
    ensures CountsOf(xs).Get(x) == Count(xs, x)
  {
    if xs != [] {
      CountsOfGet(xs[..|xs| - 1], x);
    }
  }

  /** Keys in first-appearance order, exactly the elements, each with its number of occurrences. */
  lemma CountsOfSpec<K(!new)>(xs: seq<K>, x: K)
    ensures CountsOf(xs).keys == Dedup(xs)
    ensures x in CountsOf(xs).counts <==> x in xs
    ensures CountsOf(xs).Get(x) == Count(xs, x)
  {
    CountsOfKeys(xs);
    CountsOfGet(xs, x);
  }

  lemma {:induction false} SumCountsFrame<K>(keys: seq<K>, counts: map<K, nat>, k: K, v: nat)
    requires k !in keys
    ensures SumCounts(keys, counts[k := v]) == SumCounts(keys, counts)
  {
    if keys != [] {
      SumCountsFrame(keys[..|keys| - 1], counts, k, v);
    }
  }

  lemma {:induction false} SumCountsBump<K>(keys: seq<K>, counts: map<K, nat>, k: K)
    requires Distinct(keys) && k in keys && k in counts
    ensures SumCounts(keys, counts[k := counts[k] + 1]) == SumCounts(keys, counts) + 1
  {
    var init := keys[..|keys| - 1];
    var last := keys[|keys| - 1];
    assert Distinct(init);
    if last == k {
      assert k !in init by {
        forall i | 0 <= i < |init| ensures init[i] != k {
          assert keys[i] != keys[|keys| - 1];
        }
      }
      SumCountsFrame(init, counts, k, counts[k] + 1);
    } else {
      assert k in init by {
        var j :| 0 <= j < |keys| && keys[j] == k;
        assert j < |keys| - 1;
        assert init[j] == k;
      }
      SumCountsBump(init, counts, k);
    }
  }

  /** One increment adds one to the total. */
  lemma BumpTotal<K(!new)>(c: Counter<K>, k: K)
    requires c.Valid()
    ensures c.Bump(k).Total() == c.Total() + 1
  {
    if k in c.counts {
      SumCountsBump(c.keys, c.counts, k);
    } else {
      SumCountsFrame(c.keys, c.counts, k, 1);
      assert (c.keys + [k])[..|c.keys|] == c.keys;
    }
  }

  /** Counting loses nothing: the counts add up to the number of elements. */
  lemma {:induction false} CountsOfTotal<K(!new)>(xs: seq<K>)
    ensures CountsOf(xs).Total() == |xs|
  {
    if xs != [] {
      CountsOfTotal(xs[..|xs| - 1]);
      BumpTotal(CountsOf(xs[..|xs| - 1]), xs[|xs| - 1]);
    }
  }

  /** The loop `counts[x] = counts.get(x, 0) + 1` over `xs`, from an empty dict. */
  method CountEach<K(==,!new)>(xs: seq<K>) returns (c: Counter<K>)
    ensures c == CountsOf(xs)
  {
    c := Counter([], map[]);
    for i := 0 to |xs|
      invariant c == CountsOf(xs[..i])
    {
      CountsOfSnoc(xs[..i], xs[i]);
      assert xs[..i + 1] == xs[..i] + [xs[i]];
      var x := xs[i];
      if x in c.counts {
        c := Counter(c.keys, c.counts[x := c.counts[x] + 1]);
      } else {
        c := Counter(c.keys + [x], c.counts[x := 1]);
      }
    }
    assert xs[..|xs|] == xs;
  }

  /** The same loop, returning the dict's keys and entries separately. */
  method CountAll<T(==,!new)>(xs: seq<T>) returns (keys: seq<T>, counts: map<T, nat>)
    ensures keys == Dedup(xs)
    ensures forall x :: x in counts <==> x in xs
    ensures forall x :: x in counts ==> counts[x] == Count(xs, x)
  {
    var c := CountEach(xs);
    keys, counts := c.keys, c.counts;
    forall x
      ensures keys == Dedup(xs)
      ensures x in counts <==> x in xs
      ensures x in counts ==> counts[x] == Count(xs, x)
    {
      CountsOfSpec(xs, x);
    }
  }

  // ------------------------------------------------------------ dicts by key

  function Snd<K, V>(p: (K, V)): V { p.1 }

  /** `d.values()` of a dict held as its items. */
  function ValuesOf<K, V>(d: seq<(K, V)>): (r: seq<V>)
    ensures |r| == |d|
    ensures forall i :: 0 <= i < |d| ==> r[i] == d[i].1
  {
    MapSeq(d, Snd)
  }

  /** `[y for x in xs for y in f(x)]`. */
  function FlatMap<A, B>(xs: seq<A>, f: A -> seq<B>): seq<B> {
    if xs == [] then [] else FlatMap(xs[..|xs| - 1], f) + f(xs[|xs| - 1])
  }

  /**
   * When each element yields at most one item, and only one element can
   * yield any, a list without repeats yields at most one item, and yields
   * one exactly when some element fires; that item is the firing element's.
   */
  lemma {:induction false} FlatMapAtMostOne<A, B>(xs: seq<A>, f: A -> seq<B>, fires: A -> bool)
    requires Distinct(xs)
    requires forall x :: |f(x)| <= 1 && (f(x) != [] <==> fires(x))
    requires forall x, y :: fires(x) && fires(y) ==> x == y
    ensures |FlatMap(xs, f)| <= 1
    ensures FlatMap(xs, f) != [] <==> exists k :: 0 <= k < |xs| && fires(xs[k])
    ensures FlatMap(xs, f) != [] ==> exists k :: 0 <= k < |xs| && fires(xs[k]) && FlatMap(xs, f) == f(xs[k])
  {
    if xs != [] {
      var init := xs[..|xs| - 1];
      var last := xs[|xs| - 1];
      assert Distinct(init);
      FlatMapAtMostOne(init, f, fires);
      if fires(last) {
        forall k | 0 <= k < |init|
          ensures !fires(init[k])
        {
          assert init[k] == xs[k] != last;
        }
        assert FlatMap(init, f) == [];
      } else if FlatMap(init, f) != [] {
        var k :| 0 <= k < |init| && fires(init[k]) && FlatMap(init, f) == f(init[k]);
        assert xs[k] == init[k];
      }
    }
  }

  lemma FlatMapStep<A, B>(xs: seq<A>, i: nat, f: A -> seq<B>)
    requires i < |xs|
    ensures FlatMap(xs[..i + 1], f) == FlatMap(xs[..i], f) + f(xs[i])
  {
    assert xs[..i + 1][..i] == xs[..i];
  }

  /** `for x in xs: out.extend(f(x))`, from an empty list. */
  /** The first element satisfying `p`, if any: `next((x for x in xs if p(x)), None)`. */
  function FirstWhere<T(==)>(xs: seq<T>, p: T -> bool): (r: Option<T>)
    ensures r.None? <==> forall k :: 0 <= k < |xs| ==> !p(xs[k])
    ensures r.Some? ==> exists k :: (0 <= k < |xs| && xs[k] == r.value && p(xs[k]) &&
      forall j :: 0 <= j < k ==> !p(xs[j]))
  {
    if xs == [] then None
    else if p(xs[0]) then Some(xs[0])
    else
      var r := FirstWhere(xs[1..], p);
      assert forall k :: 1 <= k < |xs| ==> xs[k] == xs[1..][k - 1];
      if r.Some? then
        var k :| 0 <= k < |xs[1..]| && xs[1..][k] == r.value && p(xs[1..][k]) &&
          forall j :: 0 <= j < k ==> !p(xs[1..][j]);
        assert xs[k + 1] == r.value;
        r
      else r
  }

  /** The search loop `for x in xs: if p(x): found = x; break`. */
  method FindFirst<T(==)>(xs: seq<T>, p: T -> bool) returns (found: Option<T>)
    ensures found == FirstWhere(xs, p)
  {
    found := None;
    var k := 0;
    while k < |xs|
      invariant 0 <= k <= |xs|
      invariant FirstWhere(xs, p) == FirstWhere(xs[k..], p)
    {
      assert xs[k..][1..] == xs[k + 1..];
      if p(xs[k]) {
        found := Some(xs[k]);
        return;
      }
      k := k + 1;
    }
  }

  /** Every element of a flattened list comes from the part of some element. */
  lemma {:induction false} FlatMapMember<A, B>(xs: seq<A>, f: A -> seq<B>, y: B)
    requires y in FlatMap(xs, f)
    ensures exists x :: x in xs && y in f(x)
  {
    var init := xs[..|xs| - 1];
    var last := xs[|xs| - 1];
    if y !in f(last) {
      FlatMapMember(init, f, y);
      var x :| x in init && y in f(x);
      assert x in xs;
    }
  }

  /** Parts of at most `k` elements give at most `k` per element. */
  lemma {:induction false} FlatMapAtMost<A, B>(xs: seq<A>, f: A -> seq<B>, k: nat)
    requires forall x :: x in xs ==> |f(x)| <= k
    ensures |FlatMap(xs, f)| <= k * |xs|
  {
    if xs != [] {
      var init := xs[..|xs| - 1];
      var last := xs[|xs| - 1];
      assert forall x :: x in init ==> x in xs;
      FlatMapAtMost(init, f, k);
      assert last in xs;
      assert |FlatMap(xs, f)| == |FlatMap(init, f)| + |f(last)|;
      assert k * |xs| == k * |init| + k by {
        assert |xs| == |init| + 1;
      }
    }
  }

  /** Parts of at least `k` elements give at least `k` per element. */
  lemma {:induction false} FlatMapAtLeast<A, B>(xs: seq<A>, f: A -> seq<B>, k: nat)
    requires forall x :: x in xs ==> |f(x)| >= k
    ensures |FlatMap(xs, f)| >= k * |xs|
  {
    if xs != [] {
      var init := xs[..|xs| - 1];
      var last := xs[|xs| - 1];
      assert forall x :: x in init ==> x in xs;
      FlatMapAtLeast(init, f, k);
      assert last in xs;
      assert |FlatMap(xs, f)| == |FlatMap(init, f)| + |f(last)|;
      assert k * |xs| == k * |init| + k by {
        assert |xs| == |init| + 1;
      }
    }
  }

  method ExtendEach<A, B>(xs: seq<A>, f: A -> seq<B>) returns (out: seq<B>)
    ensures out == FlatMap(xs, f)
  {
    out := [];
    for i := 0 to |xs|
      invariant out == FlatMap(xs[..i], f)
    {
      FlatMapStep(xs, i, f);
      out := out + f(xs[i]);
    }
    assert xs[..|xs|] == xs;
  }

  /** `for x in xs: out.append(f(x))`, from an empty list. */
  method AppendEach<A, B>(xs: seq<A>, f: A -> B) returns (out: seq<B>)
    ensures out == MapSeq(xs, f)
  {
    out := [];
    for i := 0 to |xs|
      invariant out == MapSeq(xs[..i], f)
    {
      MapSeqStep(xs, i, f);
      out := out + [f(xs[i])];
    }
    assert xs[..|xs|] == xs;
  }

  /** `for x in xs: try: out.append(f(x)) except: continue`, from an empty list. */
  method KeepSuccesses<A, B>(xs: seq<A>, f: A -> Option<B>) returns (out: seq<B>)
    ensures out == Successes(xs, f)
  {
    out := [];
    for i := 0 to |xs|
      invariant out == Successes(xs[..i], f)
    {
      SuccessesStep(xs, i, f);
      var y := f(xs[i]);
      if y.Some? {
        out := out + [y.value];
      }
    }
    assert xs[..|xs|] == xs;
  }

  /** `d[k] = v` on an insertion-ordered dict held as its items. */
  function Put<K(==), V>(d: seq<(K, V)>, k: K, v: V): (r: seq<(K, V)>)
    ensures KeysOf(r) == if k in KeysOf(d) then KeysOf(d) else KeysOf(d) + [k]
    ensures forall i :: 0 <= i < |r| && r[i].0 == k ==> r[i].1 == v
    ensures forall i :: 0 <= i < |d| && d[i].0 != k ==> r[i] == d[i]
  {
    if k in KeysOf(d) then seq(|d|, i requires 0 <= i < |d| => if d[i].0 == k then (k, v) else d[i])
    else d + [(k, v)]
  }

  /**
   * `d` is the dict `{key(x): x for x in xs}`: its keys in order of first
   * appearance, each holding the last element that carries it.
   */
  ghost predicate IndexOf<T, K>(xs: seq<T>, key: T -> K, d: seq<(K, T)>) {
    KeysOf(d) == Dedup(MapSeq(xs, key)) && LastOfEach(xs, key, d)
  }

  /** Each key of `d` holds the last element of `xs` that carries it. */
  ghost predicate LastOfEach<T, K>(xs: seq<T>, key: T -> K, d: seq<(K, T)>) {
    forall i :: 0 <= i < |d| ==> var w := WithKey(xs, key, d[i].0); w != [] && d[i].1 == w[|w| - 1]
  }

  /** `{key(x): x for x in xs}`, built by putting the elements in one by one. */
  function IndexBy<T, K(==)>(xs: seq<T>, key: T -> K): (d: seq<(K, T)>)
    ensures IndexOf(xs, key, d)
  {
    if xs == [] then []
    else
      var prev := IndexBy(xs[..|xs| - 1], key);
      IndexByKeysStep(xs, key, prev);
      LastOfEachStep(xs, key, prev);
      Put(prev, key(xs[|xs| - 1]), xs[|xs| - 1])
  }

  /** Putting the last element in adds its key when new, as removing repeats does. */
  lemma IndexByKeysStep<T, K>(xs: seq<T>, key: T -> K, prev: seq<(K, T)>)
    requires xs != [] && KeysOf(prev) == Dedup(MapSeq(xs[..|xs| - 1], key))
    ensures KeysOf(Put(prev, key(xs[|xs| - 1]), xs[|xs| - 1])) == Dedup(MapSeq(xs, key))
  {
    assert MapSeq(xs, key)[..|xs| - 1] == MapSeq(xs[..|xs| - 1], key);
  }

  /** Putting the last element in makes it the value of its key and leaves the other keys alone. */
  lemma LastOfEachStep<T, K>(xs: seq<T>, key: T -> K, prev: seq<(K, T)>)
    requires xs != [] && LastOfEach(xs[..|xs| - 1], key, prev)
    ensures LastOfEach(xs, key, Put(prev, key(xs[|xs| - 1]), xs[|xs| - 1]))
  {
    var init := xs[..|xs| - 1];
    var x := xs[|xs| - 1];
    var k := key(x);
    var d := Put(prev, k, x);
    var ks := KeysOf(prev);
    assert |KeysOf(d)| == |d|;
    forall i | 0 <= i < |d|
      ensures var w := WithKey(xs, key, d[i].0); w != [] && d[i].1 == w[|w| - 1]
    {
      var c := d[i].0;
      assert WithKey(xs, key, c) == WithKey(init, key, c) + (if k == c then [x] else []);
      if c != k {
        assert KeysOf(d)[i] == c;
        assert i < |prev| by {
          if k !in ks { assert KeysOf(d) == ks + [k]; }
        }
        assert ks[i] == prev[i].0;
      }
    }
  }

  /** A dict built by `IndexBy` has each key once. */
  lemma IndexByDistinct<T, K>(xs: seq<T>, key: T -> K)
    ensures DistinctBy(IndexBy(xs, key), Fst)
  {
    var d := IndexBy(xs, key);
    forall i, j | 0 <= i < j < |d|
      ensures Fst(d[i]) != Fst(d[j])
    {
      assert KeysOf(d)[i] == d[i].0 && KeysOf(d)[j] == d[j].0;
    }
  }

  /** `(k, a, m[k])` for every item `(k, a)` of `d` whose key `m` holds, in the order of `d`. */
  function JoinByKey<K, A, B>(d: seq<(K, A)>, m: map<K, B>): (r: seq<(K, A, B)>)
    ensures forall i :: 0 <= i < |r| ==> r[i].0 in m && r[i].2 == m[r[i].0] && (r[i].0, r[i].1) in d
    ensures forall i :: 0 <= i < |d| && d[i].0 in m ==> (d[i].0, d[i].1, m[d[i].0]) in r
  {
    if d == [] then []
    else
      var last := d[|d| - 1];
      JoinByKey(d[..|d| - 1], m) + (if last.0 in m then [(last.0, last.1, m[last.0])] else [])
  }

  /** Over a dict's items, every shared key is joined once. */
  lemma {:induction false} JoinDistinct<K, A, B>(d: seq<(K, A)>, m: map<K, B>)
    requires DistinctBy(d, Fst)
    ensures DistinctBy(JoinByKey(d, m), Fst3)
  {
    if d != [] {
      var init := d[..|d| - 1];
      var last := d[|d| - 1];
      assert DistinctBy(init, Fst) by {
        forall i, j | 0 <= i < j < |init|
          ensures Fst(init[i]) != Fst(init[j])
        {
          assert init[i] == d[i] && init[j] == d[j];
        }
      }
      JoinDistinct(init, m);
      var r0 := JoinByKey(init, m);
      forall i | 0 <= i < |r0|
        ensures r0[i].0 != last.0
      {
        var p :| 0 <= p < |init| && init[p] == (r0[i].0, r0[i].1);
        assert Fst(d[p]) != Fst(d[|d| - 1]);
      }
    }
  }

  /** The join keeps exactly the keys that both the items and the map hold. */
  lemma JoinByKeyIds<K, A, B>(d: seq<(K, A)>, m: map<K, B>, k: K)
    ensures (exists i :: 0 <= i < |JoinByKey(d, m)| && JoinByKey(d, m)[i].0 == k) ==> k in KeysOf(d) && k in m
    ensures k in KeysOf(d) && k in m ==> exists i :: 0 <= i < |JoinByKey(d, m)| && JoinByKey(d, m)[i].0 == k
  {
    var r := JoinByKey(d, m);
    if i :| 0 <= i < |r| && r[i].0 == k {
      var p :| 0 <= p < |d| && d[p] == (r[i].0, r[i].1);
      assert KeysOf(d)[p] == k;
    }
    if k in KeysOf(d) && k in m {
      var p :| 0 <= p < |d| && KeysOf(d)[p] == k;
      var e := (d[p].0, d[p].1, m[d[p].0]);
      assert e in r;
      var i :| 0 <= i < |r| && r[i] == e;
      assert r[i].0 == k;
    }
  }

  // ------------------------------------------------------------ grouping

  /** An insertion-ordered dict of lists: `keys` in insertion order, `groups` the lists. */
  datatype Grouped<K(==,!new), V> = Grouped(keys: seq<K>, groups: map<K, seq<V>>)
  {
    ghost predicate Valid() {
      Distinct(keys) && (forall k :: k in groups <==> k in keys)
      && (forall k :: k in groups ==> groups[k] != [])
    }

    /** `groups[k].append(v)` on a `defaultdict(list)`. */
    function Add(k: K, v: V): (r: Grouped<K, V>)
      requires Valid()
      ensures r.Valid()
    {
      if k in groups then Grouped(keys, groups[k := groups[k] + [v]])
      else Grouped(keys + [k], groups[k := [v]])
    }
  }

  /** The values paired with `k`, in order. */
  function ValuesFor<K(==), V>(ps: seq<(K, V)>, k: K): (r: seq<V>)
    ensures |r| <= |ps|
  {
    if ps == [] then []
    else ValuesFor(ps[..|ps| - 1], k) + (if ps[|ps| - 1].0 == k then [ps[|ps| - 1].1] else [])
  }

  /** `for k, v in pairs: groups[k].append(v)`, from an empty `defaultdict(list)`. */
  function GroupPairs<K(==,!new), V>(ps: seq<(K, V)>): (g: Grouped<K, V>)
    ensures g.Valid()
  {
    if ps == [] then Grouped([], map[])
    else GroupPairs(ps[..|ps| - 1]).Add(ps[|ps| - 1].0, ps[|ps| - 1].1)
  }

  /** The groups come in order of first appearance of their key. */
  lemma {:induction false} GroupPairsKeys<K(!new), V>(ps: seq<(K, V)>)
    ensures GroupPairs(ps).keys == Dedup(KeysOf(ps))
  {
    if ps != [] {
      var init := ps[..|ps| - 1];
      GroupPairsKeys(init);
      assert KeysOf(ps)[..|ps| - 1] == KeysOf(init);
    }
  }

  /** Each group holds exactly the values paired with its key, in input order. */
  lemma {:induction false} GroupPairsValues<K(!new), V>(ps: seq<(K, V)>, k: K)
    ensures k in GroupPairs(ps).groups <==> ValuesFor(ps, k) != []
    ensures k in GroupPairs(ps).groups ==> GroupPairs(ps).groups[k] == ValuesFor(ps, k)
  {
    if ps != [] {
      var init := ps[..|ps| - 1];
      var last := ps[|ps| - 1];
      GroupPairsValues(init, k);
      var g0 := GroupPairs(init);
      assert GroupPairs(ps) == g0.Add(last.0, last.1);
      assert ValuesFor(ps, k) == ValuesFor(init, k) + (if last.0 == k then [last.1] else []);
    }
  }

  /** Grouping loses nothing: the group sizes add up to the number of pairs. */
  lemma {:induction false} GroupPairsTotal<K(!new), V>(ps: seq<(K, V)>)
    ensures GroupSizes(GroupPairs(ps)) == |ps|
  {
    if ps != [] {
      var init := ps[..|ps| - 1];
      GroupPairsTotal(init);
      AddSize(GroupPairs(init), ps[|ps| - 1].0, ps[|ps| - 1].1);
    }
  }

  /** The loop that fills a `defaultdict(list)` from key-value pairs. */
  method Tally<K(==,!new), V>(ps: seq<(K, V)>) returns (g: Grouped<K, V>)
    ensures g == GroupPairs(ps)
  {
    var keys: seq<K> := [];
    var groups: map<K, seq<V>> := map[];
    for i := 0 to |ps|
      invariant Grouped(keys, groups) == GroupPairs(ps[..i])
    {
      assert ps[..i + 1][..i] == ps[..i];
      var k := ps[i].0;
      if k in groups {
        groups := groups[k := groups[k] + [ps[i].1]];
      } else {
        keys := keys + [k];
        groups := groups[k := [ps[i].1]];
      }
    }
    assert ps[..|ps|] == ps;
    g := Grouped(keys, groups);
  }

  /** `[(key(x), x) for x in xs]`. */
  function KeyedBy<T, K>(xs: seq<T>, key: T -> K): (r: seq<(K, T)>)
    ensures |r| == |xs|
    ensures forall i :: 0 <= i < |xs| ==> r[i] == (key(xs[i]), xs[i])
  {
    if xs == [] then [] else KeyedBy(xs[..|xs| - 1], key) + [(key(xs[|xs| - 1]), xs[|xs| - 1])]
  }

  /** Keying by `key` and collecting the values for `k` is selecting the elements carrying `k`. */
  lemma {:induction false} KeyedByValues<T, K>(xs: seq<T>, key: T -> K, k: K)
    ensures ValuesFor(KeyedBy(xs, key), k) == WithKey(xs, key, k)
  {
    if xs != [] {
      var init := xs[..|xs| - 1];
      KeyedByValues(init, key, k);
      assert KeyedBy(xs, key)[..|xs| - 1] == KeyedBy(init, key);
    }
  }

  /** The first element of each group, in group order. */
  function Firsts<K(==,!new), V>(g: Grouped<K, V>): (r: seq<V>)
    requires g.Valid()
    ensures |r| == |g.keys|
    ensures forall j :: 0 <= j < |r| ==> r[j] == g.groups[g.keys[j]][0]
  {
    seq(|g.keys|, j requires 0 <= j < |g.keys| => g.groups[g.keys[j]][0])
  }

  /** `[group[0] for group in groups.values()]` as a loop. */
  method FirstOfEach<K(==,!new), V>(g: Grouped<K, V>) returns (out: seq<V>)
    requires g.Valid()
    ensures out == Firsts(g)
  {
    out := [];
    for j := 0 to |g.keys|
      invariant out == Firsts(g)[..j]
    {
      out := out + [g.groups[g.keys[j]][0]];
    }
  }

  /**
   * The first element carrying `k` comes before every other element carrying it,
   * and `WithKey` is empty exactly when no element carries `k`.
   */
  lemma {:induction false} WithKeyFirst<T, K>(xs: seq<T>, key: T -> K, k: K)
    ensures WithKey(xs, key, k) == [] <==> forall i :: 0 <= i < |xs| ==> key(xs[i]) != k
    ensures WithKey(xs, key, k) != [] ==>
      exists p :: 0 <= p < |xs| && xs[p] == WithKey(xs, key, k)[0] && key(xs[p]) == k &&
        forall q :: 0 <= q < p ==> key(xs[q]) != k
  {
    if xs != [] {
      var init := xs[..|xs| - 1];
      WithKeyFirst(init, key, k);
      if WithKey(init, key, k) != [] {
        var p :| 0 <= p < |init| && init[p] == WithKey(init, key, k)[0] && key(init[p]) == k &&
          forall q :: 0 <= q < p ==> key(init[q]) != k;
        assert xs[p] == init[p];
      } else if key(xs[|xs| - 1]) == k {
        assert forall q :: 0 <= q < |xs| - 1 ==> xs[q] == init[q];
      }
    }
  }

  /** `groups[key(x)].append(x)` for every `x`, then the first of each group. */
  function FirstPerKey<T, K(==,!new)>(xs: seq<T>, key: T -> K): seq<T> {
    Firsts(GroupPairs(KeyedBy(xs, key)))
  }

  /** One element per key, in order of first appearance of the keys. */
  lemma FirstPerKeyKeys<T, K(!new)>(xs: seq<T>, key: T -> K)
    ensures MapSeq(FirstPerKey(xs, key), key) == Dedup(MapSeq(xs, key))
  {
    var ps := KeyedBy(xs, key);
    var keys := GroupPairs(ps).keys;
    var r := FirstPerKey(xs, key);
    var m := MapSeq(r, key);
    forall j | 0 <= j < |m|
      ensures m[j] == keys[j]
    {
      FirstPerKeyAt(xs, key, j);
    }
    assert m == keys;
    GroupPairsKeys(ps);
    assert KeysOf(ps) == MapSeq(xs, key);
  }

  /** The element kept for a key is the first input that carries it. */
  lemma FirstPerKeyAt<T, K(!new)>(xs: seq<T>, key: T -> K, j: nat)
    requires j < |FirstPerKey(xs, key)|
    ensures key(FirstPerKey(xs, key)[j]) == GroupPairs(KeyedBy(xs, key)).keys[j]
    ensures WithKey(xs, key, key(FirstPerKey(xs, key)[j])) != []
    ensures FirstPerKey(xs, key)[j] == WithKey(xs, key, key(FirstPerKey(xs, key)[j]))[0]
  {
    var ps := KeyedBy(xs, key);
    var g := GroupPairs(ps);
    var k := g.keys[j];
    GroupPairsValues(ps, k);
    KeyedByValues(xs, key, k);
    assert g.groups[k] == WithKey(xs, key, k);
  }

  /** No two kept elements share a key. */
  lemma FirstPerKeyDistinct<T, K(!new)>(xs: seq<T>, key: T -> K)
    ensures DistinctBy(FirstPerKey(xs, key), key)
  {
    var f := FirstPerKey(xs, key);
    FirstPerKeyKeys(xs, key);
    forall i, j | 0 <= i < j < |f|
      ensures key(f[i]) != key(f[j])
    {
      assert MapSeq(f, key)[i] == key(f[i]);
      assert MapSeq(f, key)[j] == key(f[j]);
    }
  }

  /** Each kept element is the first input that carries its key. */
  lemma FirstPerKeyFirst<T, K(!new)>(xs: seq<T>, key: T -> K, j: nat)
    requires j < |FirstPerKey(xs, key)|
    ensures exists p :: 0 <= p < |xs| && xs[p] == FirstPerKey(xs, key)[j] &&
                        (forall q :: 0 <= q < p ==> key(xs[q]) != key(xs[p]))
  {
    FirstPerKeyAt(xs, key, j);
    WithKeyFirst(xs, key, key(FirstPerKey(xs, key)[j]));
  }

  /** Every key of the input has a kept element, and there is one kept element per key. */
  lemma FirstPerKeyCovers<T, K(!new)>(xs: seq<T>, key: T -> K, p: nat)
    requires p < |xs|
    ensures |FirstPerKey(xs, key)| == |Dedup(MapSeq(xs, key))|
    ensures exists j :: 0 <= j < |FirstPerKey(xs, key)| && key(FirstPerKey(xs, key)[j]) == key(xs[p])
  {
    var f := FirstPerKey(xs, key);
    FirstPerKeyKeys(xs, key);
    var d := Dedup(MapSeq(xs, key));
    assert MapSeq(xs, key)[p] == key(xs[p]);
    var j :| 0 <= j < |d| && d[j] == key(xs[p]);
    assert MapSeq(f, key)[j] == key(f[j]);
  }

  /** `WithKey` keeps exactly the elements that carry `k`. */
  lemma {:induction false} WithKeyMembers<T, K>(xs: seq<T>, key: T -> K, k: K)
    ensures forall x :: x in WithKey(xs, key, k) <==> x in xs && key(x) == k
  {
    if xs != [] {
      var init := xs[..|xs| - 1];
      WithKeyMembers(init, key, k);
      assert xs == init + [xs[|xs| - 1]];
    }
  }

  /** The first element of a list sorted by `rank` ranks no higher than any of its members. */
  lemma SortByFirstMin<T>(xs: seq<T>, rank: T -> (real, real), x: T)
    requires x in xs
    ensures KeyLe(rank(SortBy(xs, rank)[0]), rank(x))
  {
    var s := SortBy(xs, rank);
    SortBySorted(xs, rank);
    assert x in multiset(s);
    var j :| 0 <= j < |s| && s[j] == x;
    if j > 0 {
      assert KeyLe(rank(s[0]), rank(s[j]));
    }
  }

  /** `group.sort(key=rank)` then `group[0]` for each group, in group order. */
  function Bests<K(==,!new), V(==)>(g: Grouped<K, V>, rank: V -> (real, real)): (r: seq<V>)
    requires g.Valid()
    ensures |r| == |g.keys|
    ensures forall j :: 0 <= j < |r| ==> r[j] == SortBy(g.groups[g.keys[j]], rank)[0]
  {
    seq(|g.keys|, j requires 0 <= j < |g.keys| => SortBy(g.groups[g.keys[j]], rank)[0])
  }

  /** The loop that sorts each group and keeps its head. */
  method BestOfEach<K(==,!new), V(==)>(g: Grouped<K, V>, rank: V -> (real, real)) returns (out: seq<V>)
    requires g.Valid()
    ensures out == Bests(g, rank)
  {
    ghost var all := Bests(g, rank);
    out := [];
    for j := 0 to |g.keys|
      invariant out == all[..j]
    {
      BestsStep(g, rank, j);
      var group := SortBy(g.groups[g.keys[j]], rank);
      out := out + [group[0]];
    }
    assert all[..|g.keys|] == all;
  }

  /** One more group adds its head to the heads so far. */
  lemma BestsStep<K(!new), V>(g: Grouped<K, V>, rank: V -> (real, real), j: nat)
    requires g.Valid() && j < |g.keys|
    ensures g.keys[j] in g.groups && |SortBy(g.groups[g.keys[j]], rank)| > 0
    ensures Bests(g, rank)[..j + 1] == Bests(g, rank)[..j] + [SortBy(g.groups[g.keys[j]], rank)[0]]
  {
    assert g.keys[j] in g.keys;
    PrefixStep(Bests(g, rank), j, SortBy(g.groups[g.keys[j]], rank)[0]);
  }

  /** A prefix grows by the next element. */
  lemma PrefixStep<T>(s: seq<T>, j: nat, x: T)
    requires j < |s| && s[j] == x
    ensures s[..j + 1] == s[..j] + [x]
  {
    assert s[..j + 1][j] == x;
  }

  /** Group `xs` by `key` and keep the best-ranked element of each group. */
  function BestPerKey<T(==), K(==,!new)>(xs: seq<T>, key: T -> K, rank: T -> (real, real)): seq<T> {
    Bests(GroupPairs(KeyedBy(xs, key)), rank)
  }

  /** The element kept for the `j`-th key is an input with that key ranking no higher than any other input with it. */
  lemma BestPerKeyAt<T, K(!new)>(xs: seq<T>, key: T -> K, rank: T -> (real, real), j: nat)
    requires j < |BestPerKey(xs, key, rank)|
    ensures BestPerKey(xs, key, rank)[j] in xs
    ensures key(BestPerKey(xs, key, rank)[j]) == GroupPairs(KeyedBy(xs, key)).keys[j]
    ensures forall p :: 0 <= p < |xs| && key(xs[p]) == key(BestPerKey(xs, key, rank)[j]) ==>
      KeyLe(rank(BestPerKey(xs, key, rank)[j]), rank(xs[p]))
  {
    var ps := KeyedBy(xs, key);
    var g := GroupPairs(ps);
    var k := g.keys[j];
    GroupPairsValues(ps, k);
    KeyedByValues(xs, key, k);
    var w := WithKey(xs, key, k);
    assert g.groups[k] == w;
    var b := SortBy(w, rank)[0];
    assert b in multiset(w);
    WithKeyMembers(xs, key, k);
    forall p | 0 <= p < |xs| && key(xs[p]) == key(b)
      ensures KeyLe(rank(b), rank(xs[p]))
    {
      SortByFirstMin(w, rank, xs[p]);
    }
  }

  /** No two kept elements share a key. */
  lemma BestPerKeyDistinct<T, K(!new)>(xs: seq<T>, key: T -> K, rank: T -> (real, real))
    ensures DistinctBy(BestPerKey(xs, key, rank), key)
  {
    var b := BestPerKey(xs, key, rank);
    var g := GroupPairs(KeyedBy(xs, key));
    forall i, j | 0 <= i < j < |b|
      ensures key(b[i]) != key(b[j])
    {
      BestPerKeyAt(xs, key, rank, i);
      BestPerKeyAt(xs, key, rank, j);
    }
  }

  /** Every key of the input has a kept element, and there is one kept element per key. */
  lemma BestPerKeyCovers<T, K(!new)>(xs: seq<T>, key: T -> K, rank: T -> (real, real), p: nat)
    requires p < |xs|
    ensures |BestPerKey(xs, key, rank)| == |Dedup(MapSeq(xs, key))|
    ensures exists j :: 0 <= j < |BestPerKey(xs, key, rank)| && key(BestPerKey(xs, key, rank)[j]) == key(xs[p])
  {
    var ps := KeyedBy(xs, key);
    var g := GroupPairs(ps);
    GroupPairsKeys(ps);
    assert KeysOf(ps) == MapSeq(xs, key);
    assert MapSeq(xs, key)[p] == key(xs[p]);
    var j :| 0 <= j < |g.keys| && g.keys[j] == key(xs[p]);
    BestPerKeyAt(xs, key, rank, j);
  }

  function SizesOf<K(==), V>(keys: seq<K>, groups: map<K, seq<V>>): nat {
    if keys == [] then 0
    else (if keys[0] in groups then |groups[keys[0]]| else 0) + SizesOf(keys[1..], groups)
  }

  function GroupSizes<K(==,!new), V>(g: Grouped<K, V>): nat {
    SizesOf(g.keys, g.groups)
  }

  lemma {:induction false} SizesOfUpdate<K, V>(keys: seq<K>, groups: map<K, seq<V>>, k: K, v: seq<V>)
    requires Distinct(keys) && k in keys && k in groups
    ensures SizesOf(keys, groups[k := v]) == SizesOf(keys, groups) - |groups[k]| + |v|
  {
    if keys[0] != k {
      SizesOfUpdate(keys[1..], groups, k, v);
    } else {
      SizesOfFrame(keys[1..], groups, k, v);
    }
  }

  lemma {:induction false} SizesOfFrame<K, V>(keys: seq<K>, groups: map<K, seq<V>>, k: K, v: seq<V>)
    requires k !in keys
    ensures SizesOf(keys, groups[k := v]) == SizesOf(keys, groups)
  {
    if keys != [] {
      SizesOfFrame(keys[1..], groups, k, v);
    }
  }

  lemma {:induction false} SizesOfAppend<K, V>(keys: seq<K>, groups: map<K, seq<V>>, k: K)
    ensures SizesOf(keys + [k], groups) == SizesOf(keys, groups) + (if k in groups then |groups[k]| else 0)
  {
    if keys != [] {
      assert (keys + [k])[1..] == keys[1..] + [k];
      SizesOfAppend(keys[1..], groups, k);
    }
  }

  lemma AddSize<K(!new), V>(g: Grouped<K, V>, k: K, v: V)
    requires g.Valid()
    ensures GroupSizes(g.Add(k, v)) == GroupSizes(g) + 1
  {
    if k in g.groups {
      SizesOfUpdate(g.keys, g.groups, k, g.groups[k] + [v]);
    } else {
      SizesOfFrame(g.keys, g.groups, k, [v]);
      SizesOfAppend(g.keys, g.groups[k := [v]], k);
    }
  }
}
