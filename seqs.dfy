/**
 * Sequence helpers shared by the tool modules: Python-style prefixes, filters,
 * sums, a stable descending sort (Python's `sorted(..., reverse=True)`) and an
 * insertion-ordered tally (a Python dict filled with `d[k] = d.get(k, 0) + w`).
 */
module Seqs {

  datatype Option<T> = None | Some(value: T)

  datatype Result<T, E> = Ok(value: T) | Err(error: E)
  {
    predicate IsFailure() { Err? }
  }

  /** Python's `s[:k]` for a non-negative `k`. */
  function Take<T>(s: seq<T>, k: nat): (r: seq<T>)
    ensures |r| == (if k < |s| then k else |s|)
    ensures r <= s
  {
    if k < |s| then s[..k] else s
  }

  /** The elements of `s` that satisfy `p`, in order (a list comprehension with an `if`). */
  function Filter<T(!new)>(s: seq<T>, p: T -> bool): (r: seq<T>)
    ensures |r| <= |s|
    ensures forall x :: x in r ==> x in s && p(x)
  {
    if s == [] then []
    else
      (if p(s[0]) then [s[0]] else []) + Filter(s[1..], p)
  }

  /** The filter keeps each passing element as often as it occurs, and no other. */
  lemma {:induction false} FilterMultiset<T(!new)>(s: seq<T>, p: T -> bool, x: T)
    ensures multiset(Filter(s, p))[x] == if p(x) then multiset(s)[x] else 0
  {
    if s != [] {
      FilterMultiset(s[1..], p, x);
      assert s == [s[0]] + s[1..];
    }
  }

  lemma {:induction false} FilterAppend<T(!new)>(a: seq<T>, b: seq<T>, p: T -> bool)
    ensures Filter(a + b, p) == Filter(a, p) + Filter(b, p)
  {
    if a == [] {
      assert a + b == b;
    } else {
      var ab := a + b;
      assert ab[0] == a[0];
      assert ab[1..] == a[1..] + b;
      FilterAppend(a[1..], b, p);
      var h := if p(a[0]) then [a[0]] else [];
      assert Filter(ab, p) == h + Filter(a[1..] + b, p);
      assert Filter(a, p) == h + Filter(a[1..], p);
    }
  }

  /** A filter every element passes keeps the whole sequence. */
  lemma {:induction false} FilterAll<T(!new)>(s: seq<T>, p: T -> bool)
    requires forall x :: x in s ==> p(x)
    ensures Filter(s, p) == s
  {
    if s != [] {
      FilterAll(s[1..], p);
      assert s == [s[0]] + s[1..];
    }
  }

  /** Two tests that agree on every element of `s` keep the same elements. */
  lemma {:induction false} FilterSame<T(!new)>(s: seq<T>, p: T -> bool, q: T -> bool)
    requires forall x :: x in s ==> p(x) == q(x)
    ensures Filter(s, p) == Filter(s, q)
  {
    if s != [] {
      FilterSame(s[1..], p, q);
    }
  }

  /** Filtering one more element onto the end of a prefix, the step of a loop that appends. */
  lemma FilterSnoc<T(!new)>(s: seq<T>, i: nat, p: T -> bool)
    requires i < |s|
    ensures Filter(s[..i + 1], p) == Filter(s[..i], p) + (if p(s[i]) then [s[i]] else [])
  {
    assert s[..i + 1] == s[..i] + [s[i]];
    FilterAppend(s[..i], [s[i]], p);
  }

  /**
   * `f(0)`, ..., `f(n - 1)` collected by a loop that stops at the first failure, the way a loop
   * of appends stops at the first exception.
   */
  method CollectAll<T, E>(n: nat, f: nat --> Result<T, E>) returns (r: Result<seq<T>, E>)
    requires forall i :: 0 <= i < n ==> f.requires(i)
    ensures r.Ok? <==> forall i :: 0 <= i < n ==> f(i).Ok?
    ensures r.Ok? ==> |r.value| == n && forall i :: 0 <= i < n ==> r.value[i] == f(i).value
    ensures r.Err? ==> exists i :: 0 <= i < n && f(i) == Err(r.error) && forall j :: 0 <= j < i ==> f(j).Ok?
  {
    var items: seq<T> := [];
    for i := 0 to n
      invariant |items| == i
      invariant forall j :: 0 <= j < i ==> f(j) == Ok(items[j])
    {
      var x := f(i);
      if x.Err? {
        return Err(x.error);
      }
      items := items + [x.value];
    }
    return Ok(items);
  }

  /** How many elements of `s` satisfy `p`, counted with repetitions. */
  function Count<T>(s: seq<T>, p: T -> bool): (n: nat)
    ensures n <= |s|
  {
    if s == [] then 0 else Count(s[..|s| - 1], p) + (if p(s[|s| - 1]) then 1 else 0)
  }

  lemma {:induction false} CountSame<T>(s: seq<T>, p: T -> bool, q: T -> bool)
    requires forall x :: p(x) == q(x)
    ensures Count(s, p) == Count(s, q)
  {
    if s != [] {
      CountSame(s[..|s| - 1], p, q);
    }
  }

  lemma CountSnoc<T>(s: seq<T>, i: nat, p: T -> bool)
    requires i < |s|
    ensures Count(s[..i + 1], p) == Count(s[..i], p) + (if p(s[i]) then 1 else 0)
  {
    assert s[..i + 1][..i] == s[..i];
  }

  lemma CountTwice<T>(x: T, p: T -> bool)
    requires p(x)
    ensures Count([x, x], p) == 2
  {
    assert [x, x][..1] == [x];
    assert [x][..0] == [];
  }

  /** The loop `for k in ks: d[k] = f(k)`: the dict's keys in insertion order and each key's value. */
  method StoreEach<K(==,!new), V>(ks: seq<K>, same: K -> K, f: K -> V) returns (order: seq<K>, results: map<K, V>)
    requires forall k :: same(k) == k
    ensures order == KeysOf(ks, same)
    ensures forall k :: k in results <==> k in order
    ensures forall k :: k in results ==> results[k] == f(k)
  {
    order, results := [], map[];
    for i := 0 to |ks|
      invariant order == KeysOf(ks[..i], same)
      invariant forall k :: k in results <==> k in order
      invariant forall k :: k in results ==> results[k] == f(k)
    {
      KeysOfSnoc(ks, i, same);
      var k := ks[i];
      if k !in results {
        order := order + [k];
      }
      results := results[k := f(k)];
    }
    assert ks[..|ks|] == ks;
  }

  /**
   * The loop `for k in ks: r = f(k); d[k] = r; if ok(r): n += 1`: the dict's keys in insertion
   * order, each key's result, and how many of the keys given, with repetitions, succeeded
   * (`succeeds` names which keys' results are `ok`).
   */
  method StoreAll<K(==,!new), V>(ks: seq<K>, same: K -> K, f: K -> V, ok: V -> bool, succeeds: K -> bool)
    returns (order: seq<K>, results: map<K, V>, count: nat)
    requires forall k :: same(k) == k
    requires forall k :: succeeds(k) == ok(f(k))
    ensures order == KeysOf(ks, same)
    ensures forall k :: k in results <==> k in order
    ensures forall k :: k in results ==> results[k] == f(k)
    ensures count == Count(ks, succeeds)
  {
    order, results, count := [], map[], 0;
    for i := 0 to |ks|
      invariant order == KeysOf(ks[..i], same)
      invariant forall k :: k in results <==> k in order
      invariant forall k :: k in results ==> results[k] == f(k)
      invariant count == Count(ks[..i], succeeds)
    {
      KeysOfSnoc(ks, i, same);
      CountSnoc(ks, i, succeeds);
      var k := ks[i];
      var result := f(k);
      if k !in results {
        order := order + [k];
      }
      results := results[k := result];
      if ok(result) {
        count := count + 1;
      }
    }
    assert ks[..|ks|] == ks;
  }

  /** The dict `{k: f(k) for k in ks}`. */
  function Tabulate<K(!new), V>(ks: seq<K>, f: K -> V): (m: map<K, V>)
    ensures forall k :: k in m <==> k in ks
  {
    map k | k in ks :: f(k)
  }

  /** A dict holding `f(k)` under each of the keys `ks`, and nothing else, is their table. */
  lemma TabulateOf<K(!new), V>(m: map<K, V>, ks: seq<K>, f: K -> V)
    requires forall k :: k in m <==> k in ks
    requires forall k :: k in m ==> m[k] == f(k)
    ensures m == Tabulate(ks, f)
  {
  }

  /** Python's `sum(f(x) for x in s)`, accumulated from the left. */
  function Sum<T>(s: seq<T>, f: T -> int): int
  {
    if s == [] then 0 else Sum(s[..|s| - 1], f) + f(s[|s| - 1])
  }

  lemma SumSnoc<T>(s: seq<T>, i: nat, f: T -> int)
    requires i < |s|
    ensures Sum(s[..i + 1], f) == Sum(s[..i], f) + f(s[i])
  {
    assert s[..i + 1][..i] == s[..i];
  }

  lemma {:induction false} SumNonNegative<T>(s: seq<T>, f: T -> int)
    requires forall x :: x in s ==> f(x) >= 0
    ensures Sum(s, f) >= 0
  {
    if s != [] {
      assert forall x :: x in s[..|s| - 1] ==> x in s;
      SumNonNegative(s[..|s| - 1], f);
    }
  }

  /** Every term lies in `[lo, hi)`, so the sum lies in `[lo * |s|, hi * |s|)` when `s` is not empty. */
  lemma {:induction false} SumBounds<T>(s: seq<T>, f: T -> int, lo: int, hi: int)
    requires forall x :: x in s ==> lo <= f(x) < hi
    ensures lo * |s| <= Sum(s, f)
    ensures s != [] ==> Sum(s, f) < hi * |s|
  {
    if s != [] {
      var init := s[..|s| - 1];
      assert forall x :: x in init ==> x in s;
      SumBounds(init, f, lo, hi);
      assert lo * |s| == lo * |init| + lo;
      assert hi * |s| == hi * |init| + hi;
    }
  }

  /** In a sequence without repetitions every value occurs at most once. */
  lemma {:induction false} DistinctCount<T>(s: seq<T>, x: T)
    requires forall i, j :: 0 <= i < j < |s| ==> s[i] != s[j]
    ensures multiset(s)[x] <= 1
  {
    if s != [] {
      var init := s[..|s| - 1];
      DistinctCount(init, x);
      assert s == init + [s[|s| - 1]];
      if x == s[|s| - 1] {
        assert x !in init;
      }
    }
  }

  /** A value found at two positions occurs at least twice. */
  lemma RepeatedCount<T>(s: seq<T>, i: nat, j: nat)
    requires i < j < |s| && s[i] == s[j]
    ensures multiset(s)[s[i]] >= 2
  {
    assert s == s[..i] + [s[i]] + s[i + 1..j] + [s[j]] + s[j + 1..];
  }

  // ---------------------------------------------------------------------------
  // Stable descending sort
  // ---------------------------------------------------------------------------

  predicate SortedDesc<T>(s: seq<T>, key: T -> real)
  {
    forall i, j :: 0 <= i < j < |s| ==> key(s[i]) >= key(s[j])
  }

  /** The elements of `s` whose key is `k`, in order: what a stable sort must not reorder. */
  function KeyRun<T>(s: seq<T>, key: T -> real, k: real): seq<T>
  {
    if s == [] then []
    else (if key(s[0]) == k then [s[0]] else []) + KeyRun(s[1..], key, k)
  }

  /** Inserts `x` before the first element whose key is not larger than its own. */
  function Insert<T>(x: T, r: seq<T>, key: T -> real): (q: seq<T>)
    ensures |q| == |r| + 1
  {
    if r == [] || key(r[0]) <= key(x) then [x] + r
    else [r[0]] + Insert(x, r[1..], key)
  }

  /** Inserting adds `x` and loses nothing. */
  lemma {:induction false} InsertMultiset<T>(x: T, r: seq<T>, key: T -> real)
    ensures multiset(Insert(x, r, key)) == multiset(r) + multiset{x}
  {
    if r != [] && key(r[0]) > key(x) {
      InsertMultiset(x, r[1..], key);
      assert r == [r[0]] + r[1..];
    }
  }

  /** A head no smaller than anything in a descending tail keeps the sequence descending. */
  lemma ConsSorted<T>(h: T, q: seq<T>, key: T -> real)
    requires SortedDesc(q, key)
    requires forall y :: y in q ==> key(y) <= key(h)
    ensures SortedDesc([h] + q, key)
  {
    var p := [h] + q;
    forall i, j | 0 <= i < j < |p| ensures key(p[i]) >= key(p[j]) {
      assert p[j] == q[j - 1];
      if i > 0 {
        assert p[i] == q[i - 1];
      }
    }
  }

  lemma {:induction false} InsertSorted<T>(x: T, r: seq<T>, key: T -> real)
    requires SortedDesc(r, key)
    ensures SortedDesc(Insert(x, r, key), key)
  {
    if r == [] || key(r[0]) <= key(x) {
      forall y | y in r ensures key(y) <= key(x) {
        var k :| 0 <= k < |r| && r[k] == y;
        assert key(r[0]) >= key(r[k]);
      }
      ConsSorted(x, r, key);
    } else {
      var q := Insert(x, r[1..], key);
      InsertSorted(x, r[1..], key);
      InsertMultiset(x, r[1..], key);
      forall y | y in q ensures key(y) <= key(r[0]) {
        assert y in multiset(q);
        if y != x {
          assert y in multiset(r[1..]);
          var k :| 0 <= k < |r[1..]| && r[1..][k] == y;
          assert r[k + 1] == y;
        }
      }
      ConsSorted(r[0], q, key);
    }
  }

  lemma {:induction false} InsertKeyRun<T>(x: T, r: seq<T>, key: T -> real, k: real)
    ensures KeyRun(Insert(x, r, key), key, k)
         == (if key(x) == k then [x] else []) + KeyRun(r, key, k)
  {
    if r == [] || key(r[0]) <= key(x) {
      var q := [x] + r;
      assert q[0] == x && q[1..] == r;
      assert KeyRun(q, key, k) == (if key(x) == k then [x] else []) + KeyRun(r, key, k);
    } else {
      var t := Insert(x, r[1..], key);
      InsertKeyRun(x, r[1..], key, k);
      var q := [r[0]] + t;
      assert q[0] == r[0] && q[1..] == t;
      var h := if key(r[0]) == k then [r[0]] else [];
      assert KeyRun(q, key, k) == h + KeyRun(t, key, k);
      assert KeyRun(r, key, k) == h + KeyRun(r[1..], key, k);
      assert key(x) == k ==> h == [];
    }
  }

  /** Python's stable `sorted(s, key=key, reverse=True)`. */
  function SortDesc<T>(s: seq<T>, key: T -> real): (r: seq<T>)
    ensures SortedDesc(r, key)
    ensures multiset(r) == multiset(s)
    ensures |r| == |s|
  {
    if s == [] then []
    else
      var t := SortDesc(s[1..], key);
      SortStep(s, t, key);
      Insert(s[0], t, key)
  }

  /** Inserting the head into the sorted tail sorts the whole sequence. */
  lemma SortStep<T>(s: seq<T>, t: seq<T>, key: T -> real)
    requires s != [] && SortedDesc(t, key) && multiset(t) == multiset(s[1..])
    ensures SortedDesc(Insert(s[0], t, key), key)
    ensures multiset(Insert(s[0], t, key)) == multiset(s)
  {
    InsertSorted(s[0], t, key);
    InsertMultiset(s[0], t, key);
    assert s == [s[0]] + s[1..];
  }

  /** Stability: elements with equal keys keep their relative order. */
  lemma {:induction false} SortDescStable<T>(s: seq<T>, key: T -> real, k: real)
    ensures KeyRun(SortDesc(s, key), key, k) == KeyRun(s, key, k)
  {
    if s != [] {
      SortDescStable(s[1..], key, k);
      InsertKeyRun(s[0], SortDesc(s[1..], key), key, k);
    }
  }

  /** The first `n` of a descending sort: at most `n` elements of `s`, still in descending order. */
  lemma TopOfSorted<T>(s: seq<T>, key: T -> real, n: nat)
    ensures var t := Take(SortDesc(s, key), n);
      |t| <= n && SortedDesc(t, key) && forall x :: x in t ==> x in s
  {
    var r := SortDesc(s, key);
    forall x | x in Take(r, n) ensures x in s {
      assert x in multiset(r);
    }
  }

  /** The first `n` of a descending sort dominate everything left out. */
  lemma TopDominates<T>(s: seq<T>, key: T -> real, n: nat, y: T)
    requires multiset(s)[y] > multiset(Take(SortDesc(s, key), n))[y]
    ensures forall x :: x in Take(SortDesc(s, key), n) ==> key(x) >= key(y)
  {
    var r := SortDesc(s, key);
    var t := Take(r, n);
    if n < |r| {
      assert t == r[..n];
      assert r == t + r[n..];
      assert multiset(r) == multiset(t) + multiset(r[n..]);
      assert multiset(r[n..])[y] > 0;
      PrefixDominates(r, key, n, y);
    } else {
      assert false;
    }
  }

  /** In a descending sequence, every element before position `n` dominates any later one. */
  lemma PrefixDominates<T>(r: seq<T>, key: T -> real, n: nat, y: T)
    requires SortedDesc(r, key) && n <= |r| && y in r[n..]
    ensures forall x :: x in r[..n] ==> key(x) >= key(y)
  {
    var j :| 0 <= j < |r[n..]| && r[n..][j] == y;
    assert r[n + j] == y;
    forall x | x in r[..n] ensures key(x) >= key(y) {
      var i :| 0 <= i < n && r[..n][i] == x;
      assert r[i] == x;
    }
  }

  // ---------------------------------------------------------------------------
  // Insertion-ordered tally
  // ---------------------------------------------------------------------------

  /** The distinct keys of `s` in order of first appearance (the key order of a Python dict). */
  function KeysOf<T(!new), K(==,!new)>(s: seq<T>, key: T -> K): (r: seq<K>)
    ensures forall k :: k in r <==> exists x :: x in s && key(x) == k
    ensures forall i, j :: 0 <= i < j < |r| ==> r[i] != r[j]
  {
    if s == [] then []
    else
      var d := KeysOf(s[..|s| - 1], key);
      assert forall x :: x in s <==> x in s[..|s| - 1] || x == s[|s| - 1];
      if key(s[|s| - 1]) in d then d else d + [key(s[|s| - 1])]
  }

  /** The weights of the elements of `s` whose key is `k`, summed from the left. */
  function Total<T, K(==)>(s: seq<T>, key: T -> K, w: T -> int, k: K): int
  {
    if s == [] then 0
    else Total(s[..|s| - 1], key, w, k) + (if key(s[|s| - 1]) == k then w(s[|s| - 1]) else 0)
  }

  lemma TotalSnoc<T, K>(s: seq<T>, i: nat, key: T -> K, w: T -> int)
    requires i < |s|
    ensures forall k :: Total(s[..i + 1], key, w, k) == Total(s[..i], key, w, k) + (if key(s[i]) == k then w(s[i]) else 0)
  {
    assert s[..i + 1][..i] == s[..i];
  }

  lemma {:induction false} TotalAbsent<T(!new), K(!new)>(s: seq<T>, key: T -> K, w: T -> int, k: K)
    requires k !in KeysOf(s, key)
    ensures Total(s, key, w, k) == 0
  {
    if s != [] {
      assert s[|s| - 1] in s;
      assert forall x :: x in s[..|s| - 1] ==> x in s;
      TotalAbsent(s[..|s| - 1], key, w, k);
    }
  }

  lemma KeysOfSnoc<T(!new), K(!new)>(s: seq<T>, i: nat, key: T -> K)
    requires i < |s|
    ensures KeysOf(s[..i + 1], key)
         == if key(s[i]) in KeysOf(s[..i], key) then KeysOf(s[..i], key) else KeysOf(s[..i], key) + [key(s[i])]
  {
    assert s[..i + 1][..i] == s[..i];
  }

  lemma KeysOfTwice<T(!new), K(!new)>(x: T, key: T -> K)
    ensures KeysOf([x, x], key) == [key(x)]
  {
    assert [x, x][..1] == [x];
    assert [x][..0] == [];
    assert KeysOf([x], key) == [key(x)];
  }

  /** There are never more distinct keys than elements. */
  lemma {:induction false} KeysOfShorter<T(!new), K(!new)>(s: seq<T>, key: T -> K)
    ensures |KeysOf(s, key)| <= |s|
  {
    if s != [] {
      KeysOfShorter(s[..|s| - 1], key);
    }
  }

  /**
   * The loop `for x in s: d[key(x)] = d.get(key(x), 0) + w(x)`: the dict's keys in insertion
   * order and its values.
   */
  method Tally<T(!new), K(==,!new)>(s: seq<T>, key: T -> K, w: T -> int) returns (order: seq<K>, totals: map<K, int>)
    ensures order == KeysOf(s, key)
    ensures forall k :: k in totals <==> k in order
    ensures forall k :: k in totals ==> totals[k] == Total(s, key, w, k)
  {
    order, totals := [], map[];
    for i := 0 to |s|
      invariant order == KeysOf(s[..i], key)
      invariant forall k :: k in totals <==> k in order
      invariant forall k :: k in totals ==> totals[k] == Total(s[..i], key, w, k)
    {
      var k := key(s[i]);
      KeysOfSnoc(s, i, key);
      TotalSnoc(s, i, key, w);
      if k in totals {
        totals := totals[k := totals[k] + w(s[i])];
      } else {
        TotalAbsent(s[..i], key, w, k);
        order := order + [k];
        totals := totals[k := w(s[i])];
      }
    }
    assert s[..|s|] == s;
  }

  /** With the identity as key and unit weights, a tally counts occurrences. */
  lemma {:induction false} TotalCounts<T>(s: seq<T>, key: T -> T, w: T -> int, k: T)
    requires forall x :: key(x) == x && w(x) == 1
    ensures Total(s, key, w, k) == multiset(s)[k]
  {
    if s != [] {
      TotalCounts(s[..|s| - 1], key, w, k);
      assert s == s[..|s| - 1] + [s[|s| - 1]];
    }
  }

  lemma {:induction false} SumCons<T>(x: T, s: seq<T>, f: T -> int)
    ensures Sum([x] + s, f) == f(x) + Sum(s, f)
  {
    if s != [] {
      assert ([x] + s)[..|s|] == [x] + s[..|s| - 1];
      SumCons(x, s[..|s| - 1], f);
    }
  }

  /** The totals of the keys `ks`, added up. */
  function SumTotals<T, K(==)>(s: seq<T>, key: T -> K, w: T -> int, ks: seq<K>): int
  {
    if ks == [] then 0 else Total(s, key, w, ks[0]) + SumTotals(s, key, w, ks[1..])
  }

  lemma {:induction false} SumTotalsSnoc<T, K>(s: seq<T>, key: T -> K, w: T -> int, ks: seq<K>)
    requires s != []
    ensures SumTotals(s, key, w, ks) == SumTotals(s[..|s| - 1], key, w, ks) + Hits(key(s[|s| - 1]), ks) * w(s[|s| - 1])
  {
    if ks != [] {
      SumTotalsSnoc(s, key, w, ks[1..]);
    }
  }

  lemma {:induction false} SumTotalsEmpty<T, K>(key: T -> K, w: T -> int, ks: seq<K>)
    ensures SumTotals([], key, w, ks) == 0
  {
    if ks != [] {
      SumTotalsEmpty(key, w, ks[1..]);
    }
  }

  /**
   * The totals over a duplicate-free list of keys that covers every element add up to the
   * total weight: each element is counted under exactly one key.
   */
  lemma {:induction false} TotalsPartition<T, K>(s: seq<T>, key: T -> K, w: T -> int, ks: seq<K>)
    requires forall i, j :: 0 <= i < j < |ks| ==> ks[i] != ks[j]
    requires forall x :: x in s ==> key(x) in ks
    ensures SumTotals(s, key, w, ks) == Sum(s, w)
  {
    if s == [] {
      SumTotalsEmpty(key, w, ks);
    } else {
      assert forall x :: x in s[..|s| - 1] ==> x in s;
      TotalsPartition(s[..|s| - 1], key, w, ks);
      SumTotalsSnoc(s, key, w, ks);
      HitsOnce(key(s[|s| - 1]), ks);
    }
  }

  /** `dict.items()` of a tally, in key order. */
  function Items<K>(order: seq<K>, totals: map<K, int>): (r: seq<(K, int)>)
    requires forall k :: k in order ==> k in totals
    ensures |r| == |order|
    ensures forall i :: 0 <= i < |r| ==> r[i] == (order[i], totals[order[i]])
  {
    if order == [] then [] else [(order[0], totals[order[0]])] + Items(order[1..], totals)
  }

  function PairCount<K>(p: (K, int)): real { p.1 as real }

  // ---------------------------------------------------------------------------
  // Insertion-ordered grouping
  // ---------------------------------------------------------------------------

  /** The elements of `s` whose category is `c`, in order: the list kept under key `c`. */
  function Group<T, K(==)>(s: seq<T>, cat: T -> K, c: K): (r: seq<T>)
    ensures |r| <= |s|
  {
    if s == [] then []
    else Group(s[..|s| - 1], cat, c) + (if cat(s[|s| - 1]) == c then [s[|s| - 1]] else [])
  }

  lemma GroupSnoc<T, K>(s: seq<T>, i: nat, cat: T -> K)
    requires i < |s|
    ensures forall c :: Group(s[..i + 1], cat, c) == Group(s[..i], cat, c) + (if cat(s[i]) == c then [s[i]] else [])
  {
    assert s[..i + 1][..i] == s[..i];
  }

  /** Each element lands in the group of its own category, as often as it occurs, and in no other. */
  lemma {:induction false} GroupOccurrences<T, K>(s: seq<T>, cat: T -> K, c: K, x: T)
    ensures multiset(Group(s, cat, c))[x] == if cat(x) == c then multiset(s)[x] else 0
  {
    if s != [] {
      GroupOccurrences(s[..|s| - 1], cat, c, x);
      assert s == s[..|s| - 1] + [s[|s| - 1]];
    }
  }

  lemma {:induction false} GroupAbsent<T(!new), K(!new)>(s: seq<T>, cat: T -> K, c: K)
    requires c !in KeysOf(s, cat)
    ensures Group(s, cat, c) == []
  {
    if s != [] {
      assert s[|s| - 1] in s;
      assert forall x :: x in s[..|s| - 1] ==> x in s;
      GroupAbsent(s[..|s| - 1], cat, c);
    }
  }

  /**
   * The loop `for x in s: groups.setdefault(cat(x), []).append(x)` (written in the source
   * as an `if c not in groups: groups[c] = []` followed by an append).
   */
  method GroupBy<T(!new), K(==,!new)>(s: seq<T>, cat: T -> K) returns (order: seq<K>, groups: map<K, seq<T>>)
    ensures order == KeysOf(s, cat)
    ensures forall c :: c in groups <==> c in order
    ensures forall c :: c in groups ==> groups[c] == Group(s, cat, c)
  {
    order, groups := [], map[];
    for i := 0 to |s|
      invariant order == KeysOf(s[..i], cat)
      invariant forall c :: c in groups <==> c in order
      invariant forall c :: c in groups ==> groups[c] == Group(s[..i], cat, c)
    {
      var c := cat(s[i]);
      KeysOfSnoc(s, i, cat);
      GroupSnoc(s, i, cat);
      if c !in groups {
        GroupAbsent(s[..i], cat, c);
        order := order + [c];
        groups := groups[c := []];
      }
      groups := groups[c := groups[c] + [s[i]]];
    }
    assert s[..|s|] == s;
  }

  /** The total size of the groups named in `ks`. */
  function GroupSizes<T, K(==)>(s: seq<T>, cat: T -> K, ks: seq<K>): nat
  {
    if ks == [] then 0 else |Group(s, cat, ks[0])| + GroupSizes(s, cat, ks[1..])
  }

  /** How many entries of `ks` equal `c`. */
  function Hits<K(==)>(c: K, ks: seq<K>): nat
  {
    if ks == [] then 0 else (if ks[0] == c then 1 else 0) + Hits(c, ks[1..])
  }

  lemma {:induction false} HitsOnce<K>(c: K, ks: seq<K>)
    requires c in ks
    requires forall i, j :: 0 <= i < j < |ks| ==> ks[i] != ks[j]
    ensures Hits(c, ks) == 1
  {
    if ks[0] == c {
      HitsNone(c, ks[1..]);
    } else {
      HitsOnce(c, ks[1..]);
    }
  }

  lemma {:induction false} HitsNone<K>(c: K, ks: seq<K>)
    requires c !in ks
    ensures Hits(c, ks) == 0
  {
    if ks != [] {
      HitsNone(c, ks[1..]);
    }
  }

  lemma {:induction false} GroupSizesSnoc<T, K>(s: seq<T>, cat: T -> K, ks: seq<K>)
    requires s != []
    ensures GroupSizes(s, cat, ks) == GroupSizes(s[..|s| - 1], cat, ks) + Hits(cat(s[|s| - 1]), ks)
  {
    if ks != [] {
      GroupSizesSnoc(s, cat, ks[1..]);
    }
  }

  /**
   * Groups over a duplicate-free list of categories that covers every element hold every
   * element exactly once: their sizes add up to `|s|`.
   */
  lemma {:induction false} GroupsPartition<T, K>(s: seq<T>, cat: T -> K, ks: seq<K>)
    requires forall i, j :: 0 <= i < j < |ks| ==> ks[i] != ks[j]
    requires forall x :: x in s ==> cat(x) in ks
    ensures GroupSizes(s, cat, ks) == |s|
  {
    if s == [] {
      GroupSizesEmpty(cat, ks);
    } else {
      assert forall x :: x in s[..|s| - 1] ==> x in s;
      GroupsPartition(s[..|s| - 1], cat, ks);
      GroupSizesSnoc(s, cat, ks);
      HitsOnce(cat(s[|s| - 1]), ks);
    }
  }

  lemma {:induction false} GroupSizesEmpty<T, K>(cat: T -> K, ks: seq<K>)
    ensures GroupSizes([], cat, ks) == 0
  {
    if ks != [] {
      GroupSizesEmpty(cat, ks[1..]);
    }
  }

  ghost predicate NoDup<T>(s: seq<T>)
  {
    forall i, j :: 0 <= i < j < |s| ==> s[i] != s[j]
  }
}
