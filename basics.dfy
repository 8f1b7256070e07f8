/** Small shared vocabulary: optional values and signed sums over sequences. */
module Basics {

  /** A value that may be absent (a nullable column, a missing request key). */
  datatype Option<+T> = None | Some(value: T) {
    /** The value, or `default` when absent (Python's `x or default` for non-falsy x). */
    function GetOr(default: T): T {
      match this
      case Some(v) => v
      case None => default
    }

    /** This value when present, `other` otherwise (`data.get(k, current)` for an optional key). */
    function Or(other: Option<T>): Option<T> {
      if Some? then this else other
    }
  }

  /** Sum of a sequence of integers (an aggregate `Sum` of an integer column, 0 when empty). */
  function Sum(xs: seq<int>): int {
    if xs == [] then 0 else Sum(xs[..|xs| - 1]) + xs[|xs| - 1]
  }

  lemma {:induction false} SumAppend(xs: seq<int>, ys: seq<int>)
    ensures Sum(xs + ys) == Sum(xs) + Sum(ys)
    decreases |ys|
  {
    if ys == [] {
      assert xs + ys == xs;
    } else {
      var zs := ys[..|ys| - 1];
      assert (xs + ys)[..|xs + ys| - 1] == xs + zs;
      SumAppend(xs, zs);
    }
  }

  lemma SumSingle(x: int)
    ensures Sum([x]) == x
  {
    assert [x][..0] == [];
  }

  lemma {:induction false} SumCons(x: int, xs: seq<int>)
    ensures Sum([x] + xs) == x + Sum(xs)
  {
    SumAppend([x], xs);
    SumSingle(x);
  }

  /** A sum of non-negative numbers is non-negative. */
  lemma {:induction false} SumNonNegative(xs: seq<int>)
    requires forall i :: 0 <= i < |xs| ==> xs[i] >= 0
    ensures Sum(xs) >= 0
    decreases |xs|
  {
    if xs != [] {
      SumNonNegative(xs[..|xs| - 1]);
    }
  }

  /**
   * The integer nearest to `n / d`, a tie going to the even neighbour: `quantize` under
   * Decimal's default half-even rounding.
   */
  function HalfEven(n: int, d: int): (q: int)
    requires d > 0
    ensures -d <= 2 * (n - q * d) <= d
    ensures 2 * (n - q * d) == d || 2 * (n - q * d) == -d ==> q % 2 == 0
  {
    var q := n / d;
    var r := n % d;
    DivStep(n, d);
    if 2 * r > d || (2 * r == d && q % 2 == 1) then
      var up := q + 1;
      assert n - up * d == r - d;
      up
    else
      assert n - q * d == r;
      q
  }

  lemma DivStep(n: int, d: int)
    requires d > 0
    ensures n - (n / d) * d == n % d && 0 <= n % d < d
    ensures n - (n / d + 1) * d == n % d - d
  {
    assert (n / d + 1) * d == (n / d) * d + d;
  }

  /** Number of elements of `xs` that satisfy `p`. */
  function Count<T>(xs: seq<T>, p: T -> bool): (n: nat)
    ensures n <= |xs|
  {
    if xs == [] then 0 else Count(xs[..|xs| - 1], p) + (if p(xs[|xs| - 1]) then 1 else 0)
  }

  /** An element that passes the test makes the count positive. */
  lemma {:induction false} CountPositive<T>(xs: seq<T>, p: T -> bool, x: T)
    requires x in xs && p(x)
    ensures Count(xs, p) > 0
    decreases |xs|
  {
    var init := xs[..|xs| - 1];
    if xs[|xs| - 1] != x {
      assert xs == init + [xs[|xs| - 1]];
      CountPositive(init, p, x);
    }
  }

  /** Appending in two steps is appending the two parts together. */
  lemma AppendAssoc<T>(a: seq<T>, b: seq<T>, c: seq<T>)
    ensures (a + b) + c == a + (b + c)
  {
  }

  /** A second write to the same key replaces the first. */
  lemma UpdateTwice<K, V>(m: map<K, V>, k: K, a: V, b: V)
    ensures m[k := a][k := b] == m[k := b]
  {
  }

  lemma {:induction false} CountAppend<T>(xs: seq<T>, ys: seq<T>, p: T -> bool)
    ensures Count(xs + ys, p) == Count(xs, p) + Count(ys, p)
    decreases |ys|
  {
    if ys != [] {
      var zs := ys[..|ys| - 1];
      assert (xs + ys)[..|xs + ys| - 1] == xs + zs;
      CountAppend(xs, zs, p);
    } else {
      assert xs + ys == xs;
    }
  }

  /** The elements of `xs` that satisfy `p`, in order (a queryset `filter`). */
  function Filter<T>(xs: seq<T>, p: T -> bool): (r: seq<T>)
    ensures |r| == Count(xs, p)
    ensures forall i :: 0 <= i < |r| ==> p(r[i])
    ensures multiset(r) <= multiset(xs)
  {
    if xs == [] then []
    else
      var rest := Filter(xs[..|xs| - 1], p);
      assert xs == xs[..|xs| - 1] + [xs[|xs| - 1]];
      if p(xs[|xs| - 1]) then rest + [xs[|xs| - 1]] else rest
  }

  lemma {:induction false} FilterMembership<T>(xs: seq<T>, p: T -> bool, x: T)
    ensures x in Filter(xs, p) <==> x in xs && p(x)
    decreases |xs|
  {
    if xs != [] {
      FilterMembership(xs[..|xs| - 1], p, x);
      assert xs == xs[..|xs| - 1] + [xs[|xs| - 1]];
    }
  }

  lemma {:induction false} FilterAppend<T>(xs: seq<T>, ys: seq<T>, p: T -> bool)
    ensures Filter(xs + ys, p) == Filter(xs, p) + Filter(ys, p)
    decreases |ys|
  {
    if ys == [] {
      assert xs + ys == xs;
    } else {
      var zs := ys[..|ys| - 1];
      assert (xs + ys)[..|xs + ys| - 1] == xs + zs;
      FilterAppend(xs, zs, p);
    }
  }

  /** Filtering a list that starts with `x` keeps `x` in front exactly when it passes. */
  lemma FilterCons<T>(x: T, xs: seq<T>, p: T -> bool)
    ensures Filter([x] + xs, p) == (if p(x) then [x] else []) + Filter(xs, p)
  {
    assert Filter([x], p) == (if p(x) then [x] else []) by {
      assert [x][..0] == [];
    }
    FilterAppend([x], xs, p);
  }

  /** Apply `f` to every element (a list comprehension / `map`). */
  function MapSeq<T, U>(xs: seq<T>, f: T -> U): (r: seq<U>)
    ensures |r| == |xs|
    ensures forall i :: 0 <= i < |xs| ==> r[i] == f(xs[i])
  {
    if xs == [] then [] else MapSeq(xs[..|xs| - 1], f) + [f(xs[|xs| - 1])]
  }

  /**
   * Lookup in an insertion-ordered dictionary literal given as key/value pairs
   * (Python's `dict.get`, JavaScript's `obj[key]`): the first entry with that key.
   */
  function Lookup<K(==), V>(entries: seq<(K, V)>, key: K): Option<V> {
    if entries == [] then None
    else if entries[0].0 == key then Some(entries[0].1)
    else Lookup(entries[1..], key)
  }

  /** A lookup misses exactly when no entry has the key, and a hit is one of the entries. */
  lemma {:induction false} LookupMeaning<K, V>(entries: seq<(K, V)>, key: K)
    ensures Lookup(entries, key).None? <==> forall i :: 0 <= i < |entries| ==> entries[i].0 != key
    ensures Lookup(entries, key).Some? ==>
      exists i :: 0 <= i < |entries| && entries[i] == (key, Lookup(entries, key).value)
  {
    if entries != [] && entries[0].0 != key {
      LookupMeaning(entries[1..], key);
      if Lookup(entries, key).Some? {
        var i :| 0 <= i < |entries[1..]| && entries[1..][i] == (key, Lookup(entries, key).value);
        assert entries[i + 1] == entries[1..][i];
      }
    } else if entries != [] {
      assert entries[0] == (key, Lookup(entries, key).value);
    }
  }

  /** The entry at `i` is the first with its key, so the lookup finds its value. */
  lemma {:induction false} LookupAt<K, V>(entries: seq<(K, V)>, i: nat, key: K)
    requires i < |entries| && entries[i].0 == key
    requires forall j :: 0 <= j < i ==> entries[j].0 != key
    ensures Lookup(entries, key) == Some(entries[i].1)
  {
    if i > 0 {
      LookupAt(entries[1..], i - 1, key);
    }
  }

  /** The keys of a dictionary literal in insertion order (`Object.keys`, `dict.keys()`). */
  function Keys<K, V>(entries: seq<(K, V)>): (ks: seq<K>)
    ensures |ks| == |entries|
    ensures forall i :: 0 <= i < |entries| ==> ks[i] == entries[i].0
  {
    if entries == [] then [] else [entries[0].0] + Keys(entries[1..])
  }

  /** No element of `xs` occurs twice. */
  predicate Distinct<T(==)>(xs: seq<T>) {
    forall i, j :: 0 <= i < j < |xs| ==> xs[i] != xs[j]
  }

  /** A list without repeats: its prefix has none, and its last element is not in the prefix. */
  lemma DistinctInit<T>(xs: seq<T>)
    requires xs != [] && Distinct(xs)
    ensures Distinct(xs[..|xs| - 1]) && xs[|xs| - 1] !in xs[..|xs| - 1]
  {
  }

  /** Appending an element not yet present keeps a list without repeats. */
  lemma DistinctSnoc<T>(xs: seq<T>, x: T)
    requires Distinct(xs) && x !in xs
    ensures Distinct(xs + [x])
  {
    var r := xs + [x];
    forall i, j | 0 <= i < j < |r| ensures r[i] != r[j] {
      if j == |xs| {
        assert r[i] == xs[i];
      } else {
        assert r[i] == xs[i] && r[j] == xs[j];
      }
    }
  }

  /** `xs` is ordered by `key`, greatest first. */
  predicate SortedDesc<T>(xs: seq<T>, key: T -> int) {
    forall i, j :: 0 <= i < j < |xs| ==> key(xs[i]) >= key(xs[j])
  }

  /** Insert `x` after every element whose key is at least its own. */
  function InsertDesc<T>(x: T, xs: seq<T>, key: T -> int): (r: seq<T>)
    requires SortedDesc(xs, key)
    ensures SortedDesc(r, key)
    ensures multiset(r) == multiset(xs) + multiset{x}
    decreases |xs|
  {
    if xs == [] then [x]
    else if key(xs[0]) >= key(x) then
      var rest := InsertDesc(x, xs[1..], key);
      InsertedBelowHead(x, xs, key, rest);
      [xs[0]] + rest
    else
      ConsSorted(x, xs, key);
      [x] + xs
  }

  /** Putting the inserted tail back behind the head keeps the list sorted and the elements. */
  lemma InsertedBelowHead<T>(x: T, xs: seq<T>, key: T -> int, rest: seq<T>)
    requires SortedDesc(xs, key) && xs != [] && key(xs[0]) >= key(x)
    requires SortedDesc(rest, key) && multiset(rest) == multiset(xs[1..]) + multiset{x}
    ensures SortedDesc([xs[0]] + rest, key)
    ensures multiset([xs[0]] + rest) == multiset(xs) + multiset{x}
  {
    assert xs == [xs[0]] + xs[1..];
    forall k | 0 <= k < |rest| ensures key(rest[k]) <= key(xs[0]) {
      assert rest[k] in multiset(xs[1..]) + multiset{x};
      if rest[k] != x {
        SortedHeadBound(xs, key, rest[k]);
      }
    }
    ConsSorted(xs[0], rest, key);
  }

  /** A head whose key bounds every key of a sorted list extends it. */
  lemma ConsSorted<T>(h: T, rest: seq<T>, key: T -> int)
    requires SortedDesc(rest, key) && forall k :: 0 <= k < |rest| ==> key(rest[k]) <= key(h)
    ensures SortedDesc([h] + rest, key)
  {
  }

  /** In a list sorted greatest first, the head's key bounds every later key. */
  lemma SortedHeadBound<T>(xs: seq<T>, key: T -> int, y: T)
    requires SortedDesc(xs, key) && xs != [] && y in xs[1..]
    ensures key(xs[0]) >= key(y)
  {
    var m :| 0 <= m < |xs[1..]| && xs[1..][m] == y;
    assert xs[m + 1] == y;
  }

  /**
   * A sort, greatest key first (Python's `list.sort(key=…, reverse=True)`). Python's
   * sort is stable; the contract states the order of the keys and the permutation only.
   */
  function SortDesc<T>(xs: seq<T>, key: T -> int): (r: seq<T>)
    ensures SortedDesc(r, key)
    ensures multiset(r) == multiset(xs) && |r| == |xs|
  {
    if xs == [] then []
    else
      assert xs == xs[..|xs| - 1] + [xs[|xs| - 1]];
      var r := InsertDesc(xs[|xs| - 1], SortDesc(xs[..|xs| - 1], key), key);
      assert |r| == |multiset(r)|;
      r
  }
}
