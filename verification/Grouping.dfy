/** Splitting a log by a key: the groups of a sequence, the keys it mentions, and sums over it.
    Everything recurses on the last element, so that it follows a loop that appends. */
module Grouping {
  function Last<T>(xs: seq<T>): T
    requires xs != []
  {
    xs[|xs| - 1]
  }

  function Front<T>(xs: seq<T>): seq<T>
    requires xs != []
  {
    xs[..|xs| - 1]
  }

  /** The elements of `xs` whose key is `k`, in order. */
  function Select<T, K(==)>(xs: seq<T>, key: T -> K, k: K): seq<T> {
    if xs == [] then []
    else if key(Last(xs)) == k then Select(Front(xs), key, k) + [Last(xs)]
    else Select(Front(xs), key, k)
  }

  /** The keys that occur in `xs`. */
  function Keys<T, K(==)>(xs: seq<T>, key: T -> K): set<K> {
    if xs == [] then {} else Keys(Front(xs), key) + {key(Last(xs))}
  }

  /** The keys of `xs`, each once, in the order they first occur. */
  function FirstSeen<T, K(==)>(xs: seq<T>, key: T -> K): seq<K> {
    if xs == [] then []
    else
      var before := FirstSeen(Front(xs), key);
      if key(Last(xs)) in before then before else before + [key(Last(xs))]
  }

  function Sum<T>(xs: seq<T>, weight: T -> int): int {
    if xs == [] then 0 else Sum(Front(xs), weight) + weight(Last(xs))
  }

  function SumReal<T>(xs: seq<T>, weight: T -> real): real {
    if xs == [] then 0.0 else SumReal(Front(xs), weight) + weight(Last(xs))
  }

  ghost predicate Distinct<T>(xs: seq<T>) {
    forall i, j :: 0 <= i < j < |xs| ==> xs[i] != xs[j]
  }

  ghost predicate DistinctKeys<T, K>(xs: seq<T>, key: T -> K) {
    forall i, j :: 0 <= i < j < |xs| ==> key(xs[i]) != key(xs[j])
  }

  lemma {:induction false} Snoc<T>(xs: seq<T>, i: nat)
    requires i < |xs|
    ensures xs[..i + 1] == xs[..i] + [xs[i]]
    ensures xs[..i + 1] != [] && Front(xs[..i + 1]) == xs[..i] && Last(xs[..i + 1]) == xs[i]
  {
  }

  lemma {:induction false} SelectSnoc<T, K>(xs: seq<T>, x: T, key: T -> K, k: K)
    ensures Select(xs + [x], key, k) == if key(x) == k then Select(xs, key, k) + [x] else Select(xs, key, k)
  {
    assert Front(xs + [x]) == xs;
  }

  lemma {:induction false} SelectAppend<T, K>(xs: seq<T>, ys: seq<T>, key: T -> K, k: K)
    ensures Select(xs + ys, key, k) == Select(xs, key, k) + Select(ys, key, k)
  {
    if ys == [] {
      assert xs + ys == xs;
    } else {
      assert Front(xs + ys) == xs + Front(ys);
      SelectAppend(xs, Front(ys), key, k);
    }
  }

  /** A group holds exactly the elements of the log that carry its key. */
  lemma {:induction false} SelectMembers<T, K>(xs: seq<T>, key: T -> K, k: K)
    ensures forall x :: x in Select(xs, key, k) <==> x in xs && key(x) == k
    ensures |Select(xs, key, k)| <= |xs|
  {
    if xs == [] {
    } else {
      assert xs == Front(xs) + [Last(xs)];
      SelectMembers(Front(xs), key, k);
    }
  }

  lemma {:induction false} KeysMembers<T, K>(xs: seq<T>, key: T -> K)
    ensures forall k :: k in Keys(xs, key) <==> exists x :: x in xs && key(x) == k
  {
    if xs == [] {
    } else {
      KeysMembers(Front(xs), key);
      assert xs == Front(xs) + [Last(xs)];
    }
  }

  lemma {:induction false} KeysSnoc<T, K>(xs: seq<T>, x: T, key: T -> K)
    ensures Keys(xs + [x], key) == Keys(xs, key) + {key(x)}
  {
    assert Front(xs + [x]) == xs;
  }

  lemma {:induction false} KeyOccurs<T, K>(xs: seq<T>, key: T -> K, k: K)
    ensures k in Keys(xs, key) <==> Select(xs, key, k) != []
  {
    if xs == [] {
    } else {
      KeyOccurs(Front(xs), key, k);
    }
  }

  lemma {:induction false} FirstSeenKeys<T, K>(xs: seq<T>, key: T -> K)
    ensures Distinct(FirstSeen(xs, key))
    ensures forall k :: k in FirstSeen(xs, key) ==> k in Keys(xs, key)
    ensures forall k :: k in Keys(xs, key) ==> k in FirstSeen(xs, key)
    ensures |FirstSeen(xs, key)| == |Keys(xs, key)|
  {
    if xs == [] {
    } else {
      FirstSeenKeys(Front(xs), key);
      var before, k := FirstSeen(Front(xs), key), key(Last(xs));
      if k in before {
        assert Keys(Front(xs), key) + {k} == Keys(Front(xs), key);
      } else {
        assert k !in Keys(Front(xs), key);
        assert FirstSeen(xs, key) == before + [k];
      }
    }
  }

  lemma {:induction false} FirstSeenHas<T, K>(xs: seq<T>, key: T -> K, k: K)
    ensures k in FirstSeen(xs, key) <==> k in Keys(xs, key)
  {
    FirstSeenKeys(xs, key);
  }

  /** The `n`-th element of a group sits at some place of the log with the group so far before it. */
  lemma {:induction false} Locate<T, K>(xs: seq<T>, key: T -> K, k: K, n: nat) returns (j: nat)
    requires n < |Select(xs, key, k)|
    ensures j < |xs| && xs[j] == Select(xs, key, k)[n]
    ensures Select(xs[..j], key, k) == Select(xs, key, k)[..n]
  {
    var before := Select(Front(xs), key, k);
    if n < |before| {
      j := Locate(Front(xs), key, k, n);
      assert Front(xs)[..j] == xs[..j];
    } else {
      j := |xs| - 1;
      assert xs[..j] == Front(xs);
    }
  }

  lemma {:induction false} SelectPrefix<T, K>(xs: seq<T>, i: nat, key: T -> K, k: K)
    requires i <= |xs|
    ensures Select(xs[..i], key, k) <= Select(xs, key, k)
  {
    assert xs == xs[..i] + xs[i..];
    SelectAppend(xs[..i], xs[i..], key, k);
  }

  lemma {:induction false} SumAppend<T>(xs: seq<T>, ys: seq<T>, weight: T -> int)
    ensures Sum(xs + ys, weight) == Sum(xs, weight) + Sum(ys, weight)
  {
    if ys == [] {
      assert xs + ys == xs;
    } else {
      assert Front(xs + ys) == xs + Front(ys);
      SumAppend(xs, Front(ys), weight);
    }
  }

  lemma {:induction false} SumRealAppend<T>(xs: seq<T>, ys: seq<T>, weight: T -> real)
    ensures SumReal(xs + ys, weight) == SumReal(xs, weight) + SumReal(ys, weight)
  {
    if ys == [] {
      assert xs + ys == xs;
    } else {
      assert Front(xs + ys) == xs + Front(ys);
      SumRealAppend(xs, Front(ys), weight);
    }
  }

  lemma {:induction false} SumBounds<T>(xs: seq<T>, low: T -> int, high: T -> int)
    requires forall x :: x in xs ==> low(x) <= high(x)
    ensures Sum(xs, low) <= Sum(xs, high)
  {
    if xs == [] {
    } else {
      assert xs == Front(xs) + [Last(xs)];
      SumBounds(Front(xs), low, high);
    }
  }

  /** The last element of a sequence, found in a permutation of it and taken out there. */
  lemma {:induction false} TakeOut<T>(xs: seq<T>, ys: seq<T>) returns (j: nat)
    requires xs != [] && multiset(xs) == multiset(ys)
    ensures j < |ys| && ys[j] == Last(xs)
    ensures multiset(Front(xs)) == multiset(ys[..j] + ys[j + 1..])
  {
    assert xs == Front(xs) + [Last(xs)];
    assert Last(xs) in multiset(ys);
    j :| 0 <= j < |ys| && ys[j] == Last(xs);
    WithoutOne(ys, j);
    assert multiset(xs) == multiset(Front(xs)) + multiset{Last(xs)};
    assert multiset(Front(xs)) == multiset(xs) - multiset{Last(xs)};
  }

  lemma {:induction false} WithoutOne<T>(ys: seq<T>, j: nat)
    requires j < |ys|
    ensures multiset(ys) == multiset(ys[..j] + ys[j + 1..]) + multiset{ys[j]}
  {
    assert ys == ys[..j] + [ys[j]] + ys[j + 1..];
  }

  /** Permutations have the same members. */
  lemma {:induction false} SameMembers<T>(xs: seq<T>, ys: seq<T>)
    requires multiset(xs) == multiset(ys)
    ensures forall x :: x in xs <==> x in ys
  {
    assert forall x :: x in xs <==> x in multiset(xs);
    assert forall x :: x in ys <==> x in multiset(ys);
  }

  /** A permutation of a sequence without repeats has none. */
  lemma {:induction false} DistinctPermutes<T>(xs: seq<T>, ys: seq<T>)
    requires Distinct(xs) && multiset(xs) == multiset(ys)
    ensures Distinct(ys)
  {
    forall i, j | 0 <= i < j < |ys|
      ensures ys[i] != ys[j]
    {
      if ys[i] == ys[j] {
        var rest := ys[..i] + ys[i + 1..];
        assert rest[j - 1] == ys[i];
        assert ys[i] in multiset(rest);
        WithoutOne(ys, i);
        OnceEach(xs, ys[i]);
      }
    }
  }

  lemma {:induction false} OnceEach<T>(xs: seq<T>, x: T)
    requires Distinct(xs)
    ensures multiset(xs)[x] <= 1
  {
    if xs == [] {
    } else {
      assert xs == Front(xs) + [Last(xs)];
      OnceEach(Front(xs), x);
    }
  }

  lemma {:induction false} SumTakeOut<T>(xs: seq<T>, j: nat, weight: T -> int)
    requires j < |xs|
    ensures Sum(xs, weight) == Sum(xs[..j] + xs[j + 1..], weight) + weight(xs[j])
  {
    assert xs == (xs[..j] + [xs[j]]) + xs[j + 1..];
    assert Front(xs[..j] + [xs[j]]) == xs[..j];
    SumAppend(xs[..j] + [xs[j]], xs[j + 1..], weight);
    SumAppend(xs[..j], xs[j + 1..], weight);
  }

  /** Sums do not depend on the order of the elements. */
  lemma {:induction false} SumPermutation<T>(xs: seq<T>, ys: seq<T>, weight: T -> int)
    requires multiset(xs) == multiset(ys)
    ensures Sum(xs, weight) == Sum(ys, weight)
  {
    if xs == [] {
      assert |multiset(ys)| == 0;
    } else {
      var j := TakeOut(xs, ys);
      SumTakeOut(ys, j, weight);
      SumPermutation(Front(xs), ys[..j] + ys[j + 1..], weight);
    }
  }

  lemma {:induction false} SumRealTakeOut<T>(xs: seq<T>, j: nat, weight: T -> real)
    requires j < |xs|
    ensures SumReal(xs, weight) == SumReal(xs[..j] + xs[j + 1..], weight) + weight(xs[j])
  {
    assert xs == (xs[..j] + [xs[j]]) + xs[j + 1..];
    assert Front(xs[..j] + [xs[j]]) == xs[..j];
    SumRealAppend(xs[..j] + [xs[j]], xs[j + 1..], weight);
    SumRealAppend(xs[..j], xs[j + 1..], weight);
  }

  /** Sums do not depend on the order of the elements. */
  lemma {:induction false} SumRealPermutation<T>(xs: seq<T>, ys: seq<T>, weight: T -> real)
    requires multiset(xs) == multiset(ys)
    ensures SumReal(xs, weight) == SumReal(ys, weight)
  {
    if xs == [] {
      assert |multiset(ys)| == 0;
    } else {
      var j := TakeOut(xs, ys);
      SumRealTakeOut(ys, j, weight);
      SumRealPermutation(Front(xs), ys[..j] + ys[j + 1..], weight);
    }
  }

  /** Two logs have the same elements for every key, in the same order: one interleaves what the other does. */
  ghost predicate SameGroups<T, K(!new)>(xs: seq<T>, ys: seq<T>, key: T -> K) {
    forall k :: Select(xs, key, k) == Select(ys, key, k)
  }

  lemma {:induction false} SelectCount<T, K>(xs: seq<T>, key: T -> K, k: K, x: T)
    ensures multiset(Select(xs, key, k))[x] == if key(x) == k then multiset(xs)[x] else 0
  {
    if xs == [] {
    } else {
      assert xs == Front(xs) + [Last(xs)];
      SelectCount(Front(xs), key, k, x);
    }
  }

  lemma {:induction false} SelectPermutation<T(!new), K>(xs: seq<T>, ys: seq<T>, key: T -> K, k: K)
    requires multiset(xs) == multiset(ys)
    ensures multiset(Select(xs, key, k)) == multiset(Select(ys, key, k))
  {
    forall x: T
      ensures multiset(Select(xs, key, k))[x] == multiset(Select(ys, key, k))[x]
    {
      SelectCount(xs, key, k, x);
      SelectCount(ys, key, k, x);
    }
  }

  /** Interleavings of the same groups are permutations of each other. */
  lemma {:induction false} SameGroupsPermute<T(!new), K(!new)>(xs: seq<T>, ys: seq<T>, key: T -> K)
    requires SameGroups(xs, ys, key)
    ensures multiset(xs) == multiset(ys)
    ensures Keys(xs, key) == Keys(ys, key)
  {
    forall x: T
      ensures multiset(xs)[x] == multiset(ys)[x]
    {
      SelectCount(xs, key, key(x), x);
      SelectCount(ys, key, key(x), x);
      assert Select(xs, key, key(x)) == Select(ys, key, key(x));
    }
    forall k
      ensures k in Keys(xs, key) <==> k in Keys(ys, key)
    {
      KeyOccurs(xs, key, k);
      KeyOccurs(ys, key, k);
      assert Select(xs, key, k) == Select(ys, key, k);
    }
  }

  lemma {:induction false} SelectKeys<T, K, J>(xs: seq<T>, key: T -> K, k: K, other: T -> J)
    ensures Keys(Select(xs, key, k), other) <= Keys(xs, other)
  {
    if xs == [] {
    } else {
      SelectKeys(Front(xs), key, k, other);
      assert Front(Select(Front(xs), key, k) + [Last(xs)]) == Select(Front(xs), key, k);
    }
  }

  /** What `f` makes of each group. */
  function GroupMap<T, K, V>(xs: seq<T>, key: T -> K, f: seq<T> -> V): map<K, V> {
    map k | k in Keys(xs, key) :: f(Select(xs, key, k))
  }

  /** Appending one element changes the value of its own group only. */
  lemma {:induction false} GroupMapStep<T, K, V>(xs: seq<T>, x: T, key: T -> K, f: seq<T> -> V)
    ensures GroupMap(xs + [x], key, f) == GroupMap(xs, key, f)[key(x) := f(Select(xs, key, key(x)) + [x])]
  {
    KeysSnoc(xs, x, key);
    forall k | k in Keys(xs + [x], key)
      ensures Select(xs + [x], key, k) == if k == key(x) then Select(xs, key, k) + [x] else Select(xs, key, k)
    {
      SelectSnoc(xs, x, key, k);
    }
  }
}

/** Sums over the values of a map, taken in an unknown order as a range over a Go map is. */
module MapSums {
  import opened Grouping

  ghost function SumMap<K>(m: map<K, int>): int {
    if m.Keys == {} then 0
    else
      var k :| k in m.Keys;
      m[k] + SumMap(m - {k})
  }

  ghost function SumMapReal<K>(m: map<K, real>): real {
    if m.Keys == {} then 0.0
    else
      var k :| k in m.Keys;
      m[k] + SumMapReal(m - {k})
  }

  lemma {:induction false} SumMapPick<K>(m: map<K, int>, k: K)
    requires k in m
    ensures SumMap(m) == m[k] + SumMap(m - {k})
  {
    var p :| p in m.Keys && SumMap(m) == m[p] + SumMap(m - {p});
    if p != k {
      SumMapPick(m - {p}, k);
      SumMapPick(m - {k}, p);
      assert m - {p} - {k} == m - {k} - {p};
    }
  }

  lemma {:induction false} SumMapRealPick<K>(m: map<K, real>, k: K)
    requires k in m
    ensures SumMapReal(m) == m[k] + SumMapReal(m - {k})
  {
    var p :| p in m.Keys && SumMapReal(m) == m[p] + SumMapReal(m - {p});
    if p != k {
      SumMapRealPick(m - {p}, k);
      SumMapRealPick(m - {k}, p);
      assert m - {p} - {k} == m - {k} - {p};
    }
  }

  /** Changing the value at one key changes the sum by the difference. */
  lemma {:induction false} SumMapUpdate<K>(m: map<K, int>, k: K, v: int)
    ensures SumMap(m[k := v]) == SumMap(m) + v - (if k in m then m[k] else 0)
  {
    SumMapPick(m[k := v], k);
    assert m[k := v] - {k} == m - {k};
    if k in m {
      SumMapPick(m, k);
    } else {
      assert m - {k} == m;
    }
  }

  lemma {:induction false} SumMapRealUpdate<K>(m: map<K, real>, k: K, v: real)
    ensures SumMapReal(m[k := v]) == SumMapReal(m) + v - (if k in m then m[k] else 0.0)
  {
    SumMapRealPick(m[k := v], k);
    assert m[k := v] - {k} == m - {k};
    if k in m {
      SumMapRealPick(m, k);
    } else {
      assert m - {k} == m;
    }
  }

  lemma {:induction false} SumMapBounds<K>(low: map<K, int>, high: map<K, int>)
    requires low.Keys == high.Keys
    requires forall k :: k in low ==> low[k] <= high[k]
    ensures SumMap(low) <= SumMap(high)
    decreases |low.Keys|
  {
    if low.Keys == {} {
    } else {
      var k :| k in low.Keys;
      SumMapPick(low, k);
      SumMapPick(high, k);
      SumMapBounds(low - {k}, high - {k});
    }
  }

  /** Go's `m[k] += v`. */
  function Add<K>(m: map<K, int>, k: K, v: int): map<K, int> {
    m[k := (if k in m then m[k] else 0) + v]
  }

  function AddReal<K>(m: map<K, real>, k: K, v: real): map<K, real> {
    m[k := (if k in m then m[k] else 0.0) + v]
  }

  /** The total weight of each group. */
  function GroupTotals<T, K>(xs: seq<T>, key: T -> K, weight: T -> int): map<K, int> {
    map k | k in Keys(xs, key) :: Sum(Select(xs, key, k), weight)
  }

  function GroupTotalsReal<T, K>(xs: seq<T>, key: T -> K, weight: T -> real): map<K, real> {
    map k | k in Keys(xs, key) :: SumReal(Select(xs, key, k), weight)
  }

  lemma {:induction false} GroupTotalStep<T, K>(xs: seq<T>, x: T, key: T -> K, weight: T -> int, k: K)
    ensures Sum(Select(xs + [x], key, k), weight)
         == Sum(Select(xs, key, k), weight) + (if key(x) == k then weight(x) else 0)
  {
    SelectSnoc(xs, x, key, k);
    assert Front(Select(xs, key, k) + [x]) == Select(xs, key, k);
  }

  /** Appending one element adds its weight to its group, which may be new, as Go's `m[k] += w` does. */
  lemma {:induction false} GroupTotalsStep<T, K>(xs: seq<T>, x: T, key: T -> K, weight: T -> int)
    ensures GroupTotals(xs + [x], key, weight) == Add(GroupTotals(xs, key, weight), key(x), weight(x))
  {
    var before, after := GroupTotals(xs, key, weight), GroupTotals(xs + [x], key, weight);
    KeysSnoc(xs, x, key);
    forall k | k in after
      ensures after[k] == Add(before, key(x), weight(x))[k]
    {
      GroupTotalStep(xs, x, key, weight, k);
      if k !in before {
        KeyOccurs(xs, key, k);
      }
    }
  }

  lemma {:induction false} GroupTotalRealStep<T, K>(xs: seq<T>, x: T, key: T -> K, weight: T -> real, k: K)
    ensures SumReal(Select(xs + [x], key, k), weight)
         == SumReal(Select(xs, key, k), weight) + (if key(x) == k then weight(x) else 0.0)
  {
    SelectSnoc(xs, x, key, k);
    assert Front(Select(xs, key, k) + [x]) == Select(xs, key, k);
  }

  /** Appending one element adds its weight to its group, which may be new, as Go's `m[k] += w` does. */
  lemma {:induction false} GroupTotalsRealStep<T, K>(xs: seq<T>, x: T, key: T -> K, weight: T -> real)
    ensures GroupTotalsReal(xs + [x], key, weight) == AddReal(GroupTotalsReal(xs, key, weight), key(x), weight(x))
  {
    var before, after := GroupTotalsReal(xs, key, weight), GroupTotalsReal(xs + [x], key, weight);
    KeysSnoc(xs, x, key);
    forall k | k in after
      ensures after[k] == AddReal(before, key(x), weight(x))[k]
    {
      GroupTotalRealStep(xs, x, key, weight, k);
      if k !in before {
        KeyOccurs(xs, key, k);
      }
    }
  }

  /** No element is lost or counted twice by grouping: the group totals add up to the total. */
  lemma {:induction false} Partition<T, K>(xs: seq<T>, key: T -> K, weight: T -> int)
    ensures SumMap(GroupTotals(xs, key, weight)) == Sum(xs, weight)
  {
    if xs == [] {
    } else {
      var before, k := GroupTotals(Front(xs), key, weight), key(Last(xs));
      Partition(Front(xs), key, weight);
      assert xs == Front(xs) + [Last(xs)];
      GroupTotalsStep(Front(xs), Last(xs), key, weight);
      SumMapUpdate(before, k, GroupTotals(xs, key, weight)[k]);
    }
  }

  lemma {:induction false} PartitionReal<T, K>(xs: seq<T>, key: T -> K, weight: T -> real)
    ensures SumMapReal(GroupTotalsReal(xs, key, weight)) == SumReal(xs, weight)
  {
    if xs == [] {
    } else {
      var before, k := GroupTotalsReal(Front(xs), key, weight), key(Last(xs));
      PartitionReal(Front(xs), key, weight);
      assert xs == Front(xs) + [Last(xs)];
      GroupTotalsRealStep(Front(xs), Last(xs), key, weight);
      SumMapRealUpdate(before, k, GroupTotalsReal(xs, key, weight)[k]);
    }
  }
}
