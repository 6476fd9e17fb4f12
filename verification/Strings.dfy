/** Strings compared as Go and SQLite's BINARY collation compare them: first differing character, then length. */
module Strings {
  predicate Less(a: string, b: string) {
    b != [] && (a == [] || a[0] < b[0] || (a[0] == b[0] && Less(a[1..], b[1..])))
  }

  predicate AtMost(a: string, b: string) {
    !Less(b, a)
  }

  predicate Contains(text: string, part: string) {
    part <= text || (text != [] && Contains(text[1..], part))
  }

  lemma {:induction false} ContainsAfter(before: string, part: string, after: string)
    ensures Contains(before + part + after, part)
  {
    var text := before + part + after;
    if before == "" {
      assert part <= text;
    } else {
      assert text[1..] == before[1..] + part + after;
      ContainsAfter(before[1..], part, after);
    }
  }

  /** Where the part begins. */
  lemma {:induction false} ContainsPosition(text: string, part: string) returns (i: nat)
    requires Contains(text, part)
    ensures i + |part| <= |text| && text[i..i + |part|] == part
  {
    if part <= text {
      i := 0;
    } else {
      i := ContainsPosition(text[1..], part);
      i := i + 1;
    }
  }

  lemma {:induction false} LessIsTotal(a: string, b: string)
    ensures a == b || Less(a, b) || Less(b, a)
  {
    if a != [] && b != [] && a[0] == b[0] {
      LessIsTotal(a[1..], b[1..]);
      assert a == [a[0]] + a[1..] && b == [b[0]] + b[1..];
    }
  }

  lemma {:induction false} LessIsTransitive(a: string, b: string, c: string)
    requires Less(a, b) && Less(b, c)
    ensures Less(a, c)
  {
    if a != [] && a[0] == b[0] == c[0] {
      LessIsTransitive(a[1..], b[1..], c[1..]);
    }
  }

  lemma {:induction false} LessIsIrreflexive(a: string)
    ensures !Less(a, a)
  {
    if a == [] {
    } else {
      LessIsIrreflexive(a[1..]);
    }
  }

  lemma {:induction false} AtMostIsTransitive(a: string, b: string, c: string)
    requires AtMost(a, b) && AtMost(b, c)
    ensures AtMost(a, c)
  {
    if Less(c, a) {
      LessIsTotal(a, b);
      if a != b {
        LessIsTransitive(c, a, b);
      }
    }
  }

  lemma {:induction false} AtMostIsTotal(a: string, b: string)
    ensures AtMost(a, b) || AtMost(b, a)
  {
    if Less(a, b) && Less(b, a) {
      LessIsTransitive(a, b, a);
      LessIsIrreflexive(a);
    }
  }
}

/** The contract of Go's sort.Slice: a permutation in which nothing is ranked above what stands before it. */
module Sorting {
  ghost predicate IsRanking<T(!new)>(atMost: (T, T) -> bool) {
    && (forall a, b :: atMost(a, b) || atMost(b, a))
    && (forall a, b, c :: atMost(a, b) && atMost(b, c) ==> atMost(a, c))
  }

  ghost predicate Sorted<T>(xs: seq<T>, atMost: (T, T) -> bool) {
    forall i, j :: 0 <= i < j < |xs| ==> atMost(xs[i], xs[j])
  }

  method Sort<T(!new)>(xs: seq<T>, atMost: (T, T) -> bool) returns (ys: seq<T>)
    requires IsRanking(atMost)
    ensures multiset(ys) == multiset(xs)
    ensures Sorted(ys, atMost)
  {
    ys := [];
    for i := 0 to |xs|
      invariant multiset(ys) == multiset(xs[..i])
      invariant Sorted(ys, atMost)
    {
      ys := InsertSorted(ys, xs[i], atMost);
      assert xs[..i + 1] == xs[..i] + [xs[i]];
    }
    assert xs[..|xs|] == xs;
  }

  method InsertSorted<T(!new)>(ys: seq<T>, x: T, atMost: (T, T) -> bool) returns (zs: seq<T>)
    requires IsRanking(atMost) && Sorted(ys, atMost)
    ensures multiset(zs) == multiset(ys) + multiset{x}
    ensures Sorted(zs, atMost)
  {
    var p := 0;
    while p < |ys| && atMost(ys[p], x)
      invariant 0 <= p <= |ys|
      invariant forall i :: 0 <= i < p ==> atMost(ys[i], x)
    {
      p := p + 1;
    }
    zs := ys[..p] + [x] + ys[p..];
    assert ys == ys[..p] + ys[p..];
    InsertedSorted(ys, x, p, atMost);
  }

  lemma {:induction false} InsertedSorted<T(!new)>(ys: seq<T>, x: T, p: nat, atMost: (T, T) -> bool)
    requires IsRanking(atMost) && Sorted(ys, atMost) && p <= |ys|
    requires forall i :: 0 <= i < p ==> atMost(ys[i], x)
    requires p < |ys| ==> atMost(x, ys[p])
    ensures Sorted(ys[..p] + [x] + ys[p..], atMost)
  {
    var zs := ys[..p] + [x] + ys[p..];
    forall i, j | 0 <= i < j < |zs|
      ensures atMost(zs[i], zs[j])
    {
      var y := if j <= p then x else ys[j - 1];
      assert zs[j] == if j < p then ys[j] else y;
      if j < p {
      } else if j == p {
      } else if i < p {
        assert atMost(ys[i], ys[j - 1]);
      } else if i == p {
        assert atMost(x, ys[p]);
        assert j - 1 == p || atMost(ys[p], ys[j - 1]);
      } else {
        assert atMost(ys[i - 1], ys[j - 1]);
      }
    }
  }
}
