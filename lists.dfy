// Sequence helpers with Python's meaning: sums and means of floats,
// slices with negative bounds, and the stable `sorted(..., key=...)`.
module Lists {

  // ------------------------------------------------------- sums and means

  /** `sum(s)`, accumulated left to right. */
  function Sum(s: seq<real>): real
  {
    if |s| == 0 then 0.0 else Sum(s[..|s| - 1]) + s[|s| - 1]
  }

  lemma {:induction false} SumAppend(a: seq<real>, b: seq<real>)
    ensures Sum(a + b) == Sum(a) + Sum(b)
    decreases |b|
  {
    if |b| > 0 {
      assert (a + b)[..|a + b| - 1] == a + b[..|b| - 1];
      SumAppend(a, b[..|b| - 1]);
    } else {
      assert a + b == a;
    }
  }

  lemma {:induction false} SumBounds(s: seq<real>, lo: real, hi: real)
    requires forall i :: 0 <= i < |s| ==> lo <= s[i] <= hi
    ensures |s| as real * lo <= Sum(s) <= |s| as real * hi
  {
    if |s| > 0 {
      SumBounds(s[..|s| - 1], lo, hi);
    }
  }

  /** The arithmetic mean, and 0.0 for an empty sequence (the services' guard). */
  function Mean(s: seq<real>): real
  {
    if |s| == 0 then 0.0 else Sum(s) / (|s| as real)
  }

  /** A mean of values within [lo, hi] stays within [lo, hi]. */
  lemma MeanBounds(s: seq<real>, lo: real, hi: real)
    requires |s| > 0
    requires forall i :: 0 <= i < |s| ==> lo <= s[i] <= hi
    ensures lo <= Mean(s) <= hi
  {
    var n := |s| as real;
    SumBounds(s, lo, hi);
    assert Mean(s) - lo == (Sum(s) - n * lo) / n;
    assert hi - Mean(s) == (n * hi - Sum(s)) / n;
  }

  /** The mean of a sequence of equal values is that value. */
  lemma MeanOfConstant(s: seq<real>, v: real)
    requires |s| > 0
    requires forall i :: 0 <= i < |s| ==> s[i] == v
    ensures Mean(s) == v
  {
    MeanBounds(s, v, v);
  }

  /** `[f(x) for x in xs]`. */
  function Mapped<A, B>(xs: seq<A>, f: A -> B): (r: seq<B>)
    ensures |r| == |xs|
    ensures forall k :: 0 <= k < |xs| ==> r[k] == f(xs[k])
  {
    if |xs| == 0 then [] else Mapped(xs[..|xs| - 1], f) + [f(xs[|xs| - 1])]
  }

  lemma MappedSnoc<A, B>(xs: seq<A>, x: A, f: A -> B)
    ensures Mapped(xs + [x], f) == Mapped(xs, f) + [f(x)]
  {
    assert (xs + [x])[..|xs|] == xs;
  }

  lemma SliceOfSlice<T>(s: seq<T>, a: nat, b: nat)
    requires a + b <= |s|
    ensures s[a..][b..] == s[a + b..]
  {
  }

  /** Dropping a prefix of `a` from `a + b`, and splitting off the head of what is left. */
  lemma DropAppend<T>(a: seq<T>, b: seq<T>, i: nat)
    requires i < |a|
    ensures (a + b)[i + 1..] == a[i + 1..] + b
    ensures a[i..] == [a[i]] + a[i + 1..]
  {
  }

  /** Mapping one more element of `xs` extends the mapped prefix by its image. */
  lemma MappedStep<A, B>(xs: seq<A>, i: nat, f: A -> B)
    requires i < |xs|
    ensures Mapped(xs[..i + 1], f) == Mapped(xs[..i], f) + [f(xs[i])]
  {
    assert xs[..i + 1] == xs[..i] + [xs[i]];
    MappedSnoc(xs[..i], xs[i], f);
  }

  /** `[x for part in parts for x in part]`. */
  function Concat<T>(parts: seq<seq<T>>): seq<T>
  {
    if |parts| == 0 then [] else Concat(parts[..|parts| - 1]) + parts[|parts| - 1]
  }

  /** An element found in none of the parts is not in their concatenation. */
  lemma {:induction false} ConcatAvoids<T>(parts: seq<seq<T>>, x: T)
    requires forall k :: 0 <= k < |parts| ==> x !in parts[k]
    ensures x !in Concat(parts)
  {
    if |parts| > 0 {
      ConcatAvoids(parts[..|parts| - 1], x);
    }
  }

  lemma {:induction false} ConcatStartsWith<T>(parts: seq<seq<T>>)
    requires |parts| > 0 && |parts[0]| > 0
    ensures |Concat(parts)| > 0 && Concat(parts)[0] == parts[0][0]
  {
    if |parts| > 1 {
      ConcatStartsWith(parts[..|parts| - 1]);
    } else {
      assert Concat(parts) == Concat(parts[..0]) + parts[0];
    }
  }

  lemma {:induction false} ConcatAppend<T>(a: seq<seq<T>>, b: seq<seq<T>>)
    ensures Concat(a + b) == Concat(a) + Concat(b)
    decreases |b|
  {
    if |b| > 0 {
      assert (a + b)[..|a + b| - 1] == a + b[..|b| - 1];
      ConcatAppend(a, b[..|b| - 1]);
    } else {
      assert a + b == a;
    }
  }

  // --------------------------------------------------------------- slices

  /** Where a Python slice bound `i` lands in a sequence of length `n`. */
  function SliceIndex(i: int, n: nat): (k: nat)
    ensures k <= n
  {
    if i < 0 then (if n + i < 0 then 0 else n + i) else if i > n then n else i
  }

  /** `s[:stop]`: the first `stop` elements, or all but the last `-stop` when `stop` is negative. */
  function Take<T>(s: seq<T>, stop: int): (r: seq<T>)
    ensures 0 <= stop ==> |r| == if stop < |s| then stop else |s|
    ensures |r| <= |s| && r == s[..|r|]
  {
    s[..SliceIndex(stop, |s|)]
  }

  /** `s[start:]`; `s[-n:]` keeps the last `n` elements when `n` is positive. */
  function Drop<T>(s: seq<T>, start: int): (r: seq<T>)
    ensures start < 0 ==> |r| == if -start < |s| then -start else |s|
    ensures |r| <= |s| && r == s[|s| - |r|..]
  {
    s[SliceIndex(start, |s|)..]
  }

  // -------------------------------------------------------- stable sorting

  predicate SortedBy<T>(s: seq<T>, key: T -> real)
  {
    forall i, j :: 0 <= i < j < |s| ==> key(s[i]) <= key(s[j])
  }

  /** Inserts `x` after every element whose key is not larger, which keeps equal keys in arrival order. */
  function InsertBy<T(==)>(x: T, s: seq<T>, key: T -> real): (r: seq<T>)
    requires SortedBy(s, key)
    ensures SortedBy(r, key)
    ensures multiset(r) == multiset(s) + multiset{x}
    ensures forall k :: 0 <= k < |r| ==> r[k] == x || r[k] in s
  {
    if |s| == 0 then [x]
    else if key(x) < key(s[0]) then
      SortedCons(x, s, key);
      [x] + s
    else
      var rest := InsertBy(x, s[1..], key);
      assert forall k :: 0 <= k < |rest| ==> key(s[0]) <= key(rest[k]);
      SortedCons(s[0], rest, key);
      assert s == [s[0]] + s[1..];
      [s[0]] + rest
  }

  lemma SortedCons<T>(y: T, s: seq<T>, key: T -> real)
    requires SortedBy(s, key)
    requires forall k :: 0 <= k < |s| ==> key(y) <= key(s[k])
    ensures SortedBy([y] + s, key)
  {
    forall i, j | 0 <= i < j < |[y] + s|
      ensures key(([y] + s)[i]) <= key(([y] + s)[j])
    {
      assert ([y] + s)[j] == s[j - 1];
      if i > 0 {
        assert ([y] + s)[i] == s[i - 1];
      }
    }
  }

  /** `sorted(xs, key=key)`: Python's sort, which is stable. */
  function SortBy<T(==)>(xs: seq<T>, key: T -> real): (r: seq<T>)
    ensures SortedBy(r, key)
    ensures multiset(r) == multiset(xs)
  {
    if |xs| == 0 then []
    else
      assert xs == xs[..|xs| - 1] + [xs[|xs| - 1]];
      InsertBy(xs[|xs| - 1], SortBy(xs[..|xs| - 1], key), key)
  }

  /** `sorted(xs, key=key, reverse=True)`: largest key first, equal keys in arrival order. */
  function SortByDescending<T(==)>(xs: seq<T>, key: T -> real): (r: seq<T>)
    ensures forall i, j :: 0 <= i < j < |r| ==> key(r[i]) >= key(r[j])
    ensures multiset(r) == multiset(xs)
    ensures |r| == |xs|
  {
    var r := SortBy(xs, x => -key(x));
    assert |multiset(r)| == |multiset(xs)|;
    assert forall i, j :: 0 <= i < j < |r| ==> -key(r[i]) <= -key(r[j]);
    r
  }

  /** The elements of `s` whose key is `k`, in order. */
  function WithKey<T>(s: seq<T>, key: T -> real, k: real): seq<T>
  {
    if |s| == 0 then [] else (if key(s[0]) == k then [s[0]] else []) + WithKey(s[1..], key, k)
  }

  lemma {:induction false} WithKeyAppend<T>(a: seq<T>, b: seq<T>, key: T -> real, k: real)
    ensures WithKey(a + b, key, k) == WithKey(a, key, k) + WithKey(b, key, k)
  {
    if |a| == 0 {
      assert a + b == b;
    } else {
      WithKeyAppend(a[1..], b, key, k);
      WithKeyConsAppend(a[0], a[1..], a[1..] + b, WithKey(b, key, k), key, k);
      assert a + b == [a[0]] + (a[1..] + b);
      assert a == [a[0]] + a[1..];
    }
  }

  lemma WithKeySingle<T>(x: T, key: T -> real, k: real)
    ensures WithKey([x], key, k) == if key(x) == k then [x] else []
  {
    WithKeyCons(x, [], key, k);
    assert [x] + [] == [x];
  }

  lemma {:induction false} WithKeyNone<T>(s: seq<T>, key: T -> real, k: real)
    requires forall i :: 0 <= i < |s| ==> key(s[i]) != k
    ensures WithKey(s, key, k) == []
  {
    if |s| > 0 {
      WithKeyNone(s[1..], key, k);
    }
  }

  /** Inserting `x` puts it after every element with its key. */
  lemma WithKeyCons<T>(y: T, s: seq<T>, key: T -> real, k: real)
    ensures WithKey([y] + s, key, k) == (if key(y) == k then [y] else []) + WithKey(s, key, k)
  {
    assert ([y] + s)[1..] == s;
  }

  /** Putting the same element in front of two lists keeps the equation between their keyed parts. */
  lemma WithKeyConsAppend<T>(y: T, s: seq<T>, rest: seq<T>, extra: seq<T>, key: T -> real, k: real)
    requires WithKey(rest, key, k) == WithKey(s, key, k) + extra
    ensures WithKey([y] + rest, key, k) == WithKey([y] + s, key, k) + extra
  {
    var head := if key(y) == k then [y] else [];
    WithKeyCons(y, rest, key, k);
    WithKeyCons(y, s, key, k);
    assert head + (WithKey(s, key, k) + extra) == (head + WithKey(s, key, k)) + extra;
  }

  lemma InsertByStableFront<T>(x: T, s: seq<T>, key: T -> real, k: real)
    requires SortedBy(s, key) && |s| > 0 && key(x) < key(s[0])
    ensures WithKey(InsertBy(x, s, key), key, k) == WithKey(s, key, k) + (if key(x) == k then [x] else [])
  {
    assert InsertBy(x, s, key) == [x] + s;
    WithKeyCons(x, s, key, k);
    if key(x) == k {
      WithKeyNone(s, key, k);
    }
  }

  /** Inserting `x` puts it after every element with its key. */
  lemma {:induction false} InsertByStable<T>(x: T, s: seq<T>, key: T -> real, k: real)
    requires SortedBy(s, key)
    ensures WithKey(InsertBy(x, s, key), key, k) == WithKey(s, key, k) + (if key(x) == k then [x] else [])
  {
    if |s| == 0 {
      WithKeyCons(x, [], key, k);
      assert [x] + [] == [x];
    } else if key(x) < key(s[0]) {
      InsertByStableFront(x, s, key, k);
    } else {
      var rest := InsertBy(x, s[1..], key);
      InsertByStable(x, s[1..], key, k);
      assert InsertBy(x, s, key) == [s[0]] + rest;
      WithKeyConsAppend(s[0], s[1..], rest, if key(x) == k then [x] else [], key, k);
      assert s == [s[0]] + s[1..];
    }
  }

  lemma EmptyWhenNoMember<T>(s: seq<T>)
    ensures (forall x :: x !in s) ==> |s| == 0
  {
    if |s| > 0 {
      assert s[0] in s;
    }
  }

  lemma SplitLast<T>(xs: seq<T>)
    requires |xs| > 0
    ensures xs == xs[..|xs| - 1] + [xs[|xs| - 1]]
  {
  }

  lemma AppendSplitLast<T>(a: seq<T>, xs: seq<T>)
    requires |xs| > 0
    ensures a + xs == (a + xs[..|xs| - 1]) + [xs[|xs| - 1]]
  {
  }

  /** Python's sort is stable: the elements sharing any one key keep their relative order. */
  lemma {:induction false} SortByStable<T>(xs: seq<T>, key: T -> real, k: real)
    ensures WithKey(SortBy(xs, key), key, k) == WithKey(xs, key, k)
  {
    if |xs| > 0 {
      var init, last := xs[..|xs| - 1], xs[|xs| - 1];
      SplitLast(xs);
      SortByStable(init, key, k);
      assert SortBy(xs, key) == InsertBy(last, SortBy(init, key), key);
      InsertByStable(last, SortBy(init, key), key, k);
      WithKeyAppend(init, [last], key, k);
      WithKeySingle(last, key, k);
    }
  }

  // ------------------------------------------------------------ distinct

  /** The distinct elements of a list number no more than its length. */
  lemma {:induction false} CardOfElements<T>(s: seq<T>)
    ensures |set x | x in s| <= |s|
  {
    if |s| > 0 {
      var init := s[..|s| - 1];
      CardOfElements(init);
      assert (set x | x in s) == (set x | x in init) + {s[|s| - 1]};
    }
  }

  /** How many times `x` occurs in `s`. */
  function Occurrences<T(==)>(s: seq<T>, x: T): nat
  {
    if |s| == 0 then 0 else Occurrences(s[..|s| - 1], x) + (if s[|s| - 1] == x then 1 else 0)
  }

  lemma {:induction false} OccurrencesPositive<T>(s: seq<T>, x: T)
    ensures Occurrences(s, x) > 0 <==> x in s
  {
    if |s| > 0 {
      OccurrencesPositive(s[..|s| - 1], x);
      assert s == s[..|s| - 1] + [s[|s| - 1]];
    }
  }

  predicate Distinct<T(==)>(s: seq<T>)
  {
    forall i, j :: 0 <= i < j < |s| ==> s[i] != s[j]
  }

  /** The elements of `s` in order of first occurrence, as a dict's keys are. */
  function Dedupe<T(==)>(s: seq<T>): (r: seq<T>)
    ensures Distinct(r)
    ensures forall i :: 0 <= i < |r| ==> r[i] in s
    ensures forall i :: 0 <= i < |s| ==> s[i] in r
  {
    if |s| == 0 then []
    else
      var init := s[..|s| - 1];
      assert s == init + [s[|s| - 1]];
      if s[|s| - 1] in init then Dedupe(init) else Dedupe(init) + [s[|s| - 1]]
  }

  /** A subset is no larger than its superset. */
  lemma {:induction false} SubsetCardinality<T>(a: set<T>, b: set<T>)
    requires a <= b
    ensures |a| <= |b|
    decreases |b|
  {
    if a != {} {
      var x :| x in a;
      SubsetCardinality(a - {x}, b - {x});
    }
  }

  /** The first `n` of a list sorted by descending key: nothing left out outranks anything kept. */
  lemma TopOfDescending<T>(xs: seq<T>, key: T -> real, n: int, x: T)
    requires x in xs
    ensures var r := Take(SortByDescending(xs, key), n);
      x !in r ==> forall i :: 0 <= i < |r| ==> key(x) <= key(r[i])
  {
    var sorted := SortByDescending(xs, key);
    var r := Take(sorted, n);
    assert x in multiset(sorted);
    var p :| 0 <= p < |sorted| && sorted[p] == x;
    if x !in r {
      assert forall q :: 0 <= q < |r| ==> r[q] == sorted[q];
      assert p >= |r|;
      forall i | 0 <= i < |r|
        ensures key(x) <= key(r[i])
      {
        assert r[i] == sorted[i];
      }
    }
  }

  /** `[f(x) for x in xs if keep(f(x))]`. */
  function Filtered<A, B>(xs: seq<A>, f: A -> B, keep: B -> bool): seq<B>
  {
    if |xs| == 0 then []
    else
      var y := f(xs[|xs| - 1]);
      Filtered(xs[..|xs| - 1], f, keep) + (if keep(y) then [y] else [])
  }

  /** The filter keeps exactly the images that pass, each the image of some element. */
  lemma FilteredProperties<A, B>(xs: seq<A>, f: A -> B, keep: B -> bool)
    ensures var r := Filtered(xs, f, keep);
      && (forall i :: 0 <= i < |r| ==> keep(r[i]) && exists k :: 0 <= k < |xs| && r[i] == f(xs[k]))
      && (forall k :: 0 <= k < |xs| && keep(f(xs[k])) ==> f(xs[k]) in r)
  {
    FilteredSound(xs, f, keep);
    FilteredComplete(xs, f, keep);
    var r := Filtered(xs, f, keep);
    forall i | 0 <= i < |r|
      ensures keep(r[i]) && exists k :: 0 <= k < |xs| && r[i] == f(xs[k])
    {
      assert ImageOf(r[i], xs, f);
    }
  }

  /** `y` is the image of some element of `xs`. */
  ghost predicate ImageOf<A, B>(y: B, xs: seq<A>, f: A -> B)
  {
    exists k :: 0 <= k < |xs| && y == f(xs[k])
  }

  lemma {:induction false} FilteredSound<A, B>(xs: seq<A>, f: A -> B, keep: B -> bool)
    ensures forall i {:trigger Filtered(xs, f, keep)[i]} :: 0 <= i < |Filtered(xs, f, keep)| ==>
              keep(Filtered(xs, f, keep)[i]) && ImageOf(Filtered(xs, f, keep)[i], xs, f)
  {
    if |xs| > 0 {
      var init := xs[..|xs| - 1];
      FilteredSound(init, f, keep);
      var before := Filtered(init, f, keep);
      var r := Filtered(xs, f, keep);
      forall i | 0 <= i < |r|
        ensures keep(r[i]) && ImageOf(r[i], xs, f)
      {
        if i < |before| {
          assert r[i] == before[i] && ImageOf(before[i], init, f);
          var k :| 0 <= k < |init| && before[i] == f(init[k]);
          assert init[k] == xs[k];
        } else {
          assert r[i] == f(xs[|xs| - 1]);
        }
      }
    }
  }

  lemma {:induction false} FilteredComplete<A, B>(xs: seq<A>, f: A -> B, keep: B -> bool)
    ensures forall k :: 0 <= k < |xs| && keep(f(xs[k])) ==> f(xs[k]) in Filtered(xs, f, keep)
  {
    if |xs| > 0 {
      var init := xs[..|xs| - 1];
      FilteredComplete(init, f, keep);
      var before := Filtered(init, f, keep);
      var r := Filtered(xs, f, keep);
      forall k | 0 <= k < |xs| && keep(f(xs[k]))
        ensures f(xs[k]) in r
      {
        if k < |init| {
          assert init[k] == xs[k];
          assert f(init[k]) in before;
        } else {
          assert r[|before|] == f(xs[k]);
        }
      }
    }
  }

  /** Filtering one more element appends its image when the image passes. */
  lemma FilteredStep<A, B>(xs: seq<A>, f: A -> B, keep: B -> bool, i: nat)
    requires i < |xs|
    ensures Filtered(xs[..i + 1], f, keep)
      == Filtered(xs[..i], f, keep) + (if keep(f(xs[i])) then [f(xs[i])] else [])
  {
    assert xs[..i + 1][..i] == xs[..i];
  }

  /** The first `n` of a sorted list are elements of the list. */
  lemma TopMembers<T>(xs: seq<T>, key: T -> real, n: int)
    ensures var r := Take(SortByDescending(xs, key), n);
      forall i :: 0 <= i < |r| ==> r[i] in xs
  {
    var sorted := SortByDescending(xs, key);
    var r := Take(sorted, n);
    forall i | 0 <= i < |r|
      ensures r[i] in xs
    {
      assert r[i] == sorted[i];
      assert sorted[i] in multiset(xs);
    }
  }
}
