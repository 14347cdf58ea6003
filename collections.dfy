/** Generic building blocks shared by the apps: the left-fold sum that every
    `reduce((sum, x) => sum + f(x), 0)` computes, `Array.prototype.filter`,
    and the first-appearance de-duplication of `[...new Set(xs)]`. */
module Collections {

  /** `xs.reduce((sum, x) => sum + f(x), 0)`: a left fold, so the last element
      is added last. */
  function SumOf<T>(xs: seq<T>, f: T -> real): real
  {
    if xs == [] then 0.0 else SumOf(xs[..|xs| - 1], f) + f(xs[|xs| - 1])
  }

  /** The sum of a concatenation is the sum of the parts. */
  lemma {:induction false} SumOfAppend<T>(xs: seq<T>, ys: seq<T>, f: T -> real)
    ensures SumOf(xs + ys, f) == SumOf(xs, f) + SumOf(ys, f)
  {
    if ys == [] {
      assert xs + ys == xs;
    } else {
      var zs := xs + ys;
      assert zs[..|zs| - 1] == xs + ys[..|ys| - 1];
      SumOfAppend(xs, ys[..|ys| - 1], f);
    }
  }

  /** Summing from the front gives the same value as the left fold. */
  lemma SumOfCons<T>(x: T, xs: seq<T>, f: T -> real)
    ensures SumOf([x] + xs, f) == f(x) + SumOf(xs, f)
  {
    SumOfAppend([x], xs, f);
    assert [x][..0] == [];
  }

  /** The sum does not depend on the order of the elements. */
  lemma {:induction false} SumOfPermutation<T>(xs: seq<T>, ys: seq<T>, f: T -> real)
    requires multiset(xs) == multiset(ys)
    ensures SumOf(xs, f) == SumOf(ys, f)
  {
    if xs == [] {
      assert |ys| == |multiset(ys)| == 0;
    } else {
      var x := xs[0];
      assert x in multiset(ys);
      var i :| 0 <= i < |ys| && ys[i] == x;
      var rest := ys[..i] + ys[i + 1..];
      RemoveAtMultiset(xs, ys, i);
      SumOfPermutation(xs[1..], rest, f);
      assert xs == [x] + xs[1..];
      SumOfCons(x, xs[1..], f);
      SumOfRemoveAt(ys, i, f);
    }
  }

  /** Taking the first element off `xs` and the same element off `ys` keeps
      two permutations of each other. */
  lemma RemoveAtMultiset<T>(xs: seq<T>, ys: seq<T>, i: nat)
    requires xs != [] && i < |ys| && ys[i] == xs[0]
    requires multiset(xs) == multiset(ys)
    ensures multiset(xs[1..]) == multiset(ys[..i] + ys[i + 1..])
  {
    assert xs == [xs[0]] + xs[1..];
    assert ys == ys[..i] + [ys[i]] + ys[i + 1..];
    calc {
      multiset(xs[1..]);
      multiset(xs) - multiset{xs[0]};
      multiset(ys) - multiset{ys[i]};
      multiset(ys[..i]) + multiset(ys[i + 1..]);
      multiset(ys[..i] + ys[i + 1..]);
    }
  }

  /** The sum splits around any one element. */
  lemma SumOfRemoveAt<T>(ys: seq<T>, i: nat, f: T -> real)
    requires i < |ys|
    ensures SumOf(ys, f) == f(ys[i]) + SumOf(ys[..i] + ys[i + 1..], f)
  {
    var front, back := ys[..i], ys[i + 1..];
    SplitAt(ys, i);
    SumOfAppend(front, [ys[i]] + back, f);
    SumOfCons(ys[i], back, f);
    SumOfAppend(front, back, f);
  }

  lemma SplitAt<T>(ys: seq<T>, i: nat)
    requires i < |ys|
    ensures ys == ys[..i] + ([ys[i]] + ys[i + 1..])
  {
  }

  /** Replacing one element changes the sum by the difference of the two
      terms. */
  lemma SumOfUpdate<T>(xs: seq<T>, k: nat, x: T, f: T -> real)
    requires k < |xs|
    ensures SumOf(xs[k := x], f) == SumOf(xs, f) - f(xs[k]) + f(x)
  {
    SumOfRemoveAt(xs, k, f);
    SumOfRemoveAt(xs[k := x], k, f);
    assert xs[k := x][..k] + xs[k := x][k + 1..] == xs[..k] + xs[k + 1..];
  }

  /** Replacing one element moves the sum by the change of its term. */
  lemma SumOfReplace<T>(xs: seq<T>, k: nat, x: T, f: T -> real, change: real)
    requires k < |xs| && f(x) - f(xs[k]) == change
    ensures SumOf(xs[k := x], f) == SumOf(xs, f) + change
  {
    SumOfUpdate(xs, k, x, f);
  }

  /** The elements of `xs` that satisfy `p`, in their original order
      (`xs.filter(p)`). */
  function Filter<T>(xs: seq<T>, p: T -> bool): (r: seq<T>)
    ensures |r| <= |xs|
    ensures forall i :: 0 <= i < |r| ==> p(r[i])
  {
    if xs == [] then []
    else if p(xs[0]) then [xs[0]] + Filter(xs[1..], p)
    else Filter(xs[1..], p)
  }

  /** A property that every element passing the filter has, every survivor
      has. */
  lemma {:induction false} FilterKeepsProperty<T>(xs: seq<T>, p: T -> bool, q: T -> bool)
    requires forall i :: 0 <= i < |xs| && p(xs[i]) ==> q(xs[i])
    ensures forall i :: 0 <= i < |Filter(xs, p)| ==> q(Filter(xs, p)[i])
  {
    if xs != [] {
      FilterKeepsProperty(xs[1..], p, q);
      assert forall i :: 0 <= i < |xs[1..]| ==> xs[1..][i] == xs[i + 1];
    }
  }

  /** The survivors of a filter are exactly the elements that pass it. */
  lemma {:induction false} FilterElements<T>(xs: seq<T>, p: T -> bool)
    ensures forall i :: 0 <= i < |Filter(xs, p)| ==> Filter(xs, p)[i] in xs
    ensures forall i :: 0 <= i < |xs| && p(xs[i]) ==> xs[i] in Filter(xs, p)
  {
    if xs != [] {
      FilterElements(xs[1..], p);
      var rest := Filter(xs[1..], p);
      assert forall i :: 0 <= i < |rest| ==> rest[i] in xs[1..];
      assert forall i :: 1 <= i < |xs| && p(xs[i]) ==> xs[1..][i - 1] in rest;
    }
  }

  /** Filtering distributes over concatenation, which pins down the order of
      the survivors: each keeps its place relative to the others. */
  lemma {:induction false} FilterAppend<T>(xs: seq<T>, ys: seq<T>, p: T -> bool)
    ensures Filter(xs + ys, p) == Filter(xs, p) + Filter(ys, p)
  {
    if xs != [] {
      assert (xs + ys)[1..] == xs[1..] + ys;
      FilterAppend(xs[1..], ys, p);
    } else {
      assert xs + ys == ys;
    }
  }

  /** A filter that every element passes keeps the whole sequence. */
  lemma {:induction false} FilterAll<T>(xs: seq<T>, p: T -> bool)
    requires forall i :: 0 <= i < |xs| ==> p(xs[i])
    ensures Filter(xs, p) == xs
  {
    if xs != [] {
      FilterAll(xs[1..], p);
    }
  }

  /** A filter that no element passes keeps nothing. */
  lemma {:induction false} FilterNone<T>(xs: seq<T>, p: T -> bool)
    requires forall i :: 0 <= i < |xs| ==> !p(xs[i])
    ensures Filter(xs, p) == []
  {
    if xs != [] {
      FilterNone(xs[1..], p);
    }
  }

  /** No element occurs twice. */
  predicate Distinct<T(==)>(xs: seq<T>)
  {
    forall i, j :: 0 <= i < j < |xs| ==> xs[i] != xs[j]
  }

  /** Position of the first occurrence of `x` in `xs`. */
  function FirstIndex<T(==)>(xs: seq<T>, x: T): (i: nat)
    requires x in xs
    ensures i < |xs| && xs[i] == x
    ensures forall j :: 0 <= j < i ==> xs[j] != x
  {
    if xs[0] == x then 0 else 1 + FirstIndex(xs[1..], x)
  }

  /** `[...new Set(xs)]`: every element once, in order of first appearance. */
  function Dedup<T(==)>(xs: seq<T>): seq<T>
  {
    if xs == [] then []
    else
      var d := Dedup(xs[..|xs| - 1]);
      if xs[|xs| - 1] in d then d else d + [xs[|xs| - 1]]
  }

  /** One more element is added to the end of `Dedup` exactly when it is
      new. */
  lemma DedupSnoc<T>(xs: seq<T>, x: T)
    ensures Dedup(xs + [x]) == if x in Dedup(xs) then Dedup(xs) else Dedup(xs) + [x]
  {
    assert (xs + [x])[..|xs|] == xs;
  }

  /** `Dedup` keeps exactly the elements of its input, each once. */
  lemma {:induction false} DedupElements<T>(xs: seq<T>)
    ensures Distinct(Dedup(xs))
    ensures forall i :: 0 <= i < |Dedup(xs)| ==> Dedup(xs)[i] in xs
    ensures forall i :: 0 <= i < |xs| ==> xs[i] in Dedup(xs)
  {
    if xs != [] {
      var init := xs[..|xs| - 1];
      DedupElements(init);
      assert xs == init + [xs[|xs| - 1]];
    }
  }

  /** `Dedup` lists the elements in the order in which they first appear. */
  lemma {:induction false} DedupOrder<T>(xs: seq<T>, i: nat, j: nat)
    requires i < j < |Dedup(xs)|
    ensures Dedup(xs)[i] in xs && Dedup(xs)[j] in xs
    ensures FirstIndex(xs, Dedup(xs)[i]) < FirstIndex(xs, Dedup(xs)[j])
  {
    var init := xs[..|xs| - 1];
    var last := xs[|xs| - 1];
    var d := Dedup(init);
    DedupElements(init);
    DedupElements(xs);
    assert xs == init + [last];
    if j < |d| {
      DedupOrder(init, i, j);
      FirstIndexPrefix(init, last, d[i]);
      FirstIndexPrefix(init, last, d[j]);
    } else {
      // the element at j was appended for `last`, which is new
      assert Dedup(xs)[j] == last && last !in init;
      assert d[i] in init;
      FirstIndexPrefix(init, last, d[i]);
      assert forall m :: 0 <= m < |init| ==> xs[m] == init[m];
      assert FirstIndex(xs, last) == |init|;
    }
  }

  /** Appending an element does not move the first occurrence of an element
      that was already there. */
  lemma {:induction false} FirstIndexPrefix<T>(xs: seq<T>, y: T, x: T)
    requires x in xs
    ensures x in xs + [y] && FirstIndex(xs + [y], x) == FirstIndex(xs, x)
  {
    if xs[0] != x {
      assert (xs + [y])[1..] == xs[1..] + [y];
      FirstIndexPrefix(xs[1..], y, x);
    }
  }

  /** `xs.map(f)`. */
  function MapSeq<T, U>(xs: seq<T>, f: T -> U): (r: seq<U>)
    ensures |r| == |xs| && forall i :: 0 <= i < |xs| ==> r[i] == f(xs[i])
  {
    seq(|xs|, i requires 0 <= i < |xs| => f(xs[i]))
  }

  /** Mapping distributes over appending one element. */
  lemma MapSeqSnoc<T, U>(xs: seq<T>, x: T, f: T -> U)
    ensures MapSeq(xs + [x], f) == MapSeq(xs, f) + [f(x)]
  {
  }

  /** Two functions that agree on the elements have the same sum. */
  lemma {:induction false} SumOfPointwise<T>(xs: seq<T>, f: T -> real, g: T -> real)
    requires forall i :: 0 <= i < |xs| ==> f(xs[i]) == g(xs[i])
    ensures SumOf(xs, f) == SumOf(xs, g)
  {
    if xs != [] {
      SumOfPointwise(xs[..|xs| - 1], f, g);
    }
  }

  /** The sum of a pointwise sum is the sum of the sums. */
  lemma {:induction false} SumOfAdd<T>(xs: seq<T>, f: T -> real, g: T -> real, h: T -> real)
    requires forall i :: 0 <= i < |xs| ==> h(xs[i]) == f(xs[i]) + g(xs[i])
    ensures SumOf(xs, h) == SumOf(xs, f) + SumOf(xs, g)
  {
    if xs != [] {
      SumOfAdd(xs[..|xs| - 1], f, g, h);
    }
  }

  /** Summing a function that is `v` at `k0` and 0 elsewhere over keys that
      occur once each gives `v` when `k0` is among them, 0 otherwise. */
  lemma {:induction false} SumOfIndicator<K>(ks: seq<K>, k0: K, v: real, h: K -> real)
    requires Distinct(ks)
    requires forall i :: 0 <= i < |ks| ==> h(ks[i]) == if ks[i] == k0 then v else 0.0
    ensures SumOf(ks, h) == if k0 in ks then v else 0.0
  {
    if ks != [] {
      var init := ks[..|ks| - 1];
      SumOfIndicator(init, k0, v, h);
      assert ks == init + [ks[|ks| - 1]];
    }
  }

  /** A sum of non-negative terms is non-negative. */
  lemma {:induction false} SumOfNonneg<T>(xs: seq<T>, f: T -> real)
    requires forall i :: 0 <= i < |xs| ==> f(xs[i]) >= 0.0
    ensures SumOf(xs, f) >= 0.0
  {
    if xs != [] {
      SumOfNonneg(xs[..|xs| - 1], f);
    }
  }

  /** Dropping only terms that are 0 does not change a sum. */
  lemma {:induction false} SumOfFilterZero<T>(xs: seq<T>, p: T -> bool, f: T -> real)
    requires forall i :: 0 <= i < |xs| && !p(xs[i]) ==> f(xs[i]) == 0.0
    ensures SumOf(Filter(xs, p), f) == SumOf(xs, f)
  {
    if xs != [] {
      SumOfFilterZero(xs[1..], p, f);
      assert xs == [xs[0]] + xs[1..];
      SumOfCons(xs[0], xs[1..], f);
      if p(xs[0]) {
        SumOfCons(xs[0], Filter(xs[1..], p), f);
      }
    }
  }

  /** Summing `g` over `xs.map(f)` is summing `g` after `f` over `xs`. */
  lemma {:induction false} SumOfMap<T, U>(xs: seq<T>, f: T -> U, g: U -> real, h: T -> real)
    requires forall i :: 0 <= i < |xs| ==> h(xs[i]) == g(f(xs[i]))
    ensures SumOf(MapSeq(xs, f), g) == SumOf(xs, h)
  {
    if xs != [] {
      var init := xs[..|xs| - 1];
      SumOfMap(init, f, g, h);
      assert MapSeq(xs, f)[..|xs| - 1] == MapSeq(init, f);
    }
  }

  /** Filtering twice is filtering once by both conditions. */
  lemma {:induction false} FilterFilter<T>(xs: seq<T>, p: T -> bool, q: T -> bool, r: T -> bool)
    requires forall i :: 0 <= i < |xs| ==> r(xs[i]) == (p(xs[i]) && q(xs[i]))
    ensures Filter(Filter(xs, p), q) == Filter(xs, r)
  {
    if xs != [] {
      FilterFilter(xs[1..], p, q, r);
    }
  }

  /** The total of the elements whose key is `k`: one bucket of a
      group-by-and-sum. */
  function BucketSum<T, K(==)>(xs: seq<T>, key: T -> K, val: T -> real, k: K): real
  {
    SumOf(Filter(xs, x => key(x) == k), val)
  }

  /** The first element goes to its own bucket and to no other. */
  lemma BucketSumCons<T, K>(x: T, xs: seq<T>, key: T -> K, val: T -> real, k: K)
    ensures BucketSum([x] + xs, key, val, k)
      == (if key(x) == k then val(x) else 0.0) + BucketSum(xs, key, val, k)
  {
    var p := (y: T) => key(y) == k;
    assert ([x] + xs)[1..] == xs;
    if key(x) == k {
      SumOfCons(x, Filter(xs, p), val);
    }
  }

  /** An element appended at the end goes to its own bucket and to no
      other. */
  lemma BucketSumSnoc<T, K>(xs: seq<T>, x: T, key: T -> K, val: T -> real, k: K)
    ensures BucketSum(xs + [x], key, val, k)
      == BucketSum(xs, key, val, k) + (if key(x) == k then val(x) else 0.0)
  {
    var p := (y: T) => key(y) == k;
    FilterAppend(xs, [x], p);
    SumOfAppend(Filter(xs, p), Filter([x], p), val);
    assert [x][1..] == [];
  }

  /** A key that no element has gets an empty bucket. */
  lemma BucketSumAbsent<T, K>(xs: seq<T>, key: T -> K, val: T -> real, k: K)
    requires forall i :: 0 <= i < |xs| ==> key(xs[i]) != k
    ensures BucketSum(xs, key, val, k) == 0.0
  {
    FilterNone(xs, (y: T) => key(y) == k);
  }

  /** Two tests that agree on every element filter alike. */
  lemma {:induction false} FilterPointwise<T>(xs: seq<T>, p: T -> bool, q: T -> bool)
    requires forall i :: 0 <= i < |xs| ==> p(xs[i]) == q(xs[i])
    ensures Filter(xs, p) == Filter(xs, q)
  {
    if xs != [] {
      FilterPointwise(xs[1..], p, q);
    }
  }

  /** Any test that picks out exactly the key `k` gives the bucket of `k`. */
  lemma BucketSumFilter<T, K>(xs: seq<T>, key: T -> K, val: T -> real, k: K, p: T -> bool)
    requires forall i :: 0 <= i < |xs| ==> p(xs[i]) == (key(xs[i]) == k)
    ensures BucketSum(xs, key, val, k) == SumOf(Filter(xs, p), val)
  {
    FilterPointwise(xs, p, (y: T) => key(y) == k);
  }

  /** Group-by-and-sum loses nothing: over keys that cover every element,
      each once, the buckets add up to the total. */
  lemma {:induction false} BucketsPartition<T, K>(xs: seq<T>, key: T -> K, val: T -> real,
                                                  ks: seq<K>, g: K -> real)
    requires Distinct(ks)
    requires forall i :: 0 <= i < |xs| ==> key(xs[i]) in ks
    requires forall i :: 0 <= i < |ks| ==> g(ks[i]) == BucketSum(xs, key, val, ks[i])
    ensures SumOf(ks, g) == SumOf(xs, val)
  {
    if xs == [] {
      if ks != [] {
        SumOfIndicator(ks, ks[0], 0.0, g);
      }
    } else {
      var x, rest := xs[0], xs[1..];
      assert xs == [x] + rest;
      var h := (k: K) => if key(x) == k then val(x) else 0.0;
      var g' := (k: K) => BucketSum(rest, key, val, k);
      forall i | 0 <= i < |ks| ensures g(ks[i]) == h(ks[i]) + g'(ks[i]) {
        BucketSumCons(x, rest, key, val, ks[i]);
      }
      SumOfAdd(ks, h, g', g);
      SumOfIndicator(ks, key(x), val(x), h);
      BucketsPartition(rest, key, val, ks, g');
      SumOfCons(x, rest, val);
    }
  }
}
