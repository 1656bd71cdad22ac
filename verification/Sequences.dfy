/** Facts about sequences, their multisets and sums over them. */
module Sequences {

  datatype Option<+T> = None | Some(value: T)

  function Min(a: nat, b: nat): nat { if a <= b then a else b }

  function Map<T, U>(xs: seq<T>, f: T -> U): (r: seq<U>)
    ensures |r| == |xs| && forall i :: 0 <= i < |xs| ==> r[i] == f(xs[i])
  {
    if xs == [] then [] else [f(xs[0])] + Map(xs[1..], f)
  }

  function Filter<T>(xs: seq<T>, p: T -> bool): (r: seq<T>)
    ensures forall i :: 0 <= i < |r| ==> r[i] in xs && p(r[i])
    ensures forall i :: 0 <= i < |xs| && p(xs[i]) ==> xs[i] in r
    ensures |r| <= |xs|
  {
    if xs == [] then []
    else
      assert xs == [xs[0]] + xs[1..];
      (if p(xs[0]) then [xs[0]] else []) + Filter(xs[1..], p)
  }

  /** Concatenation of all parts. */
  function Flatten<T>(parts: seq<seq<T>>): seq<T> {
    if parts == [] then [] else parts[0] + Flatten(parts[1..])
  }

  function SumInt<T>(xs: seq<T>, f: T -> int): int {
    if xs == [] then 0 else f(xs[0]) + SumInt(xs[1..], f)
  }

  function SumReal<T>(xs: seq<T>, f: T -> real): real {
    if xs == [] then 0.0 else f(xs[0]) + SumReal(xs[1..], f)
  }

  predicate NoDup<T(==)>(xs: seq<T>) {
    forall i, j :: 0 <= i < j < |xs| ==> xs[i] != xs[j]
  }

  function RemoveAt<T>(xs: seq<T>, i: nat): (r: seq<T>)
    requires i < |xs|
    ensures multiset(xs) == multiset(r) + multiset{xs[i]}
  {
    assert xs == xs[..i] + [xs[i]] + xs[i + 1..];
    xs[..i] + xs[i + 1..]
  }

  /** The position of the head of xs in a permutation of xs. */
  ghost function HeadIn<T>(xs: seq<T>, ys: seq<T>): (i: nat)
    requires xs != [] && multiset(xs) == multiset(ys)
    ensures i < |ys| && ys[i] == xs[0]
    ensures multiset(xs[1..]) == multiset(RemoveAt(ys, i))
  {
    assert xs[0] in multiset(ys);
    var i :| 0 <= i < |ys| && ys[i] == xs[0];
    assert xs == [xs[0]] + xs[1..];
    assert multiset(xs[1..]) == multiset(xs) - multiset{xs[0]};
    assert multiset(RemoveAt(ys, i)) == multiset(ys) - multiset{ys[i]};
    i
  }

  lemma {:induction false} PermutationSize<T>(xs: seq<T>, ys: seq<T>)
    requires multiset(xs) == multiset(ys)
    ensures |xs| == |ys|
    ensures forall x :: x in xs <==> x in ys
  {
    assert |multiset(xs)| == |multiset(ys)|;
    forall x ensures x in xs <==> x in ys {
      assert x in xs <==> x in multiset(xs);
      assert x in ys <==> x in multiset(ys);
    }
  }

  lemma {:induction false} SumIntRemove<T>(xs: seq<T>, i: nat, f: T -> int)
    requires i < |xs|
    ensures SumInt(xs, f) == f(xs[i]) + SumInt(RemoveAt(xs, i), f)
  {
    if i > 0 {
      SumIntRemove(xs[1..], i - 1, f);
      assert RemoveAt(xs, i) == [xs[0]] + RemoveAt(xs[1..], i - 1);
    } else {
      assert RemoveAt(xs, 0) == xs[1..];
    }
  }

  lemma {:induction false} SumIntPermutation<T>(xs: seq<T>, ys: seq<T>, f: T -> int)
    requires multiset(xs) == multiset(ys)
    ensures SumInt(xs, f) == SumInt(ys, f)
  {
    PermutationSize(xs, ys);
    if xs != [] {
      var i := HeadIn(xs, ys);
      SumIntRemove(ys, i, f);
      SumIntPermutation(xs[1..], RemoveAt(ys, i), f);
    }
  }

  lemma {:induction false} SumRealRemove<T>(xs: seq<T>, i: nat, f: T -> real)
    requires i < |xs|
    ensures SumReal(xs, f) == f(xs[i]) + SumReal(RemoveAt(xs, i), f)
  {
    if i > 0 {
      SumRealRemove(xs[1..], i - 1, f);
      assert RemoveAt(xs, i) == [xs[0]] + RemoveAt(xs[1..], i - 1);
    } else {
      assert RemoveAt(xs, 0) == xs[1..];
    }
  }

  lemma {:induction false} SumRealPermutation<T>(xs: seq<T>, ys: seq<T>, f: T -> real)
    requires multiset(xs) == multiset(ys)
    ensures SumReal(xs, f) == SumReal(ys, f)
  {
    PermutationSize(xs, ys);
    if xs != [] {
      var i := HeadIn(xs, ys);
      SumRealRemove(ys, i, f);
      SumRealPermutation(xs[1..], RemoveAt(ys, i), f);
    }
  }

  lemma {:induction false} MapRemove<T, U>(xs: seq<T>, i: nat, f: T -> U)
    requires i < |xs|
    ensures Map(RemoveAt(xs, i), f) == RemoveAt(Map(xs, f), i)
  {
    var a, b, m := RemoveAt(xs, i), RemoveAt(Map(xs, f), i), Map(xs, f);
    assert |Map(a, f)| == |b|;
    forall k | 0 <= k < |b| ensures Map(a, f)[k] == b[k] {
      assert a[k] == if k < i then xs[k] else xs[k + 1];
      assert b[k] == if k < i then m[k] else m[k + 1];
    }
    hide Map, RemoveAt;
  }

  lemma {:induction false} MapPermutation<T, U>(xs: seq<T>, ys: seq<T>, f: T -> U)
    requires multiset(xs) == multiset(ys)
    ensures multiset(Map(xs, f)) == multiset(Map(ys, f))
  {
    PermutationSize(xs, ys);
    if xs != [] {
      var i := HeadIn(xs, ys);
      MapRemove(ys, i, f);
      MapPermutation(xs[1..], RemoveAt(ys, i), f);
      assert Map(xs, f) == [f(xs[0])] + Map(xs[1..], f);
      calc {
        multiset(Map(xs, f));
        multiset{f(xs[0])} + multiset(Map(RemoveAt(ys, i), f));
        multiset{Map(ys, f)[i]} + multiset(RemoveAt(Map(ys, f), i));
        multiset(Map(ys, f));
      }
    }
  }

  lemma {:induction false} FilterConcat<T>(xs: seq<T>, ys: seq<T>, p: T -> bool)
    ensures Filter(xs + ys, p) == Filter(xs, p) + Filter(ys, p)
  {
    if xs == [] {
      assert xs + ys == ys;
    } else {
      assert (xs + ys)[1..] == xs[1..] + ys;
      FilterConcat(xs[1..], ys, p);
    }
  }

  lemma {:induction false} FilterSnoc<T>(xs: seq<T>, x: T, p: T -> bool)
    ensures Filter(xs + [x], p) == Filter(xs, p) + if p(x) then [x] else []
  {
    FilterConcat(xs, [x], p);
    assert [x][1..] == [] && Filter([x], p) == if p(x) then [x] else [];
  }

  lemma {:induction false} FilterAppend<T>(xs: seq<T>, i: nat, p: T -> bool)
    requires i < |xs|
    ensures Filter(xs[..i + 1], p) == if p(xs[i]) then Filter(xs[..i], p) + [xs[i]] else Filter(xs[..i], p)
  {
    assert xs[..i + 1] == xs[..i] + [xs[i]];
    FilterConcat(xs[..i], [xs[i]], p);
  }

  /** at lists the positions of the elements with p, in order, and out these elements. */
  ghost predicate Picks<T>(xs: seq<T>, p: T -> bool, at: seq<nat>, out: seq<T>) {
    && |at| == |out|
    && (forall k :: 0 <= k < |at| ==> at[k] < |xs| && p(xs[at[k]]) && out[k] == xs[at[k]])
    && (forall k, l :: 0 <= k < l < |at| ==> at[k] < at[l])
    && (forall i: nat :: i < |xs| && p(xs[i]) ==> i in at)
  }

  lemma {:induction false} PicksSnoc<T>(xs: seq<T>, x: T, p: T -> bool, at: seq<nat>, out: seq<T>)
    requires Picks(xs, p, at, out)
    ensures p(x) ==> Picks(xs + [x], p, at + [|xs|], out + [x])
    ensures !p(x) ==> Picks(xs + [x], p, at, out)
  {
    var ys := xs + [x];
    forall i: nat | i < |ys| && p(ys[i]) ensures i in at + [|xs|] && (!p(x) ==> i in at) {
      if i < |xs| {
        assert ys[i] == xs[i];
        assert i in at;
      }
    }
  }

  lemma {:induction false} NothingPicked<T>(p: T -> bool)
    ensures Picks([], p, [], Filter([], p))
  {
  }

  /** What a filter keeps: every element with p, in order. */
  lemma {:induction false} FilterPicks<T>(xs: seq<T>, p: T -> bool) returns (at: seq<nat>)
    ensures Picks(xs, p, at, Filter(xs, p))
  {
    hide *;
    if xs == [] {
      NothingPicked(p);
      at := [];
    } else {
      var n := |xs| - 1;
      var init, last := xs[..n], xs[n];
      at := FilterPicks(init, p);
      PicksSnoc(init, last, p, at, Filter(init, p));
      FilterSnoc(init, last, p);
      assert xs == init + [last];
      ConcatAssociative(Filter(init, p), [], []);
      at := if p(last) then at + [n] else at;
    }
  }

  lemma {:induction false} SumIntFilter<T>(xs: seq<T>, p: T -> bool, f: T -> int)
    requires forall x :: x in xs && !p(x) ==> f(x) == 0
    ensures SumInt(Filter(xs, p), f) == SumInt(xs, f)
  {
    if xs != [] {
      assert xs[0] in xs && forall x :: x in xs[1..] ==> x in xs;
      SumIntFilter(xs[1..], p, f);
      assert ([xs[0]] + Filter(xs[1..], p))[1..] == Filter(xs[1..], p);
      assert [] + Filter(xs[1..], p) == Filter(xs[1..], p);
    }
  }

  lemma {:induction false} SumRealFilter<T>(xs: seq<T>, p: T -> bool, f: T -> real)
    requires forall x :: x in xs && !p(x) ==> f(x) == 0.0
    ensures SumReal(Filter(xs, p), f) == SumReal(xs, f)
  {
    if xs != [] {
      assert xs[0] in xs && forall x :: x in xs[1..] ==> x in xs;
      SumRealFilter(xs[1..], p, f);
      assert ([xs[0]] + Filter(xs[1..], p))[1..] == Filter(xs[1..], p);
      assert [] + Filter(xs[1..], p) == Filter(xs[1..], p);
    }
  }

  lemma {:induction false} FilterPermutation<T>(xs: seq<T>, ys: seq<T>, p: T -> bool)
    requires multiset(xs) == multiset(ys)
    ensures multiset(Filter(xs, p)) == multiset(Filter(ys, p))
  {
    PermutationSize(xs, ys);
    if xs != [] {
      var i := HeadIn(xs, ys);
      FilterPermutation(xs[1..], RemoveAt(ys, i), p);
      assert ys == ys[..i] + ([ys[i]] + ys[i + 1..]);
      FilterConcat(ys[..i], [ys[i]] + ys[i + 1..], p);
      FilterConcat([ys[i]], ys[i + 1..], p);
      FilterConcat(ys[..i], ys[i + 1..], p);
    }
  }

  lemma {:induction false} FlattenConcat<T>(a: seq<seq<T>>, b: seq<seq<T>>)
    ensures Flatten(a + b) == Flatten(a) + Flatten(b)
  {
    if a == [] {
      assert a + b == b;
    } else {
      assert (a + b)[1..] == a[1..] + b;
      FlattenConcat(a[1..], b);
    }
  }

  /** Two enumerations without repetition of the same elements are permutations. */
  lemma {:induction false} NoDupSameElements<T>(xs: seq<T>, ys: seq<T>)
    requires NoDup(xs) && NoDup(ys)
    requires forall x :: x in xs <==> x in ys
    ensures multiset(xs) == multiset(ys)
  {
    forall x ensures multiset(xs)[x] == multiset(ys)[x] {
      NoDupCount(xs, x);
      NoDupCount(ys, x);
    }
  }

  lemma {:induction false} NoDupCount<T>(xs: seq<T>, x: T)
    requires NoDup(xs)
    ensures multiset(xs)[x] == if x in xs then 1 else 0
  {
    if xs != [] {
      NoDupCount(xs[1..], x);
      assert xs == [xs[0]] + xs[1..];
    }
  }

  lemma {:induction false} SubMultisetSize<T>(a: seq<T>, b: seq<T>)
    requires multiset(a) <= multiset(b)
    ensures |a| <= |b|
    ensures multiset(a) == multiset(b) <==> |a| == |b|
  {
    var rest := multiset(b) - multiset(a);
    assert multiset(b) == multiset(a) + rest;
    assert |multiset(b)| == |multiset(a)| + |rest|;
    assert |multiset(a)| == |a| && |multiset(b)| == |b|;
    if |a| == |b| { assert rest == multiset{}; }
  }

  lemma {:induction false} SumOfParts<T>(a: seq<T>, fullA: seq<T>, b: seq<T>, fullB: seq<T>)
    requires multiset(a) <= multiset(fullA) && multiset(b) <= multiset(fullB)
    ensures multiset(a + b) <= multiset(fullA + fullB)
    ensures multiset(a + b) == multiset(fullA + fullB)
        <==> multiset(a) == multiset(fullA) && multiset(b) == multiset(fullB)
  {
    SubMultisetSize(a, fullA);
    SubMultisetSize(b, fullB);
    assert multiset(a + b) == multiset(a) + multiset(b);
    assert multiset(fullA + fullB) == multiset(fullA) + multiset(fullB);
    SubMultisetSize(a + b, fullA + fullB);
  }

  lemma {:induction false} FlattenParts<T>(parts: seq<seq<T>>, fulls: seq<seq<T>>)
    requires |parts| == |fulls|
    requires forall i :: 0 <= i < |parts| ==> multiset(parts[i]) <= multiset(fulls[i])
    ensures multiset(Flatten(parts)) <= multiset(Flatten(fulls))
    ensures multiset(Flatten(parts)) == multiset(Flatten(fulls))
        <==> forall i :: 0 <= i < |parts| ==> multiset(parts[i]) == multiset(fulls[i])
  {
    if parts != [] {
      var p, f := parts[1..], fulls[1..];
      FlattenParts(p, f);
      SumOfParts(parts[0], fulls[0], Flatten(p), Flatten(f));
      assert (forall i :: 0 <= i < |parts| ==> multiset(parts[i]) == multiset(fulls[i]))
        <==> multiset(parts[0]) == multiset(fulls[0]) && forall i :: 0 <= i < |p| ==> multiset(p[i]) == multiset(f[i]) by {
        forall i | 0 <= i < |p| ensures p[i] == parts[i + 1] && f[i] == fulls[i + 1] {}
        forall i | 1 <= i < |parts| ensures parts[i] == p[i - 1] && fulls[i] == f[i - 1] {}
      }
    }
  }

  lemma {:induction false} NoDupSetSize<T>(xs: seq<T>)
    requires NoDup(xs)
    ensures |set x | x in xs| == |xs|
  {
    var all := set x | x in xs;
    if xs == [] {
      assert all == {};
    } else {
      var tail := set x | x in xs[1..];
      NoDupSetSize(xs[1..]);
      assert xs == [xs[0]] + xs[1..];
      assert all == tail + {xs[0]};
      assert xs[0] !in tail;
    }
  }

  /** The answer of a server to $skip and $top. */
  function Page<T>(rows: seq<T>, skip: nat, top: nat): (page: seq<T>)
    ensures |page| == if skip <= |rows| then Min(top, |rows| - skip) else 0
  {
    if skip <= |rows| then rows[skip..skip + Min(top, |rows| - skip)] else []
  }

  lemma {:induction false} ConcatAssociative<T>(a: seq<T>, b: seq<T>, c: seq<T>)
    ensures a + (b + c) == (a + b) + c
    ensures a + [] == a
  {
  }

  lemma {:induction false} Slices<T>(xs: seq<T>)
    ensures xs[..0] == [] && xs[..|xs|] == xs
  {
  }

  lemma {:induction false} SubsetSize<T>(a: set<T>, b: set<T>)
    requires a <= b
    ensures |a| <= |b| && (|a| == |b| <==> a == b)
  {
    assert |b - a| == |b| - |a|;
    if |a| == |b| {
      assert b - a == {};
    }
  }

  lemma {:induction false} MapAppend<T, U>(xs: seq<T>, x: T, f: T -> U)
    ensures Map(xs + [x], f) == Map(xs, f) + [f(x)]
  {
  }

  /** Writing the entries one after the other. */
  function UpsertAll<K, V>(m: map<K, V>, entries: seq<(K, V)>): map<K, V> {
    if entries == [] then m
    else
      var last := entries[|entries| - 1];
      UpsertAll(m, entries[..|entries| - 1])[last.0 := last.1]
  }

  ghost predicate DistinctFirst<K, V>(entries: seq<(K, V)>) {
    forall i, j :: 0 <= i < j < |entries| ==> entries[i].0 != entries[j].0
  }

  lemma {:induction false} UpsertWritten<K, V>(m: map<K, V>, entries: seq<(K, V)>, e: (K, V))
    requires DistinctFirst(entries) && e in entries
    ensures e.0 in UpsertAll(m, entries) && UpsertAll(m, entries)[e.0] == e.1
  {
    var n := |entries| - 1;
    assert entries == entries[..n] + [entries[n]];
    if e != entries[n] {
      var i :| 0 <= i < n && entries[i] == e;
      UpsertWritten(m, entries[..n], e);
    }
  }

  lemma {:induction false} UpsertUntouched<K, V>(m: map<K, V>, entries: seq<(K, V)>, k: K)
    requires forall e :: e in entries ==> e.0 != k
    ensures k in UpsertAll(m, entries) <==> k in m
    ensures k in m ==> UpsertAll(m, entries)[k] == m[k]
  {
    if entries != [] {
      UpsertUntouched(m, entries[..|entries| - 1], k);
    }
  }

  /** With distinct keys the order of the writes does not matter. */
  lemma {:induction false} UpsertPermutation<K(!new), V(!new)>(m: map<K, V>, xs: seq<(K, V)>, ys: seq<(K, V)>)
    requires multiset(xs) == multiset(ys) && DistinctFirst(xs) && DistinctFirst(ys)
    ensures UpsertAll(m, xs) == UpsertAll(m, ys)
  {
    PermutationSize(xs, ys);
    var f, g := UpsertAll(m, xs), UpsertAll(m, ys);
    forall k ensures (k in f <==> k in g) && (k in f ==> f[k] == g[k]) {
      if e :| e in xs && e.0 == k {
        UpsertWritten(m, xs, e);
        UpsertWritten(m, ys, e);
      } else {
        UpsertUntouched(m, xs, k);
        UpsertUntouched(m, ys, k);
      }
    }
    assert f.Keys == g.Keys;
  }

  lemma {:induction false} MapFilterSame<T(!new), U>(xs: seq<T>, norm: T -> T, p: T -> bool, f: T -> U)
    requires forall x :: p(norm(x)) == p(x) && f(norm(x)) == f(x)
    ensures Map(Filter(Map(xs, norm), p), f) == Map(Filter(xs, p), f)
  {
    if xs != [] {
      MapFilterSame(xs[1..], norm, p, f);
      assert Map(xs, norm) == [norm(xs[0])] + Map(xs[1..], norm);
      if p(xs[0]) {
        assert Filter(xs, p) == [xs[0]] + Filter(xs[1..], p);
        assert Filter(Map(xs, norm), p) == [norm(xs[0])] + Filter(Map(xs[1..], norm), p);
      }
    }
  }

  lemma {:induction false} UpsertKeys<K, V>(m: map<K, V>, entries: seq<(K, V)>)
    ensures UpsertAll(m, entries).Keys == m.Keys + set e | e in entries :: e.0
  {
    if entries != [] {
      var n := |entries| - 1;
      UpsertKeys(m, entries[..n]);
      assert entries == entries[..n] + [entries[n]];
    }
  }
}
