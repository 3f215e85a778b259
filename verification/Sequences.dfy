/** Comprehensions, counters and duplicate removal over Python sequences. A `Counter`
    is Dafny's multiset. */
module Sequences {
  import opened Ordering

  ghost predicate Distinct<T>(xs: seq<T>) {
    forall i, j | 0 <= i < j < |xs| :: xs[i] != xs[j]
  }

  /** `[y for x in xs for y in f(x)]`; with `f(x)` empty or a singleton it is a filtered
      comprehension. */
  function Collect<A, B>(f: A -> seq<B>, xs: seq<A>): seq<B> {
    if xs == [] then [] else f(xs[0]) + Collect(f, xs[1..])
  }

  /** `[f(x) for x in xs]` */
  function Map<A, B>(f: A -> B, xs: seq<A>): (r: seq<B>)
    ensures |r| == |xs| && forall i | 0 <= i < |xs| :: r[i] == f(xs[i])
  {
    if xs == [] then [] else [f(xs[0])] + Map(f, xs[1..])
  }

  /** `[x for x in xs if p(x)]` */
  function Filter<A>(p: A -> bool, xs: seq<A>): seq<A> {
    Collect(x => if p(x) then [x] else [], xs)
  }

  /** `p` relates the two lists entry by entry. */
  ghost predicate Pairwise<A, B>(p: (A, B) -> bool, xs: seq<A>, ys: seq<B>) {
    |xs| == |ys| && forall i | 0 <= i < |xs| :: p(xs[i], ys[i])
  }

  lemma {:induction false} PairAt<A, B>(p: (A, B) -> bool, xs: seq<A>, ys: seq<B>, i: nat)
    requires Pairwise(p, xs, ys) && i < |xs|
    ensures p(xs[i], ys[i])
  {}

  lemma {:induction false} PairwiseSnoc<A, B>(p: (A, B) -> bool, xs: seq<A>, ys: seq<B>, x: A, y: B)
    requires Pairwise(p, xs, ys) && p(x, y)
    ensures Pairwise(p, xs + [x], ys + [y])
  {}

  lemma {:induction false} PairwiseJoin<A, B>(p: (A, B) -> bool, a: seq<A>, b: seq<A>, x: seq<B>, y: seq<B>)
    requires Pairwise(p, a, x) && Pairwise(p, b, y)
    ensures Pairwise(p, a + b, x + y)
  {}

  lemma {:induction false} PairwiseSplit<A, B>(p: (A, B) -> bool, a: seq<A>, b: seq<A>, x: seq<B>, y: seq<B>)
    requires |a| == |x| && Pairwise(p, a + b, x + y)
    ensures Pairwise(p, a, x) && Pairwise(p, b, y)
  {
    forall i | 0 <= i < |a| ensures p(a[i], x[i]) {
      assert p((a + b)[i], (x + y)[i]);
    }
    forall i | 0 <= i < |b| ensures p(b[i], y[i]) {
      assert p((a + b)[|a| + i], (x + y)[|a| + i]);
    }
  }

  /** The distinct elements of `xs` in order of first occurrence, the iteration order of
      `Counter(xs)`. */
  function Dedup<A(==)>(xs: seq<A>): (r: seq<A>)
    ensures Distinct(r) && forall i | 0 <= i < |r| :: r[i] in xs
    ensures forall i | 0 <= i < |xs| :: xs[i] in r
  {
    if xs == [] then []
    else
      var n := |xs| - 1;
      var r := Dedup(xs[..n]);
      assert xs == xs[..n] + [xs[n]];
      if xs[n] in r then r else r + [xs[n]]
  }

  lemma {:induction false} TakeOneMore<A>(xs: seq<A>, i: nat)
    requires i < |xs|
    ensures xs[..i + 1] == xs[..i] + [xs[i]]
    ensures i + 1 == |xs| ==> xs[..i + 1] == xs
  {}

  lemma {:induction false} CollectAppend<A, B>(f: A -> seq<B>, xs: seq<A>, ys: seq<A>)
    ensures Collect(f, xs + ys) == Collect(f, xs) + Collect(f, ys)
  {
    if xs == [] {
      assert xs + ys == ys;
    } else {
      assert (xs + ys)[1..] == xs[1..] + ys;
      CollectAppend(f, xs[1..], ys);
    }
  }

  lemma {:induction false} CollectSnoc<A, B>(f: A -> seq<B>, xs: seq<A>, x: A)
    ensures Collect(f, xs + [x]) == Collect(f, xs) + f(x)
  {
    CollectAppend(f, xs, [x]);
    assert Collect(f, [x]) == f(x) + [];
  }

  /** Taking one element out of the middle. */
  lemma {:induction false} RemoveAt<A>(ys: seq<A>, k: nat)
    requires k < |ys|
    ensures multiset(ys) == multiset{ys[k]} + multiset(ys[..k] + ys[k+1..])
  {
    assert ys == ys[..k] + ([ys[k]] + ys[k+1..]);
    ConsMultiset(ys[k], ys[k+1..]);
    assert multiset(ys) == multiset(ys[..k]) + multiset([ys[k]] + ys[k+1..]);
    assert multiset(ys[..k] + ys[k+1..]) == multiset(ys[..k]) + multiset(ys[k+1..]);
  }

  lemma {:induction false} Around<A>(ys: seq<A>, k: nat)
    requires k < |ys|
    ensures ys == ys[..k] + ([ys[k]] + ys[k+1..])
  {}

  lemma {:induction false} CollectCons<A, B>(f: A -> seq<B>, x: A, xs: seq<A>)
    ensures Collect(f, [x] + xs) == f(x) + Collect(f, xs)
  {
    assert ([x] + xs)[1..] == xs;
  }

  lemma {:induction false} CollectRemoveAt<A, B>(f: A -> seq<B>, ys: seq<A>, k: nat)
    requires k < |ys|
    ensures multiset(Collect(f, ys)) == multiset(f(ys[k])) + multiset(Collect(f, ys[..k] + ys[k+1..]))
  {
    Around(ys, k);
    CollectAppend(f, ys[..k], [ys[k]] + ys[k+1..]);
    CollectAppend(f, ys[..k], ys[k+1..]);
    CollectCons(f, ys[k], ys[k+1..]);
  }

  /** A comprehension over a reordered list yields a reordered result. */
  lemma {:induction false} CollectPermutation<A, B>(f: A -> seq<B>, xs: seq<A>, ys: seq<A>)
    requires multiset(xs) == multiset(ys)
    ensures multiset(Collect(f, xs)) == multiset(Collect(f, ys))
  {
    if xs == [] {
      assert |multiset(ys)| == 0;
    } else {
      UnconsMultiset(xs);
      assert xs[0] in multiset(ys);
      var k :| 0 <= k < |ys| && ys[k] == xs[0];
      RemoveAt(ys, k);
      CollectPermutation(f, xs[1..], ys[..k] + ys[k+1..]);
      CollectRemoveAt(f, ys, k);
      assert multiset(Collect(f, xs)) == multiset(f(xs[0])) + multiset(Collect(f, xs[1..]));
    }
  }

  lemma {:induction false} CollectMember<A, B>(f: A -> seq<B>, xs: seq<A>, y: B)
    ensures y in Collect(f, xs) <==> exists i :: 0 <= i < |xs| && y in f(xs[i])
  {
    if xs != [] {
      CollectMember(f, xs[1..], y);
      if i :| 0 <= i < |xs| && y in f(xs[i]) {
        if i > 0 { assert xs[1..][i - 1] == xs[i]; }
      }
      if y in Collect(f, xs[1..]) {
        var i :| 0 <= i < |xs[1..]| && y in f(xs[1..][i]);
        assert xs[i + 1] == xs[1..][i];
      }
    }
  }

  lemma {:induction false} CollectSame<A, B>(f: A -> seq<B>, g: A -> seq<B>, xs: seq<A>)
    requires forall x | x in xs :: f(x) == g(x)
    ensures Collect(f, xs) == Collect(g, xs)
  {
    if xs != [] { CollectSame(f, g, xs[1..]); }
  }

  /** A comprehension over a mapped list is a comprehension over the list. */
  lemma {:induction false} CollectOfMap<A, B, C>(m: A -> B, f: B -> seq<C>, g: A -> seq<C>, xs: seq<A>)
    requires forall x | x in xs :: f(m(x)) == g(x)
    ensures Collect(f, Map(m, xs)) == Collect(g, xs)
  {
    if xs != [] {
      assert Map(m, xs)[1..] == Map(m, xs[1..]);
      CollectOfMap(m, f, g, xs[1..]);
    }
  }

  lemma {:induction false} FilterMember<A>(p: A -> bool, xs: seq<A>, x: A)
    ensures x in Filter(p, xs) <==> x in xs && p(x)
  {
    CollectMember(y => if p(y) then [y] else [], xs, x);
  }

  /** `kept` holds the values of `xs` at exactly the positions where `p` holds, in order. */
  ghost predicate KeptAt<A>(p: A -> bool, xs: seq<A>, kept: seq<A>, at: seq<nat>) {
    && |at| == |kept|
    && (forall i, j | 0 <= i < j < |at| :: at[i] < at[j])
    && (forall i | 0 <= i < |at| :: at[i] < |xs| && p(xs[at[i]]) && kept[i] == xs[at[i]])
    && (forall k | 0 <= k < |xs| && p(xs[k]) :: k in at)
  }

  lemma {:induction false} FilterPositions<A>(p: A -> bool, xs: seq<A>) returns (at: seq<nat>)
    ensures KeptAt(p, xs, Filter(p, xs), at)
  {
    at := [];
    if xs != [] {
      var before, x := xs[..|xs| - 1], xs[|xs| - 1];
      at := FilterPositions(p, before);
      assert before + [x] == xs;
      FilterAppend(p, before, [x]);
      FilterOne(p, x);
      KeepOneMore(p, before, x, Filter(p, before), at);
      if p(x) { at := at + [|before|]; } else { assert Filter(p, xs) == Filter(p, before); }
    }
  }

  lemma {:induction false} FilterOne<A>(p: A -> bool, x: A)
    ensures Filter(p, [x]) == if p(x) then [x] else []
  {
    var f := (y: A) => if p(y) then [y] else [];
    assert Filter(p, [x]) == f([x][0]) + Filter(p, [x][1..]);
    assert [x][1..] == [];
  }

  lemma {:induction false} KeepOneMore<A>(p: A -> bool, xs: seq<A>, x: A, kept: seq<A>, at: seq<nat>)
    requires KeptAt(p, xs, kept, at)
    ensures p(x) ==> KeptAt(p, xs + [x], kept + [x], at + [|xs|])
    ensures !p(x) ==> KeptAt(p, xs + [x], kept, at)
  {
    if p(x) {
      var at' := at + [|xs|];
      forall k | 0 <= k < |xs + [x]| && p((xs + [x])[k]) ensures k in at' {
        if k < |xs| { assert k in at; } else { assert at'[|at|] == k; }
      }
    }
  }

  lemma {:induction false} FilterLength<A>(p: A -> bool, xs: seq<A>)
    ensures |Filter(p, xs)| <= |xs|
    ensures |Filter(p, xs)| == |xs| <==> forall x | x in xs :: p(x)
    ensures |Filter(p, xs)| == 0 <==> forall x | x in xs :: !p(x)
  {
    if xs != [] {
      var f := (y: A) => if p(y) then [y] else [];
      FilterLength(p, xs[1..]);
      assert Filter(p, xs) == f(xs[0]) + Filter(p, xs[1..]);
      assert forall x :: x in xs <==> x == xs[0] || x in xs[1..];
    }
  }

  lemma {:induction false} FilterAppend<A>(p: A -> bool, xs: seq<A>, ys: seq<A>)
    ensures Filter(p, xs + ys) == Filter(p, xs) + Filter(p, ys)
  {
    CollectAppend(y => if p(y) then [y] else [], xs, ys);
  }

  lemma {:induction false} FilterSnoc<A>(p: A -> bool, xs: seq<A>, x: A)
    ensures |Filter(p, xs + [x])| == |Filter(p, xs)| + if p(x) then 1 else 0
  {
    CollectSnoc(y => if p(y) then [y] else [], xs, x);
  }

  /** A filter by a stronger condition keeps no more. */
  lemma {:induction false} FilterMonotone<A>(p: A -> bool, q: A -> bool, xs: seq<A>)
    requires forall x | x in xs && p(x) :: q(x)
    ensures |Filter(p, xs)| <= |Filter(q, xs)|
  {
    if xs != [] { FilterMonotone(p, q, xs[1..]); }
  }

  lemma {:induction false} FilterPermutation<A>(p: A -> bool, xs: seq<A>, ys: seq<A>)
    requires multiset(xs) == multiset(ys)
    ensures multiset(Filter(p, xs)) == multiset(Filter(p, ys))
    ensures |Filter(p, xs)| == |Filter(p, ys)|
  {
    CollectPermutation(y => if p(y) then [y] else [], xs, ys);
    assert |multiset(Filter(p, xs))| == |Filter(p, xs)|;
    assert |multiset(Filter(p, ys))| == |Filter(p, ys)|;
  }

  /** The count a `Counter` holds for `v` is the number of elements equal to it. */
  lemma {:induction false} CounterCounts<A>(xs: seq<A>, v: A)
    ensures multiset(xs)[v] == |Filter(x => x == v, xs)|
  {
    if xs != [] {
      CounterCounts(xs[1..], v);
      assert xs == [xs[0]] + xs[1..];
    }
  }

  lemma {:induction false} MapPermutation<A, B>(f: A -> B, xs: seq<A>, ys: seq<A>)
    requires multiset(xs) == multiset(ys)
    ensures multiset(Map(f, xs)) == multiset(Map(f, ys))
  {
    var g := (x: A) => [f(x)];
    MapIsCollect(f, xs);
    MapIsCollect(f, ys);
    CollectPermutation(g, xs, ys);
  }

  lemma {:induction false} MapIsCollect<A, B>(f: A -> B, xs: seq<A>)
    ensures Map(f, xs) == Collect((x: A) => [f(x)], xs)
  {
    if xs != [] { MapIsCollect(f, xs[1..]); }
  }

  lemma {:induction false} PermutationMembers<A>(xs: seq<A>, ys: seq<A>)
    requires multiset(xs) == multiset(ys)
    ensures |xs| == |ys| && forall x :: x in xs <==> x in ys
  {
    assert |multiset(xs)| == |xs| && |multiset(ys)| == |ys|;
    forall x ensures x in xs <==> x in ys {
      assert x in xs <==> x in multiset(xs);
      assert x in ys <==> x in multiset(ys);
    }
  }

  lemma {:induction false} PermutationSameSet<A>(xs: seq<A>, ys: seq<A>)
    requires multiset(xs) == multiset(ys)
    ensures |xs| == |ys| && (set x | x in xs) == (set x | x in ys)
  {
    PermutationMembers(xs, ys);
  }

  lemma {:induction false} DistinctMultiset<A>(xs: seq<A>, x: A)
    requires Distinct(xs)
    ensures multiset(xs)[x] == if x in xs then 1 else 0
  {
    if xs != [] {
      DistinctMultiset(xs[1..], x);
      assert xs == [xs[0]] + xs[1..];
    }
  }

  lemma {:induction false} DistinctPermutation<A>(xs: seq<A>, ys: seq<A>)
    requires multiset(xs) == multiset(ys) && Distinct(xs)
    ensures Distinct(ys)
  {
    forall i, j | 0 <= i < j < |ys| ensures ys[i] != ys[j] {
      DistinctMultiset(xs, ys[i]);
      RemoveAt(ys, i);
      assert ys[j] == (ys[..i] + ys[i+1..])[j - 1];
      assert ys[j] in multiset(ys[..i] + ys[i+1..]);
    }
  }

  /** Two duplicate-free lists with the same elements are permutations. */
  lemma {:induction false} DistinctSameElements<A>(xs: seq<A>, ys: seq<A>)
    requires Distinct(xs) && Distinct(ys) && forall x :: x in xs <==> x in ys
    ensures multiset(xs) == multiset(ys)
  {
    forall x ensures multiset(xs)[x] == multiset(ys)[x] {
      DistinctMultiset(xs, x);
      DistinctMultiset(ys, x);
    }
  }

  lemma {:induction false} DistinctCardinality<A>(xs: seq<A>)
    ensures Distinct(xs) <==> |set x | x in xs| == |xs|
    ensures |set x | x in xs| <= |xs|
  {
    if xs == [] {
      assert (set x | x in xs) == {};
    } else {
      var rest := set x | x in xs[1..];
      DistinctCardinality(xs[1..]);
      assert (set x | x in xs) == rest + {xs[0]};
      if Distinct(xs) {
        assert xs[0] !in rest;
      } else if Distinct(xs[1..]) {
        assert xs[0] in xs[1..];
      }
    }
  }

  function Sum(xs: seq<int>): int {
    if xs == [] then 0 else xs[0] + Sum(xs[1..])
  }

  lemma {:induction false} SumAppend(xs: seq<int>, ys: seq<int>)
    ensures Sum(xs + ys) == Sum(xs) + Sum(ys)
  {
    if xs == [] {
      assert xs + ys == ys;
    } else {
      assert (xs + ys)[1..] == xs[1..] + ys;
      SumAppend(xs[1..], ys);
    }
  }

  lemma {:induction false} SumRemoveAt(ys: seq<int>, k: nat)
    requires k < |ys|
    ensures Sum(ys) == ys[k] + Sum(ys[..k] + ys[k+1..])
  {
    Around(ys, k);
    SumAppend(ys[..k], [ys[k]] + ys[k+1..]);
    SumAppend(ys[..k], ys[k+1..]);
    assert ([ys[k]] + ys[k+1..])[1..] == ys[k+1..];
  }

  lemma {:induction false} SumPermutation(xs: seq<int>, ys: seq<int>)
    requires multiset(xs) == multiset(ys)
    ensures Sum(xs) == Sum(ys)
  {
    if xs == [] {
      assert |multiset(ys)| == 0;
    } else {
      UnconsMultiset(xs);
      assert xs[0] in multiset(ys);
      var k :| 0 <= k < |ys| && ys[k] == xs[0];
      RemoveAt(ys, k);
      SumPermutation(xs[1..], ys[..k] + ys[k+1..]);
      SumRemoveAt(ys, k);
    }
  }

  /** How often each of `keys` occurs in `xs`. */
  function CountsOf<A(==)>(xs: seq<A>, keys: seq<A>): (r: seq<int>)
    ensures |r| == |keys| && forall i | 0 <= i < |r| :: r[i] == multiset(xs)[keys[i]]
  {
    if keys == [] then [] else [multiset(xs)[keys[0]]] + CountsOf(xs, keys[1..])
  }

  lemma {:induction false} WithoutKey<A>(xs: seq<A>, key: A)
    ensures var rest := Filter(x => x != key, xs);
      && |xs| == multiset(xs)[key] + |rest|
      && (forall k | k != key :: multiset(rest)[k] == multiset(xs)[k])
      && (forall x | x in rest :: x in xs && x != key)
  {
    var p := (x: A) => x != key;
    if xs != [] {
      WithoutKey(xs[1..], key);
      UnconsMultiset(xs);
      assert Filter(p, xs) == (if p(xs[0]) then [xs[0]] else []) + Filter(p, xs[1..]);
    }
  }

  lemma {:induction false} FirstIsMember<A>(xs: seq<A>)
    ensures xs == [] || exists x :: x in xs
  {
    if xs != [] { assert xs[0] in xs; }
  }

  /** The counts of all distinct elements add up to the length. */
  lemma {:induction false} CountsAddUp<A>(xs: seq<A>, keys: seq<A>)
    requires Distinct(keys) && forall x | x in xs :: x in keys
    ensures Sum(CountsOf(xs, keys)) == |xs|
    decreases |keys|
  {
    if keys == [] {
      FirstIsMember(xs);
    } else {
      var rest := Filter(x => x != keys[0], xs);
      WithoutKey(xs, keys[0]);
      CountsAddUp(rest, keys[1..]);
      assert CountsOf(xs, keys[1..]) == CountsOf(rest, keys[1..]);
    }
  }
}
