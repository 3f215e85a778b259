/** Total orders, the lexicographic order Python uses on strings and tuples, and
    stable sorting. `Sorted(xs, leq)` stands for Python's `sorted`. */
module Ordering {

  ghost predicate TotalPreorder<T(!new)>(leq: (T, T) -> bool) {
    && (forall x, y :: leq(x, y) || leq(y, x))
    && (forall x, y, z :: leq(x, y) && leq(y, z) ==> leq(x, z))
  }

  ghost predicate TotalOrder<T(!new)>(leq: (T, T) -> bool) {
    && TotalPreorder(leq)
    && (forall x, y :: leq(x, y) && leq(y, x) ==> x == y)
  }

  // ---------------------------------------------------------------- lexicographic order

  predicate Lex<T(==)>(leq: (T, T) -> bool, a: seq<T>, b: seq<T>) {
    if a == [] then true
    else if b == [] then false
    else if a[0] == b[0] then Lex(leq, a[1..], b[1..])
    else leq(a[0], b[0])
  }

  lemma {:induction false} LexTotal<T>(leq: (T, T) -> bool, a: seq<T>, b: seq<T>)
    requires forall x, y | x in a && y in b :: leq(x, y) || leq(y, x)
    ensures Lex(leq, a, b) || Lex(leq, b, a)
  {
    if a != [] && b != [] && a[0] == b[0] {
      LexTotal(leq, a[1..], b[1..]);
    }
  }

  lemma {:induction false} LexAntisymmetric<T(!new)>(leq: (T, T) -> bool, a: seq<T>, b: seq<T>)
    requires TotalOrder(leq) && Lex(leq, a, b) && Lex(leq, b, a)
    ensures a == b
  {
    if a != [] && b != [] && a[0] == b[0] {
      LexAntisymmetric(leq, a[1..], b[1..]);
    }
  }

  lemma {:induction false} LexTransitive<T(!new)>(leq: (T, T) -> bool, a: seq<T>, b: seq<T>, c: seq<T>)
    requires TotalOrder(leq) && Lex(leq, a, b) && Lex(leq, b, c)
    ensures Lex(leq, a, c)
  {
    if a != [] && b != [] && c != [] && a[0] == b[0] && b[0] == c[0] {
      LexTransitive(leq, a[1..], b[1..], c[1..]);
    }
  }

  predicate CharLeq(a: char, b: char) { a <= b }

  /** Python's `<=` on `str`: code point by code point. */
  predicate StrLeq(a: string, b: string) { Lex(CharLeq, a, b) }

  /** Python's `<=` on tuples of strings. */
  predicate KeyLeq(a: seq<string>, b: seq<string>) { Lex(StrLeq, a, b) }

  predicate IntLeq(a: int, b: int) { a <= b }

  lemma {:induction false} StrOrder()
    ensures TotalOrder(StrLeq)
  {
    assert TotalOrder(CharLeq);
    forall a, b ensures StrLeq(a, b) || StrLeq(b, a) { LexTotal(CharLeq, a, b); }
    forall a, b | StrLeq(a, b) && StrLeq(b, a) ensures a == b { LexAntisymmetric(CharLeq, a, b); }
    forall a, b, c | StrLeq(a, b) && StrLeq(b, c) ensures StrLeq(a, c) { LexTransitive(CharLeq, a, b, c); }
  }

  lemma {:induction false} KeyOrder()
    ensures TotalOrder(KeyLeq)
  {
    StrOrder();
    forall a, b ensures KeyLeq(a, b) || KeyLeq(b, a) { LexTotal(StrLeq, a, b); }
    forall a, b | KeyLeq(a, b) && KeyLeq(b, a) ensures a == b { LexAntisymmetric(StrLeq, a, b); }
    forall a, b, c | KeyLeq(a, b) && KeyLeq(b, c) ensures KeyLeq(a, c) { LexTransitive(StrLeq, a, b, c); }
  }

  /** The first place where two texts differ decides, and a text comes before every longer text it
      begins. */
  lemma {:induction false} StrLeqExactly(a: string, b: string)
    ensures StrLeq(a, b) <==> a <= b || exists i :: DiffersAt(a, b, i) && a[i] < b[i]
  {
    if a != [] && b != [] && a[0] == b[0] {
      StrLeqExactly(a[1..], b[1..]);
      assert a == [a[0]] + a[1..] && b == [b[0]] + b[1..];
      assert a <= b <==> a[1..] <= b[1..];
      if i :| DiffersAt(a[1..], b[1..], i) && a[1..][i] < b[1..][i] {
        assert a[..i + 1] == [a[0]] + a[1..][..i] && b[..i + 1] == [b[0]] + b[1..][..i];
        assert DiffersAt(a, b, i + 1);
      }
      if i :| DiffersAt(a, b, i) && a[i] < b[i] {
        assert a[1..][..i - 1] == a[..i][1..] && b[1..][..i - 1] == b[..i][1..];
        assert DiffersAt(a[1..], b[1..], i - 1);
      }
    } else if a != [] && b != [] {
      if a[0] < b[0] { assert DiffersAt(a, b, 0); }
      if i :| DiffersAt(a, b, i) && a[i] < b[i] { assert i > 0 ==> a[..i][0] == b[..i][0]; }
    }
  }

  /** `i` is the first place where the two differ. */
  ghost predicate DiffersAt(a: string, b: string, i: int) {
    0 <= i < |a| && i < |b| && a[..i] == b[..i] && a[i] != b[i]
  }

  lemma {:induction false} StrAppend(p: string, a: string, b: string)
    ensures StrLeq(p + a, p + b) == StrLeq(a, b)
  {
    if p == [] {
      assert p + a == a && p + b == b;
    } else {
      assert (p + a)[1..] == p[1..] + a && (p + b)[1..] == p[1..] + b;
      StrAppend(p[1..], a, b);
    }
  }

  // ---------------------------------------------------------------- sorting

  ghost predicate IsSorted<T>(leq: (T, T) -> bool, xs: seq<T>) {
    forall i, j | 0 <= i < j < |xs| :: leq(xs[i], xs[j])
  }

  function Insert<T>(leq: (T, T) -> bool, x: T, xs: seq<T>): seq<T> {
    if xs == [] || leq(x, xs[0]) then [x] + xs else [xs[0]] + Insert(leq, x, xs[1..])
  }

  /** Python's `sorted`: a stable sort, elements that compare equal keep their order. */
  function Sorted<T>(leq: (T, T) -> bool, xs: seq<T>): seq<T> {
    if xs == [] then [] else Insert(leq, xs[0], Sorted(leq, xs[1..]))
  }

  lemma {:induction false} ConsMultiset<T>(x: T, xs: seq<T>)
    ensures multiset([x] + xs) == multiset{x} + multiset(xs)
  {}

  lemma {:induction false} UnconsMultiset<T>(xs: seq<T>)
    requires xs != []
    ensures multiset(xs) == multiset{xs[0]} + multiset(xs[1..])
    ensures multiset(xs[1..]) == multiset(xs) - multiset{xs[0]}
  {
    ConsMultiset(xs[0], xs[1..]);
    assert [xs[0]] + xs[1..] == xs;
  }

  lemma {:induction false} InsertPermutes<T>(leq: (T, T) -> bool, x: T, xs: seq<T>)
    ensures multiset(Insert(leq, x, xs)) == multiset{x} + multiset(xs)
  {
    if xs == [] || leq(x, xs[0]) {
      ConsMultiset(x, xs);
    } else {
      InsertPermutes(leq, x, xs[1..]);
      ConsMultiset(xs[0], Insert(leq, x, xs[1..]));
      UnconsMultiset(xs);
    }
  }

  lemma {:induction false} InsertMembers<T>(leq: (T, T) -> bool, x: T, xs: seq<T>, y: T)
    ensures y in Insert(leq, x, xs) <==> y == x || y in xs
  {
    if xs != [] && !leq(x, xs[0]) {
      InsertMembers(leq, x, xs[1..], y);
    }
  }

  lemma {:induction false} InsertSorts<T(!new)>(leq: (T, T) -> bool, x: T, xs: seq<T>)
    requires TotalPreorder(leq) && IsSorted(leq, xs)
    ensures IsSorted(leq, Insert(leq, x, xs))
  {
    if xs != [] && !leq(x, xs[0]) {
      InsertSorts(leq, x, xs[1..]);
      forall y | y in Insert(leq, x, xs[1..]) ensures leq(xs[0], y) {
        InsertMembers(leq, x, xs[1..], y);
      }
    }
  }

  lemma {:induction false} SortedPermutes<T>(leq: (T, T) -> bool, xs: seq<T>)
    ensures multiset(Sorted(leq, xs)) == multiset(xs)
  {
    if xs != [] {
      SortedPermutes(leq, xs[1..]);
      InsertPermutes(leq, xs[0], Sorted(leq, xs[1..]));
      UnconsMultiset(xs);
    }
  }

  lemma {:induction false} SortedSorts<T(!new)>(leq: (T, T) -> bool, xs: seq<T>)
    requires TotalPreorder(leq)
    ensures IsSorted(leq, Sorted(leq, xs))
  {
    if xs != [] {
      SortedSorts(leq, xs[1..]);
      InsertSorts(leq, xs[0], Sorted(leq, xs[1..]));
    }
  }

  /** `sorted` returns an ordered rearrangement of its input. */
  lemma {:induction false} SortedIsSortedPermutation<T(!new)>(leq: (T, T) -> bool, xs: seq<T>)
    ensures multiset(Sorted(leq, xs)) == multiset(xs)
    ensures |Sorted(leq, xs)| == |xs|
    ensures TotalPreorder(leq) ==> IsSorted(leq, Sorted(leq, xs))
  {
    SortedPermutes(leq, xs);
    if TotalPreorder(leq) { SortedSorts(leq, xs); }
    assert |multiset(Sorted(leq, xs))| == |Sorted(leq, xs)| && |multiset(xs)| == |xs|;
  }

  /** Two sorted arrangements of the same elements are equal when no two distinct
      elements tie. */
  lemma {:induction false} SortedUnique<T(!new)>(leq: (T, T) -> bool, a: seq<T>, b: seq<T>)
    requires multiset(a) == multiset(b)
    requires IsSorted(leq, a) && IsSorted(leq, b)
    requires forall x, y | x in a && y in a && leq(x, y) && leq(y, x) :: x == y
    ensures a == b
  {
    assert |multiset(a)| == |a| && |multiset(b)| == |b|;
    if a != [] {
      assert a[0] in multiset(b) && b[0] in multiset(a);
      assert a[0] == b[0];
      UnconsMultiset(a);
      UnconsMultiset(b);
      SortedUnique(leq, a[1..], b[1..]);
      assert a == [a[0]] + a[1..] && b == [b[0]] + b[1..];
    }
  }

  /** Sorting forgets the order of the input when no two distinct elements tie. */
  lemma {:induction false} SortedPermutationInvariant<T(!new)>(leq: (T, T) -> bool, xs: seq<T>, ys: seq<T>)
    requires TotalPreorder(leq) && multiset(xs) == multiset(ys)
    requires forall x, y | x in xs && y in xs && leq(x, y) && leq(y, x) :: x == y
    ensures Sorted(leq, xs) == Sorted(leq, ys)
  {
    SortedIsSortedPermutation(leq, xs);
    SortedIsSortedPermutation(leq, ys);
    forall x | x in Sorted(leq, xs) ensures x in xs {
      assert x in multiset(Sorted(leq, xs));
    }
    SortedUnique(leq, Sorted(leq, xs), Sorted(leq, ys));
  }

  /** A list that is already in order is left alone. */
  lemma {:induction false} SortedFixpoint<T(!new)>(leq: (T, T) -> bool, xs: seq<T>)
    requires IsSorted(leq, xs)
    ensures Sorted(leq, xs) == xs
  {
    if xs != [] {
      SortedFixpoint(leq, xs[1..]);
      assert xs == [xs[0]] + xs[1..];
      if |xs| > 1 { assert leq(xs[0], xs[1]); }
    }
  }

  lemma {:induction false} SortedMembers<T(!new)>(leq: (T, T) -> bool, xs: seq<T>)
    ensures forall x :: x in Sorted(leq, xs) <==> x in xs
  {
    SortedIsSortedPermutation(leq, xs);
    forall x ensures x in Sorted(leq, xs) <==> x in xs {
      assert x in Sorted(leq, xs) <==> x in multiset(Sorted(leq, xs));
      assert x in xs <==> x in multiset(xs);
    }
  }
}
