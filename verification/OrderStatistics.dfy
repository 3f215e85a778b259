/** The duration statistics of an operating summary. The rank is the exact rational
    ceiling of 0.95 n. */
module OrderStatistics {
  import opened Ordering
  import opened Results
  import opened Sequences

  /** ceil(0.95 * n), at least 1 */
  function NearestRank(n: nat): (rank: nat)
    ensures 1 <= rank && (n > 0 ==> rank <= n)
    ensures 20 * rank >= 19 * n && (n > 0 ==> 19 * n > 20 * (rank - 1))
  {
    var rank := (19 * n + 19) / 20;
    if rank < 1 then 1 else rank
  }

  /** `_nearest_rank_p95` */
  function NearestRankP95(values: seq<int>): Option<int> { RankOf(Ascending(values)) }

  /** A median as Python holds it. Whole and float medians of one number are equal, but not
      written alike. */
  datatype MedianValue = WholeMedian(n: int) | FloatMedian(value: real)
  {
    function Number(): real { if WholeMedian? then n as real else value }
  }

  /** `==` on two medians or None */
  predicate SameMedian(a: Option<MedianValue>, b: Option<MedianValue>) {
    if a.Some? && b.Some? then a.value.Number() == b.value.Number() else a == b
  }

  /** `statistics.median` */
  function Median(values: seq<int>): Option<MedianValue> { MiddleOf(Ascending(values)) }

  /** The latency reported to D135: the lower of the two middle values. */
  function LowerMedian(values: seq<int>): Option<int> { LowerMiddleOf(Ascending(values)) }

  function Ascending(values: seq<int>): (ordered: seq<int>)
    ensures IsSorted(IntLeq, ordered) && multiset(ordered) == multiset(values)
    ensures |ordered| == |values|
  {
    SortedIsSortedPermutation(IntLeq, values);
    Sorted(IntLeq, values)
  }

  function RankOf(ordered: seq<int>): Option<int> {
    if ordered == [] then None else Some(ordered[NearestRank(|ordered|) - 1])
  }

  /** The middle entry, or the mean of the two middle ones, which Python makes a float. */
  function MiddleOf(ordered: seq<int>): Option<MedianValue> {
    var n := |ordered|;
    if n == 0 then None
    else if n % 2 == 1 then Some(WholeMedian(ordered[n / 2]))
    else Some(FloatMedian((ordered[n / 2 - 1] + ordered[n / 2]) as real / 2.0))
  }

  function LowerMiddleOf(ordered: seq<int>): Option<int> {
    if ordered == [] then None else Some(ordered[(|ordered| - 1) / 2])
  }

  function Min(values: seq<int>): Option<int>
  {
    if values == [] then None
    else match Min(values[1..])
      case None => Some(values[0])
      case Some(m) => Some(if values[0] <= m then values[0] else m)
  }

  function Max(values: seq<int>): Option<int>
  {
    if values == [] then None
    else match Max(values[1..])
      case None => Some(values[0])
      case Some(m) => Some(if values[0] >= m then values[0] else m)
  }

  lemma {:induction false} MinIsLeast(values: seq<int>)
    requires values != []
    ensures Min(values).Some? && Min(values).value in values
    ensures forall v | v in values :: Min(values).value <= v
  {
    assert values == [values[0]] + values[1..];
    if |values| > 1 { MinIsLeast(values[1..]); }
  }

  lemma {:induction false} MaxIsGreatest(values: seq<int>)
    requires values != []
    ensures Max(values).Some? && Max(values).value in values
    ensures forall v | v in values :: v <= Max(values).value
  {
    assert values == [values[0]] + values[1..];
    if |values| > 1 { MaxIsGreatest(values[1..]); }
  }

  /** Counting in a sorted list is locating a boundary. */
  lemma {:induction false} CountBelow(ordered: seq<int>, r: nat, p: int -> bool)
    requires r <= |ordered|
    requires forall i | 0 <= i < r :: p(ordered[i])
    requires forall i | r <= i < |ordered| :: !p(ordered[i])
    ensures |Filter(p, ordered)| == r
  {
    assert ordered == ordered[..r] + ordered[r..];
    FilterAppend(p, ordered[..r], ordered[r..]);
    FilterLength(p, ordered[..r]);
    FilterLength(p, ordered[r..]);
  }

  /** The first index whose value exceeds (or, strictly, reaches) `v`. */
  lemma {:induction false} Boundary(ordered: seq<int>, v: int, strict: bool) returns (r: nat)
    requires IsSorted(IntLeq, ordered)
    ensures r <= |ordered|
    ensures forall i | 0 <= i < r :: if strict then ordered[i] < v else ordered[i] <= v
    ensures forall i | r <= i < |ordered| :: if strict then ordered[i] >= v else ordered[i] > v
  {
    r := 0;
    while r < |ordered| && (if strict then ordered[r] < v else ordered[r] <= v)
      invariant r <= |ordered|
      invariant forall i | 0 <= i < r :: if strict then ordered[i] < v else ordered[i] <= v
    {
      r := r + 1;
    }
    forall i | r <= i < |ordered| ensures IntLeq(ordered[r], ordered[i]) {}
  }

  function AtMost(v: int, values: seq<int>): nat { |Filter(x => x <= v, values)| }

  function Below(v: int, values: seq<int>): nat { |Filter(x => x < v, values)| }

  /** The entry at place `r` of the sorted list is the one member with at most `r` values strictly
      below it and more than `r` at or below it. */
  lemma {:induction false} PlaceCharacterised(values: seq<int>, r: nat, v: int)
    requires r < |values|
    ensures Ascending(values)[r] == v <==> v in values && Below(v, values) <= r < AtMost(v, values)
  {
    hide Sorted, Filter;
    var ordered := Ascending(values);
    SortedMembers(IntLeq, values);
    var hi := Boundary(ordered, v, false);
    var lo := Boundary(ordered, v, true);
    CountBelow(ordered, hi, x => x <= v);
    CountBelow(ordered, lo, x => x < v);
    FilterPermutation(x => x <= v, values, ordered);
    FilterPermutation(x => x < v, values, ordered);
    assert AtMost(v, values) == hi && Below(v, values) == lo;
    assert ordered[r] == v ==> v in ordered;
    assert v in values ==> v in ordered;
  }

  /** The nearest-rank value is the one member with at least 95% of the values at or below
      it and fewer than 95% strictly below it. */
  lemma {:induction false} NearestRankCharacterised(values: seq<int>, v: int)
    requires values != []
    ensures NearestRankP95(values) == Some(v) <==>
              v in values && 20 * AtMost(v, values) >= 19 * |values| && 20 * Below(v, values) < 19 * |values|
  {
    PlaceCharacterised(values, NearestRank(|values|) - 1, v);
  }

  /** The median of an odd number of values is the one member with fewer than half of them strictly
      below it and more than half at or below it. */
  lemma {:induction false} OddMedianCharacterised(values: seq<int>, v: int)
    requires |values| % 2 == 1
    ensures Median(values) == Some(WholeMedian(v)) <==>
              v in values && 2 * Below(v, values) < |values| < 2 * AtMost(v, values)
  {
    PlaceCharacterised(values, |values| / 2, v);
  }

  /** The median of an even number of values is the mean of two members: the lower has fewer than
      half of them strictly below it and at least half at or below it, the upper at most half
      strictly below it and more than half at or below it. */
  lemma {:induction false} EvenMedianCharacterised(values: seq<int>, low: int, high: int)
    requires values != [] && |values| % 2 == 0
    requires low in values && 2 * Below(low, values) < |values| <= 2 * AtMost(low, values)
    requires high in values && 2 * Below(high, values) <= |values| < 2 * AtMost(high, values)
    ensures Median(values) == Some(FloatMedian((low + high) as real / 2.0))
  {
    PlaceCharacterised(values, |values| / 2 - 1, low);
    PlaceCharacterised(values, |values| / 2, high);
  }

  /** There are such members. */
  lemma {:induction false} MiddleMembers(values: seq<int>) returns (low: int, high: int)
    requires values != [] && |values| % 2 == 0
    ensures low in values && 2 * Below(low, values) < |values| <= 2 * AtMost(low, values)
    ensures high in values && 2 * Below(high, values) <= |values| < 2 * AtMost(high, values)
  {
    low, high := Ascending(values)[|values| / 2 - 1], Ascending(values)[|values| / 2];
    PlaceCharacterised(values, |values| / 2 - 1, low);
    PlaceCharacterised(values, |values| / 2, high);
  }

  /** The lower median is the one member with fewer than half of the values strictly below it and
      at least half at or below it, for odd and for even numbers of values. */
  lemma {:induction false} LowerMedianCharacterised(values: seq<int>, v: int)
    requires values != []
    ensures LowerMedian(values) == Some(v) <==>
              v in values && 2 * Below(v, values) < |values| <= 2 * AtMost(v, values)
  {
    PlaceCharacterised(values, (|values| - 1) / 2, v);
  }

  /** min <= median <= p95 <= max for every nonempty list, and D135's lower median never
      exceeds the median. */
  lemma {:induction false} StatisticsOrdered(values: seq<int>)
    requires values != []
    ensures Min(values).Some? && Median(values).Some? && NearestRankP95(values).Some?
    ensures Max(values).Some? && LowerMedian(values).Some?
    ensures Min(values).value as real <= Median(values).value.Number()
    ensures Median(values).value.Number() <= NearestRankP95(values).value as real
    ensures NearestRankP95(values).value <= Max(values).value
    ensures Min(values).value <= LowerMedian(values).value
    ensures LowerMedian(values).value as real <= Median(values).value.Number()
  {
    var ordered := Ascending(values);
    MiddleBetween(ordered);
    Extremes(values, (|ordered| - 1) / 2);
    Extremes(values, NearestRank(|ordered|) - 1);
  }

  /** The median lies between the lower middle entry and the nearest-rank entry. */
  lemma {:induction false} MiddleBetween(ordered: seq<int>)
    requires ordered != [] && IsSorted(IntLeq, ordered)
    ensures LowerMiddleOf(ordered).value as real <= MiddleOf(ordered).value.Number()
    ensures MiddleOf(ordered).value.Number() <= RankOf(ordered).value as real
  {
    var n := |ordered|;
    var k := NearestRank(n) - 1;
    var low, high := ordered[(n - 1) / 2], ordered[n / 2];
    assert low <= high by { assert (n - 1) / 2 == n / 2 || IntLeq(low, high); }
    assert n / 2 <= k;
    assert high <= ordered[k] by { assert n / 2 == k || IntLeq(high, ordered[k]); }
    assert MiddleOf(ordered).value.Number() == (low + high) as real / 2.0;
  }

  function Half(twice: int): real { twice as real / 2.0 }

  /** Whole or a float of halves. */
  ghost predicate IsHalf(m: Option<MedianValue>) {
    m.Some? && m.value.FloatMedian? ==> exists twice: int :: m.value.value == Half(twice)
  }

  /** A median of integers is held whole exactly for an odd number of values, and is otherwise a
      float with one binary place. */
  lemma {:induction false} MedianForm(values: seq<int>)
    ensures Median(values).Some? <==> values != []
    ensures values != [] ==> (Median(values).value.WholeMedian? <==> |values| % 2 == 1)
    ensures IsHalf(Median(values))
  {
    var ordered := Ascending(values);
    var n := |ordered|;
    if n > 0 && n % 2 == 0 {
      var twice := ordered[n / 2 - 1] + ordered[n / 2];
      assert Median(values).value.value == Half(twice);
    }
  }

  /** Every entry of the sorted list lies between the minimum and the maximum. */
  lemma {:induction false} Extremes(values: seq<int>, i: nat)
    requires i < |values|
    ensures Min(values).Some? && Max(values).Some?
    ensures Min(values).value <= Ascending(values)[i] <= Max(values).value
  {
    SortedIsSortedPermutation(IntLeq, values);
    SortedMembers(IntLeq, values);
    MinIsLeast(values);
    MaxIsGreatest(values);
    assert Ascending(values)[i] in values;
  }

  /** Every statistic depends only on which values occur how often. */
  lemma {:induction false} StatisticsPermutationInvariant(xs: seq<int>, ys: seq<int>)
    requires multiset(xs) == multiset(ys)
    ensures NearestRankP95(xs) == NearestRankP95(ys) && Median(xs) == Median(ys)
    ensures LowerMedian(xs) == LowerMedian(ys) && Min(xs) == Min(ys) && Max(xs) == Max(ys)
  {
    SortedPermutationInvariant(IntLeq, xs, ys);
    assert Ascending(xs) == Ascending(ys);
    ExtremesPermutationInvariant(xs, ys);
  }

  lemma {:induction false} ExtremesPermutationInvariant(xs: seq<int>, ys: seq<int>)
    requires multiset(xs) == multiset(ys)
    ensures Min(xs) == Min(ys) && Max(xs) == Max(ys)
    ensures xs == [] <==> ys == []
  {
    PermutationMembers(xs, ys);
    if xs != [] {
      MinIsLeast(xs);
      MinIsLeast(ys);
      MaxIsGreatest(xs);
      MaxIsGreatest(ys);
    }
  }
}
