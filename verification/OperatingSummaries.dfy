/** The operating summary of a run as D138 computes it. */
module OperatingSummaries {
  import opened BenchmarkContracts
  import opened OrderStatistics
  import opened Ordering
  import opened Results
  import opened Sequences

  datatype Summary = Summary(
    trialCount: int,
    completedCount: int,
    insufficientCount: int,
    blockedCount: int,
    failedCount: int,
    unavailableCount: int,
    terminalStates: seq<(string, int)>,
    safeFailures: seq<(string, int)>,
    invocationCounts: seq<int>,
    draftGenerationCounts: seq<int>,
    revisionCounts: seq<int>,
    durationMin: Option<int>,
    durationMedian: Option<MedianValue>,
    durationP95: Option<int>,
    durationMax: Option<int>)

  /** `==` on two summaries: a whole and a float median can be equal. */
  predicate SameSummary(a: Summary, b: Summary) {
    a == b.(durationMedian := a.durationMedian) && SameMedian(a.durationMedian, b.durationMedian)
  }

  /** Python's `<=` on (text, count) pairs. */
  predicate PairLeq(a: (string, int), b: (string, int)) {
    if a.0 == b.0 then a.1 <= b.1 else StrLeq(a.0, b.0)
  }

  lemma {:induction false} PairOrder()
    ensures TotalOrder(PairLeq)
  {
    StrOrder();
    forall a, b ensures PairLeq(a, b) || PairLeq(b, a) {
      assert StrLeq(a.0, b.0) || StrLeq(b.0, a.0);
    }
    forall a, b | PairLeq(a, b) && PairLeq(b, a) ensures a == b {
      assert StrLeq(a.0, b.0) && StrLeq(b.0, a.0) ==> a.0 == b.0;
    }
    forall a, b, c | PairLeq(a, b) && PairLeq(b, c) ensures PairLeq(a, c) {
      if a.0 != b.0 && b.0 != c.0 {
        assert StrLeq(a.0, b.0) && StrLeq(b.0, c.0);
        assert StrLeq(a.0, c.0);
        assert a.0 == c.0 ==> StrLeq(b.0, a.0);
      }
    }
  }

  /** `(key, counter[key]) for key in keys` */
  function PairsFor(values: seq<string>, keys: seq<string>): (r: seq<(string, int)>)
    ensures |r| == |keys| && forall i | 0 <= i < |r| :: r[i] == (keys[i], multiset(values)[keys[i]])
  {
    if keys == [] then [] else [(keys[0], multiset(values)[keys[0]])] + PairsFor(values, keys[1..])
  }

  /** `tuple(sorted(Counter(values).items()))` */
  function SortedItems(values: seq<string>): seq<(string, int)> {
    Sorted(PairLeq, PairsFor(values, Dedup(values)))
  }

  function StatusOf(o: Observation): RouteStatus { o.routeStatus }

  function TerminalOf(o: Observation): string { o.terminalState }

  function FailuresOf(o: Observation): seq<string> {
    if o.safeFailureClass.Some? then [o.safeFailureClass.value] else []
  }

  /** Durations are measured on available routes only. */
  function DurationsOf(o: Observation): seq<int> {
    if o.routeStatus.Unavailable? then [] else [o.durationMs]
  }

  function InvocationsOf(o: Observation): int { o.invocationCount }

  function DraftsOf(o: Observation): int { o.draftGenerationCount }

  function RevisionsOf(o: Observation): int { o.revisionCount }

  /** `operating_summary` */
  function OperatingSummary(obs: seq<Observation>): Summary {
    var status := multiset(Map(StatusOf, obs));
    var durations := Collect(DurationsOf, obs);
    Summary(
      |obs|,
      status[Completed], status[Insufficient], status[Blocked], status[Failed], status[Unavailable],
      SortedItems(Map(TerminalOf, obs)),
      SortedItems(Collect(FailuresOf, obs)),
      Sorted(IntLeq, Map(InvocationsOf, obs)),
      Sorted(IntLeq, Map(DraftsOf, obs)),
      Sorted(IntLeq, Map(RevisionsOf, obs)),
      Min(durations), Median(durations), NearestRankP95(durations), Max(durations))
  }

  // ---------------------------------------------------------------- properties

  lemma {:induction false} PairsMembers(values: seq<string>, keys: seq<string>, p: (string, int))
    ensures p in PairsFor(values, keys) <==> p.0 in keys && p.1 == multiset(values)[p.0]
  {
    if p.0 in keys && p.1 == multiset(values)[p.0] {
      var i :| 0 <= i < |keys| && keys[i] == p.0;
      assert PairsFor(values, keys)[i] == p;
    }
  }

  lemma {:induction false} PairsDistinct(values: seq<string>, keys: seq<string>)
    requires Distinct(keys)
    ensures Distinct(PairsFor(values, keys))
  {}

  /** Any listing of the counted pairs sorts to the same list. */
  lemma {:induction false} SortedPairsUnique(values: seq<string>, values': seq<string>, keys: seq<string>)
    requires multiset(values) == multiset(values') && Distinct(keys)
    requires forall k :: k in keys <==> k in values
    ensures Sorted(PairLeq, PairsFor(values', keys)) == SortedItems(values)
  {
    var a, b := PairsFor(values', keys), PairsFor(values, Dedup(values));
    PairsDistinct(values', keys);
    PairsDistinct(values, Dedup(values));
    forall p ensures p in a <==> p in b {
      PairsMembers(values', keys, p);
      PairsMembers(values, Dedup(values), p);
    }
    DistinctSameElements(a, b);
    PairOrder();
    SortedPermutationInvariant(PairLeq, a, b);
  }

  lemma {:induction false} SortedItemsPermutation(values: seq<string>, values': seq<string>)
    requires multiset(values) == multiset(values')
    ensures SortedItems(values) == SortedItems(values')
  {
    PermutationMembers(values, values');
    SortedPairsUnique(values, values', Dedup(values'));
  }

  /** The summary does not depend on the order of the observations. */
  lemma {:induction false} SummaryOrderIndependent(obs: seq<Observation>, obs': seq<Observation>)
    requires multiset(obs) == multiset(obs')
    ensures OperatingSummary(obs) == OperatingSummary(obs')
  {
    PermutationMembers(obs, obs');
    MapPermutation(StatusOf, obs, obs');
    MapPermutation(TerminalOf, obs, obs');
    SortedItemsPermutation(Map(TerminalOf, obs), Map(TerminalOf, obs'));
    CollectPermutation(FailuresOf, obs, obs');
    SortedItemsPermutation(Collect(FailuresOf, obs), Collect(FailuresOf, obs'));
    CollectPermutation(DurationsOf, obs, obs');
    StatisticsPermutationInvariant(Collect(DurationsOf, obs), Collect(DurationsOf, obs'));
    MapPermutation(InvocationsOf, obs, obs');
    SortedPermutationInvariant(IntLeq, Map(InvocationsOf, obs), Map(InvocationsOf, obs'));
    MapPermutation(DraftsOf, obs, obs');
    SortedPermutationInvariant(IntLeq, Map(DraftsOf, obs), Map(DraftsOf, obs'));
    MapPermutation(RevisionsOf, obs, obs');
    SortedPermutationInvariant(IntLeq, Map(RevisionsOf, obs), Map(RevisionsOf, obs'));
  }

  function Counts(pairs: seq<(string, int)>): seq<int> { Map((p: (string, int)) => p.1, pairs) }

  /** The counts of a distribution add up to the number of values counted. */
  lemma {:induction false} ItemsConserve(values: seq<string>)
    ensures Sum(Counts(SortedItems(values))) == |values|
  {
    var keys := Dedup(values);
    var pairs := PairsFor(values, keys);
    SortedPermutes(PairLeq, pairs);
    MapPermutation((p: (string, int)) => p.1, SortedItems(values), pairs);
    SumPermutation(Counts(SortedItems(values)), Counts(pairs));
    assert Counts(pairs) == CountsOf(values, keys);
    CountsAddUp(values, keys);
  }

  /** The five route statuses and the terminal distribution each account for every trial. */
  lemma {:induction false} SummaryConserves(obs: seq<Observation>)
    ensures var s := OperatingSummary(obs);
      && s.completedCount + s.insufficientCount + s.blockedCount + s.failedCount + s.unavailableCount == s.trialCount
      && Sum(Counts(s.terminalStates)) == s.trialCount
      && Sum(Counts(s.safeFailures)) == |Filter((o: Observation) => o.safeFailureClass.Some?, obs)|
      && (s.durationMax.None? <==> s.unavailableCount == s.trialCount)
  {
    StatusesAddUp(Map(StatusOf, obs));
    ItemsConserve(Map(TerminalOf, obs));
    ItemsConserve(Collect(FailuresOf, obs));
    FailuresLength(obs);
    DurationsLength(obs);
    var durations := Collect(DurationsOf, obs);
    if durations != [] { MaxIsGreatest(durations); }
  }

  lemma {:induction false} StatusesAddUp(statuses: seq<RouteStatus>)
    ensures var m := multiset(statuses);
      m[Completed] + m[Insufficient] + m[Blocked] + m[Failed] + m[Unavailable] == |statuses|
  {
    if statuses != [] {
      var m, rest, head := multiset(statuses), multiset(statuses[1..]), statuses[0];
      StatusesAddUp(statuses[1..]);
      UnconsMultiset(statuses);
      assert forall k :: m[k] == rest[k] + if k == head then 1 else 0;
    }
  }

  lemma {:induction false} FailuresLength(obs: seq<Observation>)
    ensures |Collect(FailuresOf, obs)| == |Filter((o: Observation) => o.safeFailureClass.Some?, obs)|
  {
    var p := (o: Observation) => o.safeFailureClass.Some?;
    if obs != [] {
      FailuresLength(obs[1..]);
      assert Filter(p, obs) == (if p(obs[0]) then [obs[0]] else []) + Filter(p, obs[1..]);
    }
  }

  lemma {:induction false} DurationsLength(obs: seq<Observation>)
    ensures |Collect(DurationsOf, obs)| == |obs| - multiset(Map(StatusOf, obs))[Unavailable]
  {
    if obs != [] {
      DurationsLength(obs[1..]);
      ConsMultiset(StatusOf(obs[0]), Map(StatusOf, obs[1..]));
    }
  }
}
