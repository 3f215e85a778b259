/** The D139 governance contracts: constructors that check raw JSON values and store them in
    one normal order. */
module GovernanceContracts {
  import opened BenchmarkContracts
  import opened CanonicalJson
  import opened OperatingSummaries
  import opened OrderStatistics
  import opened Ordering
  import opened Results
  import opened Sequences

  // ---------------------------------------------------------------- values

  /** The governance identifier format, wider than the benchmark's. */
  predicate IsName(v: Json) { v.JStr? && IsIdentifier(v.s, 192) }

  /** An integer, not a boolean, of at least `minimum`. */
  predicate IsCount(v: Json, minimum: int) { v.JInt? && v.n >= minimum }

  predicate IsGitSha(s: string) {
    |s| == 40 && forall i | 0 <= i < |s| :: IsNumeral(s[i]) || 'a' <= s[i] <= 'f'
  }

  // ---------------------------------------------------------------- distributions

  /** A two-element list of an identifier and a count. */
  predicate IsPair(v: Json) {
    v.JArr? && |v.items| == 2 && IsName(v.items[0]) && IsCount(v.items[1], 0)
  }

  function PairOf(v: Json): (string, int)
    requires IsPair(v)
  {
    (v.items[0].s, v.items[1].n)
  }

  function PairsOf(items: seq<Json>): (r: seq<(string, int)>)
    requires forall i | 0 <= i < |items| :: IsPair(items[i])
    ensures |r| == |items| && forall i | 0 <= i < |r| :: r[i] == PairOf(items[i])
  {
    if items == [] then [] else [PairOf(items[0])] + PairsOf(items[1..])
  }

  predicate DistinctNames(pairs: seq<(string, int)>) {
    forall i, j | 0 <= i < j < |pairs| :: pairs[i].0 != pairs[j].0
  }

  predicate IsDistribution(v: Json) {
    && v.JArr?
    && (forall i | 0 <= i < |v.items| :: IsPair(v.items[i]))
    && DistinctNames(PairsOf(v.items))
  }

  /** `_pair_counts` of the contracts: the pairs in ascending order. */
  function NormalPairs(v: Json, code: string): Result<seq<(string, int)>> {
    if IsDistribution(v) then Ok(Sorted(PairLeq, PairsOf(v.items))) else Raise(code)
  }

  method CheckPairs(v: Json, code: string) returns (r: Result<seq<(string, int)>>)
    ensures r == NormalPairs(v, code)
  {
    if !v.JArr? { return Raise(code); }
    var result: seq<(string, int)>, seen: set<string> := [], {};
    for i := 0 to |v.items|
      invariant forall j | 0 <= j < i :: IsPair(v.items[j])
      invariant |result| == i && forall j | 0 <= j < i :: result[j] == PairOf(v.items[j])
      invariant forall name :: name in seen <==> exists j :: 0 <= j < i && result[j].0 == name
      invariant DistinctNames(result)
    {
      var item := v.items[i];
      if !IsPair(item) { return Raise(code); }
      if item.items[0].s in seen {
        ghost var j :| 0 <= j < i && result[j].0 == item.items[0].s;
        RepeatedName(v, j, i);
        return Raise(code);
      }
      seen := seen + {item.items[0].s};
      result := result + [(item.items[0].s, item.items[1].n)];
    }
    assert result == PairsOf(v.items);
    r := Ok(Sorted(PairLeq, result));
  }

  lemma {:induction false} RepeatedName(v: Json, j: nat, i: nat)
    requires v.JArr? && j < i < |v.items| && IsPair(v.items[j]) && IsPair(v.items[i])
    requires PairOf(v.items[j]).0 == PairOf(v.items[i]).0
    ensures !IsDistribution(v)
  {
    if forall k | 0 <= k < |v.items| :: IsPair(v.items[k]) {
      assert PairsOf(v.items)[j].0 == PairsOf(v.items)[i].0;
    }
  }

  function StoredPairs(pairs: seq<(string, int)>): (r: seq<Json>)
    ensures |r| == |pairs| && forall i | 0 <= i < |r| :: r[i] == JArr([JStr(pairs[i].0), JInt(pairs[i].1)])
  {
    if pairs == [] then [] else [JArr([JStr(pairs[0].0), JInt(pairs[0].1)])] + StoredPairs(pairs[1..])
  }

  /** Names in the identifier format, each once, with counts that are not negative. */
  predicate WellFormedPairs(pairs: seq<(string, int)>) {
    && (forall i | 0 <= i < |pairs| :: IsIdentifier(pairs[i].0, 192) && pairs[i].1 >= 0)
    && DistinctNames(pairs)
  }

  /** Storing a distribution and reading it back sorts it, and a second pass changes nothing. */
  lemma {:induction false} PairsRoundTrip(pairs: seq<(string, int)>, code: string)
    requires WellFormedPairs(pairs)
    ensures NormalPairs(JArr(StoredPairs(pairs)), code) == Ok(Sorted(PairLeq, pairs))
    ensures NormalPairs(JArr(StoredPairs(Sorted(PairLeq, pairs))), code) == Ok(Sorted(PairLeq, pairs))
  {
    var sorted := Sorted(PairLeq, pairs);
    PairOrder();
    SortedIsSortedPermutation(PairLeq, pairs);
    SortedFixpoint(PairLeq, sorted);
    WellFormedPermutation(pairs, sorted);
    ReadStoredPairs(pairs, code);
    ReadStoredPairs(sorted, code);
  }

  lemma {:induction false} ReadStoredPairs(pairs: seq<(string, int)>, code: string)
    requires WellFormedPairs(pairs)
    ensures NormalPairs(JArr(StoredPairs(pairs)), code) == Ok(Sorted(PairLeq, pairs))
  {
    StoredPairsRead(pairs);
  }

  lemma {:induction false} StoredPairsRead(pairs: seq<(string, int)>)
    requires WellFormedPairs(pairs)
    ensures IsDistribution(JArr(StoredPairs(pairs))) && PairsOf(StoredPairs(pairs)) == pairs
  {
    var items := StoredPairs(pairs);
    forall i | 0 <= i < |items| ensures IsPair(items[i]) && PairOf(items[i]) == pairs[i] {
      assert items[i].items[0] == JStr(pairs[i].0);
    }
    assert PairsOf(items) == pairs;
  }

  lemma {:induction false} WellFormedPermutation(a: seq<(string, int)>, b: seq<(string, int)>)
    requires multiset(a) == multiset(b) && WellFormedPairs(a)
    ensures WellFormedPairs(b)
  {
    PermutationMembers(a, b);
    forall i | 0 <= i < |b| ensures IsIdentifier(b[i].0, 192) && b[i].1 >= 0 {
      assert b[i] in a;
    }
    assert Distinct(a);
    DistinctPermutation(a, b);
    forall i, j | 0 <= i < j < |b| ensures b[i].0 != b[j].0 {
      assert b[i] in a && b[j] in a && b[i] != b[j];
    }
  }

  // ---------------------------------------------------------------- count lists

  /** What `_int_tuple` accepts; it sorts the list. */
  predicate IsCountList(v: Json) {
    v.JArr? && forall i | 0 <= i < |v.items| :: IsCount(v.items[i], 0)
  }

  function IntsOf(items: seq<Json>): (r: seq<int>)
    requires forall i | 0 <= i < |items| :: items[i].JInt?
    ensures |r| == |items| && forall i | 0 <= i < |r| :: r[i] == items[i].n
  {
    if items == [] then [] else [items[0].n] + IntsOf(items[1..])
  }

  // ---------------------------------------------------------------- operating summaries

  /** A duration median as JSON holds it: null, an integer or float, or something else. */
  datatype Number = NoNumber | Number(value: MedianValue) | NotANumber

  datatype RawSummary = RawSummary(
    trialCount: Json,
    completedCount: Json,
    insufficientCount: Json,
    blockedCount: Json,
    failedCount: Json,
    unavailableCount: Json,
    terminalStates: Json,
    safeFailures: Json,
    invocationCounts: Json,
    draftGenerationCounts: Json,
    revisionCounts: Json,
    durationMin: Json,
    durationMedian: Number,
    durationP95: Json,
    durationMax: Json)

  function CountsError(raw: RawSummary): string {
    if !IsCount(raw.trialCount, 1) then "d139_summary_trial_count_invalid"
    else if !IsCount(raw.completedCount, 0) then "d139_summary_completed_invalid"
    else if !IsCount(raw.insufficientCount, 0) then "d139_summary_insufficient_invalid"
    else if !IsCount(raw.blockedCount, 0) then "d139_summary_blocked_invalid"
    else if !IsCount(raw.failedCount, 0) then "d139_summary_failed_invalid"
    else if !IsCount(raw.unavailableCount, 0) then "d139_summary_unavailable_invalid"
    else ""
  }

  predicate IsDuration(v: Json) { v.JNull? || IsCount(v, 0) }

  function DurationsError(raw: RawSummary): string {
    if !IsDuration(raw.durationMin) then "d139_summary_duration_min_invalid"
    else if !IsDuration(raw.durationP95) then "d139_summary_duration_p95_invalid"
    else if !IsDuration(raw.durationMax) then "d139_summary_duration_max_invalid"
    else if raw.durationMedian.NotANumber? || (raw.durationMedian.Number? && raw.durationMedian.value.Number() < 0.0)
    then "d139_summary_duration_median_invalid"
    else ""
  }

  function ListsError(raw: RawSummary): string {
    if !IsDistribution(raw.terminalStates) then "d139_summary_terminal_distribution_invalid"
    else if !IsDistribution(raw.safeFailures) then "d139_summary_safe_failure_distribution_invalid"
    else if !IsCountList(raw.invocationCounts) then "d139_summary_invocations_invalid"
    else if !IsCountList(raw.draftGenerationCounts) then "d139_summary_drafts_invalid"
    else if !IsCountList(raw.revisionCounts) then "d139_summary_revisions_invalid"
    else ""
  }

  function OptionalCount(v: Json): Option<int> { if v.JInt? then Some(v.n) else None }

  /** The summary constructor. */
  function NewSummary(raw: RawSummary): Result<Summary> {
    if CountsError(raw) != "" then Raise(CountsError(raw))
    else if ListsError(raw) != "" then Raise(ListsError(raw))
    else if DurationsError(raw) != "" then Raise(DurationsError(raw))
    else Ok(Summary(
      raw.trialCount.n,
      raw.completedCount.n, raw.insufficientCount.n, raw.blockedCount.n, raw.failedCount.n, raw.unavailableCount.n,
      Sorted(PairLeq, PairsOf(raw.terminalStates.items)),
      Sorted(PairLeq, PairsOf(raw.safeFailures.items)),
      Sorted(IntLeq, IntsOf(raw.invocationCounts.items)),
      Sorted(IntLeq, IntsOf(raw.draftGenerationCounts.items)),
      Sorted(IntLeq, IntsOf(raw.revisionCounts.items)),
      OptionalCount(raw.durationMin),
      if raw.durationMedian.Number? then Some(raw.durationMedian.value) else None,
      OptionalCount(raw.durationP95), OptionalCount(raw.durationMax)))
  }

  function StoredInts(values: seq<int>): (r: seq<Json>)
    ensures |r| == |values| && forall i | 0 <= i < |r| :: r[i] == JInt(values[i])
  {
    if values == [] then [] else [JInt(values[0])] + StoredInts(values[1..])
  }

  function StoredMedian(m: Option<MedianValue>): Number { if m.Some? then Number(m.value) else NoNumber }

  /** A summary as `operating_summary.json` holds it. */
  function StoredSummary(s: Summary): RawSummary {
    RawSummary(
      JInt(s.trialCount), JInt(s.completedCount), JInt(s.insufficientCount), JInt(s.blockedCount),
      JInt(s.failedCount), JInt(s.unavailableCount),
      JArr(StoredPairs(s.terminalStates)), JArr(StoredPairs(s.safeFailures)),
      JArr(StoredInts(s.invocationCounts)), JArr(StoredInts(s.draftGenerationCounts)),
          JArr(StoredInts(s.revisionCounts)),
      OptionalInt(s.durationMin), StoredMedian(s.durationMedian), OptionalInt(s.durationP95),
          OptionalInt(s.durationMax))
  }

  predicate NonNegative(values: seq<int>) { forall i | 0 <= i < |values| :: values[i] >= 0 }

  /** The conditions under which a summary survives storage. */
  predicate WellFormedSummary(s: Summary) {
    && s.trialCount >= 1 && s.completedCount >= 0 && s.insufficientCount >= 0 && s.blockedCount >= 0
    && s.failedCount >= 0 && s.unavailableCount >= 0
    && WellFormedPairs(s.terminalStates) && WellFormedPairs(s.safeFailures)
    && NonNegative(s.invocationCounts) && NonNegative(s.draftGenerationCounts) && NonNegative(s.revisionCounts)
    && s.durationMin.GetOr(0) >= 0 && s.durationP95.GetOr(0) >= 0 && s.durationMax.GetOr(0) >= 0
    && s.durationMedian.GetOr(WholeMedian(0)).Number() >= 0.0
  }

  /** `s` with its lists in normal order. */
  function SortedSummary(s: Summary): Summary {
    s.(terminalStates := Sorted(PairLeq, s.terminalStates),
       safeFailures := Sorted(PairLeq, s.safeFailures),
       invocationCounts := Sorted(IntLeq, s.invocationCounts),
       draftGenerationCounts := Sorted(IntLeq, s.draftGenerationCounts),
       revisionCounts := Sorted(IntLeq, s.revisionCounts))
  }

  lemma {:induction false} ReadStoredInts(values: seq<int>)
    requires NonNegative(values)
    ensures IsCountList(JArr(StoredInts(values))) && IntsOf(StoredInts(values)) == values
  {}

  /** Reading a stored summary gives the summary back, its lists sorted. */
  lemma {:induction false} SummaryRoundTrip(s: Summary)
    requires WellFormedSummary(s)
    ensures NewSummary(StoredSummary(s)) == Ok(SortedSummary(s))
  {
    StoredListsRead(s);
    StoredNumbersRead(s);
  }

  /** A raw summary the constructor accepts, its lists as they stand. */
  function AsStored(raw: RawSummary): Summary
    requires CountsError(raw) == "" && ListsError(raw) == "" && DurationsError(raw) == ""
  {
    Summary(
      raw.trialCount.n,
      raw.completedCount.n, raw.insufficientCount.n, raw.blockedCount.n, raw.failedCount.n, raw.unavailableCount.n,
      PairsOf(raw.terminalStates.items), PairsOf(raw.safeFailures.items),
      IntsOf(raw.invocationCounts.items), IntsOf(raw.draftGenerationCounts.items), IntsOf(raw.revisionCounts.items),
      OptionalCount(raw.durationMin),
      if raw.durationMedian.Number? then Some(raw.durationMedian.value) else None,
      OptionalCount(raw.durationP95), OptionalCount(raw.durationMax))
  }

  /** The constructor accepts exactly the stored forms of well-formed summaries, and sorts their
      lists. */
  lemma {:induction false} SummaryAccepted(raw: RawSummary, t: Summary)
    ensures NewSummary(raw) == Ok(t) <==>
      exists s :: WellFormedSummary(s) && raw == StoredSummary(s) && SortedSummary(s) == t
  {
    hide NewSummary, WellFormedSummary, StoredSummary, SortedSummary;
    if NewSummary(raw) == Ok(t) {
      AcceptedIsStored(raw);
    }
    if s :| WellFormedSummary(s) && raw == StoredSummary(s) && SortedSummary(s) == t {
      SummaryRoundTrip(s);
    }
  }

  lemma {:induction false} AcceptedIsStored(raw: RawSummary)
    requires NewSummary(raw).Ok?
    ensures CountsError(raw) == "" && ListsError(raw) == "" && DurationsError(raw) == ""
    ensures WellFormedSummary(AsStored(raw)) && raw == StoredSummary(AsStored(raw))
    ensures NewSummary(raw).value == SortedSummary(AsStored(raw))
  {
    hide Sorted, StoredPairs, StoredInts, PairsOf, IntsOf, WellFormedPairs, IsDistribution;
    PairsAsStored(raw.terminalStates);
    PairsAsStored(raw.safeFailures);
    IntsAsStored(raw.invocationCounts);
    IntsAsStored(raw.draftGenerationCounts);
    IntsAsStored(raw.revisionCounts);
  }

  lemma {:induction false} PairsAsStored(v: Json)
    requires IsDistribution(v)
    ensures WellFormedPairs(PairsOf(v.items)) && v == JArr(StoredPairs(PairsOf(v.items)))
  {
    var stored := StoredPairs(PairsOf(v.items));
    forall i | 0 <= i < |stored| ensures stored[i] == v.items[i] {
      assert IsPair(v.items[i]);
      assert v.items[i].items == [v.items[i].items[0], v.items[i].items[1]];
    }
    assert stored == v.items;
  }

  lemma {:induction false} IntsAsStored(v: Json)
    requires IsCountList(v)
    ensures NonNegative(IntsOf(v.items)) && v == JArr(StoredInts(IntsOf(v.items)))
  {
    assert StoredInts(IntsOf(v.items)) == v.items;
  }

  lemma {:induction false} StoredNumbersRead(s: Summary)
    requires WellFormedSummary(s)
    ensures CountsError(StoredSummary(s)) == "" && DurationsError(StoredSummary(s)) == ""
  {}

  lemma {:induction false} StoredListsRead(s: Summary)
    requires WellFormedSummary(s)
    ensures ListsError(StoredSummary(s)) == ""
    ensures PairsOf(StoredPairs(s.terminalStates)) == s.terminalStates
    ensures PairsOf(StoredPairs(s.safeFailures)) == s.safeFailures
    ensures IntsOf(StoredInts(s.invocationCounts)) == s.invocationCounts
    ensures IntsOf(StoredInts(s.draftGenerationCounts)) == s.draftGenerationCounts
    ensures IntsOf(StoredInts(s.revisionCounts)) == s.revisionCounts
  {
    StoredPairsRead(s.terminalStates);
    StoredPairsRead(s.safeFailures);
    ReadStoredInts(s.invocationCounts);
    ReadStoredInts(s.draftGenerationCounts);
    ReadStoredInts(s.revisionCounts);
  }

  // ---------------------------------------------------------------- routes

  datatype RouteIdentity = RouteIdentity(
    taskKind: string, adapterId: string, modelId: string, profileId: Option<string>,
    laneTrialCount: int, invokedTrialCount: int)

  /** The route constructor. */
  function NewRoute(
      kind: Json, adapter: Json, model: Json, profile: Json, lane: Json, invoked: Json): Result<RouteIdentity> {
    if !IsName(kind) then Raise("d139_route_task_kind_invalid")
    else if !IsName(adapter) then Raise("d139_route_adapter_invalid")
    else if !IsName(model) then Raise("d139_route_model_invalid")
    else if !profile.JNull? && !IsName(profile) then Raise("d139_route_profile_invalid")
    else if !IsCount(lane, 1) then Raise("d139_route_lane_count_invalid")
    else if !IsCount(invoked, 1) || invoked.n > lane.n then Raise("d139_route_invoked_count_invalid")
    else Ok(RouteIdentity(kind.s, adapter.s, model.s, if profile.JNull? then None else Some(profile.s), lane.n,
        invoked.n))
  }

  function RouteSortKey(r: RouteIdentity): seq<string> { SortKey(r.taskKind, r.adapterId, r.modelId, r.profileId) }

  predicate RouteLeq(a: RouteIdentity, b: RouteIdentity) { KeyLeq(RouteSortKey(a), RouteSortKey(b)) }

  function KindOfRoute(r: RouteIdentity): string { r.taskKind }

  // ---------------------------------------------------------------- records and snapshots

  /** Seven version texts, three source digests and the seed. */
  datatype Measurement = Measurement(versions: seq<string>, digests: seq<string>, seed: int)

  datatype Anchors = Anchors(
    baselineId: string, measurementCommit: string,
    deterministicDigest: string, liveDigest: string, reportDigest: string)

  predicate ValidAnchors(a: Anchors) {
    && IsIdentifier(a.baselineId, 192) && IsGitSha(a.measurementCommit)
    && IsDigest(a.deterministicDigest) && IsDigest(a.liveDigest) && IsDigest(a.reportDigest)
  }

  datatype Record = Record(anchors: Anchors, observationCount: int, measurement: Measurement,
      routes: seq<RouteIdentity>)

  /** The accepted-baseline constructor: at most one route per task kind. */
  function NewRecord(r: Record): Result<Record> {
    if !ValidAnchors(r.anchors) then Raise("d139_baseline_anchor_invalid")
    else if r.observationCount < 1 then Raise("d139_baseline_observation_count_invalid")
    else if r.routes == [] then Raise("d139_baseline_routes_invalid")
    else if |set x | x in Map(KindOfRoute, r.routes)| != |r.routes| then Raise("d139_baseline_routes_duplicate")
    else Ok(r.(routes := Sorted(RouteLeq, r.routes)))
  }

  datatype Flags = Flags(aggregate: bool, liveDigest: bool, summary: bool, hardGates: bool, routes: bool)

  datatype Snapshot = Snapshot(
    anchors: Anchors,
    observationCount: int,
    measurement: Measurement,
    routes: seq<RouteIdentity>,
    summary: Summary,
    hardGates: seq<string>,
    taskKindCounts: seq<(string, int)>,
    flags: Flags)
  {
    /** `evidence_integrity_pass` */
    predicate Intact() {
      flags.aggregate && flags.liveDigest && flags.summary && flags.hardGates && flags.routes
    }
  }

  /** The snapshot constructor. */
  function NewSnapshot(s: Snapshot): Result<Snapshot> {
    if !ValidAnchors(s.anchors) then Raise("d139_snapshot_anchor_invalid")
    else if s.observationCount < 1 then Raise("d139_snapshot_observation_count_invalid")
    else if !(forall i | 0 <= i < |s.hardGates| :: IsIdentifier(s.hardGates[i], 192))
    then Raise("d139_snapshot_hard_gate_invalid")
    else if !WellFormedPairs(s.taskKindCounts) then Raise("d139_snapshot_task_kind_counts_invalid")
    else Ok(s.(routes := Sorted(RouteLeq, s.routes),
               hardGates := Sorted(StrLeq, Dedup(s.hardGates)),
               taskKindCounts := Sorted(PairLeq, s.taskKindCounts)))
  }

  /** One route per task kind is decided by the kinds alone: the stored record lists each kind
      once, in strictly ascending order of kind. */
  lemma {:induction false} RecordRoutes(r: Record)
    requires NewRecord(r).Ok?
    ensures var routes := NewRecord(r).value.routes;
      && multiset(routes) == multiset(r.routes)
      && forall i, j | 0 <= i < j < |routes| ::
          routes[i].taskKind != routes[j].taskKind && StrLeq(routes[i].taskKind, routes[j].taskKind)
  {
    var routes := Sorted(RouteLeq, r.routes);
    SortedRoutes(r.routes);
    MapPermutation(KindOfRoute, routes, r.routes);
    PermutationSameSet(Map(KindOfRoute, routes), Map(KindOfRoute, r.routes));
    DistinctCardinality(Map(KindOfRoute, routes));
    forall i, j | 0 <= i < j < |routes|
      ensures routes[i].taskKind != routes[j].taskKind && StrLeq(routes[i].taskKind, routes[j].taskKind)
    {
      assert Map(KindOfRoute, routes)[i] != Map(KindOfRoute, routes)[j];
      assert RouteLeq(routes[i], routes[j]);
      FirstKey(routes[i], routes[j]);
    }
  }

  lemma {:induction false} GitShaSpelled(s: string)
    ensures IsGitSha(s) <==> |s| == 40 && forall c | c in s :: c in "0123456789abcdef"
  {
    forall i | 0 <= i < |s| ensures IsNumeral(s[i]) || 'a' <= s[i] <= 'f' <==> s[i] in "0123456789abcdef" {
      HexListed(s[i]);
    }
    forall c | c in s ensures exists i :: 0 <= i < |s| && s[i] == c {}
  }

  /** Exactly which records are accepted. */
  lemma {:induction false} RecordAccepted(r: Record)
    ensures NewRecord(r).Ok? <==>
      && IsIdentifier(r.anchors.baselineId, 192) && IsGitSha(r.anchors.measurementCommit)
      && IsDigest(r.anchors.deterministicDigest) && IsDigest(r.anchors.liveDigest) && IsDigest(r.anchors.reportDigest)
      && r.observationCount >= 1 && r.routes != []
      && forall i, j | 0 <= i < j < |r.routes| :: r.routes[i].taskKind != r.routes[j].taskKind
  {
    hide IsIdentifier, IsGitSha, IsDigest;
    var kinds := Map(KindOfRoute, r.routes);
    DistinctCardinality(kinds);
    if Distinct(kinds) {
      forall i, j | 0 <= i < j < |r.routes| ensures r.routes[i].taskKind != r.routes[j].taskKind {
        assert kinds[i] != kinds[j];
      }
    }
  }

  /** Exactly which snapshots are accepted. */
  lemma {:induction false} SnapshotAdmitted(s: Snapshot)
    ensures NewSnapshot(s).Ok? <==>
      && IsIdentifier(s.anchors.baselineId, 192) && IsGitSha(s.anchors.measurementCommit)
      && IsDigest(s.anchors.deterministicDigest) && IsDigest(s.anchors.liveDigest) && IsDigest(s.anchors.reportDigest)
      && s.observationCount >= 1
      && (forall g | g in s.hardGates :: IsIdentifier(g, 192))
      && (forall p | p in s.taskKindCounts :: IsIdentifier(p.0, 192) && p.1 >= 0)
      && (forall i, j | 0 <= i < j < |s.taskKindCounts| :: s.taskKindCounts[i].0 != s.taskKindCounts[j].0)
  {
    hide IsIdentifier, IsGitSha, IsDigest, Sorted, Dedup;
    forall g | g in s.hardGates ensures exists i :: 0 <= i < |s.hardGates| && s.hardGates[i] == g {}
    forall p | p in s.taskKindCounts ensures exists i :: 0 <= i < |s.taskKindCounts| && s.taskKindCounts[i] == p {}
    forall i | 0 <= i < |s.hardGates| ensures s.hardGates[i] in s.hardGates {}
    forall i | 0 <= i < |s.taskKindCounts| ensures s.taskKindCounts[i] in s.taskKindCounts {}
  }

  /** A stored record passes its constructor unchanged. */
  lemma {:induction false} RecordNormal(r: Record)
    requires NewRecord(r).Ok?
    ensures NewRecord(NewRecord(r).value) == NewRecord(r)
  {
    hide ValidAnchors, Sorted, RouteLeq;
    SortedRoutes(r.routes);
    var routes := Sorted(RouteLeq, r.routes);
    MapPermutation(KindOfRoute, routes, r.routes);
    PermutationSameSet(Map(KindOfRoute, routes), Map(KindOfRoute, r.routes));
  }

  lemma {:induction false} SortedRoutes(routes: seq<RouteIdentity>)
    ensures var sorted := Sorted(RouteLeq, routes);
      IsSorted(RouteLeq, sorted) && multiset(sorted) == multiset(routes) && Sorted(RouteLeq, sorted) == sorted
    ensures |Sorted(RouteLeq, routes)| == |routes|
  {
    RouteOrder();
    SortedIsSortedPermutation(RouteLeq, routes);
    SortedFixpoint(RouteLeq, Sorted(RouteLeq, routes));
  }

  lemma {:induction false} RouteOrder()
    ensures TotalPreorder(RouteLeq)
  {
    KeyOrder();
  }

  lemma {:induction false} FirstKey(a: RouteIdentity, b: RouteIdentity)
    requires RouteLeq(a, b) && a.taskKind != b.taskKind
    ensures StrLeq(a.taskKind, b.taskKind)
  {
    assert RouteSortKey(a)[0] == a.taskKind && RouteSortKey(b)[0] == b.taskKind;
  }
}
