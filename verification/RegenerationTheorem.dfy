/** A run whose official artifacts come from D138 loads as an intact D139 snapshot, and an
    intact digest flag means the stored trials are the measured ones. */
module RegenerationTheorem {
  import opened BenchmarkContracts
  import opened CanonicalJson
  import opened GovernanceContracts
  import opened LaneCompleteness
  import opened OperatingSummaries
  import opened OrderStatistics
  import opened Ordering
  import opened Regeneration
  import opened Results
  import opened RouteGrouping
  import opened RunEvidence
  import opened Sequences
  import opened StoredTrials

  function IdOf(o: Observation): (string, string) { (o.caseId, o.trialId) }

  ghost predicate UniqueTrials(obs: seq<Observation>) { Distinct(Map(IdOf, obs)) }

  // ---------------------------------------------------------------- reordered trial files

  /** A permutation of mapped values is the map of a permutation. */
  lemma {:induction false} Unmap<A, B>(f: A -> B, ys: seq<B>, xs: seq<A>) returns (xs': seq<A>)
    requires multiset(ys) == multiset(Map(f, xs))
    ensures multiset(xs') == multiset(xs) && ys == Map(f, xs')
  {
    PermutationMembers(ys, Map(f, xs));
    if ys == [] {
      xs' := [];
    } else {
      assert ys[0] in Map(f, xs);
      var k :| 0 <= k < |xs| && f(xs[k]) == ys[0];
      var rest := xs[..k] + xs[k+1..];
      RemoveAt(xs, k);
      UnmapRest(f, ys, xs, k);
      var tail := Unmap(f, ys[1..], rest);
      xs' := [xs[k]] + tail;
      ConsMultiset(xs[k], tail);
      assert Map(f, xs') == [f(xs[k])] + Map(f, tail);
    }
  }

  lemma {:induction false} UnmapRest<A, B>(f: A -> B, ys: seq<B>, xs: seq<A>, k: nat)
    requires multiset(ys) == multiset(Map(f, xs)) && k < |xs| && ys != [] && ys[0] == f(xs[k])
    ensures multiset(ys[1..]) == multiset(Map(f, xs[..k] + xs[k+1..]))
  {
    var mapped := Map(f, xs);
    UnconsMultiset(ys);
    RemoveAt(mapped, k);
    assert Map(f, xs[..k] + xs[k+1..]) == mapped[..k] + mapped[k+1..];
  }

  lemma {:induction false} UniqueReordered(obs: seq<Observation>, obs': seq<Observation>)
    requires multiset(obs) == multiset(obs') && UniqueTrials(obs)
    ensures UniqueTrials(obs')
  {
    MapPermutation(IdOf, obs, obs');
    DistinctPermutation(Map(IdOf, obs), Map(IdOf, obs'));
  }

  lemma {:induction false} ValidReordered(obs: seq<Observation>, obs': seq<Observation>)
    requires multiset(obs) == multiset(obs') && AllValid(obs)
    ensures AllValid(obs')
  {
    PermutationMembers(obs, obs');
  }

  /** Everything D138 computes is the same on a reordered list. */
  lemma {:induction false} ProductionReordered(obs: seq<Observation>, obs': seq<Observation>)
    requires multiset(obs) == multiset(obs') && AllValid(obs)
    ensures AuthorizedRouteBindings(obs) == AuthorizedRouteBindings(obs')
    ensures OperatingSummary(obs) == OperatingSummary(obs')
    ensures HardGateFailures(obs) == HardGateFailures(obs')
    ensures SortedItems(Map(KindValue, obs)) == SortedItems(Map(KindValue, obs'))
  {
    hide ValidObservation;
    ValidReordered(obs, obs');
    RoutesReordered(obs, obs');
    SummaryOrderIndependent(obs, obs');
    CollectPermutation(GatesOf, obs, obs');
    GatesReordered(Collect(GatesOf, obs), Collect(GatesOf, obs'));
    MapPermutation(KindValue, obs, obs');
    SortedItemsPermutation(Map(KindValue, obs), Map(KindValue, obs'));
  }

  lemma {:induction false} RoutesReordered(obs: seq<Observation>, obs': seq<Observation>)
    requires multiset(obs) == multiset(obs') && AllValid(obs) && AllValid(obs')
    ensures AuthorizedRouteBindings(obs) == AuthorizedRouteBindings(obs')
  {
    hide ValidObservation, GroupedBindings;
    ValidProfiles(obs);
    RoutesOrderIndependent(obs, obs');
    RoutesReturnIff(obs);
    RoutesReturnIff(obs');
    MapPermutation(KindOf, obs, obs');
    PermutationMembers(obs, obs');
  }

  lemma {:induction false} GatesReordered(a: seq<string>, b: seq<string>)
    requires multiset(a) == multiset(b)
    ensures Sorted(StrLeq, Dedup(a)) == Sorted(StrLeq, Dedup(b))
  {
    PermutationMembers(a, b);
    forall x ensures x in Dedup(a) <==> x in Dedup(b) {
      assert x in a <==> x in b;
    }
    DistinctSameElements(Dedup(a), Dedup(b));
    StrOrder();
    SortedPermutationInvariant(StrLeq, Dedup(a), Dedup(b));
  }

  // ---------------------------------------------------------------- identities and the aggregate

  lemma {:induction false} IdentitiesAccepted(p: Platform, obs: seq<Observation>)
    requires UniqueTrials(obs)
    ensures |set x | x in Map(Identity(p), StoredTrialsOf(obs))| == |obs|
  {
    hide ObservationFields;
    forall o: Observation ensures Identity(p)(ObservationFields(o)) == IdOf(o) { ReadIdentity(o); }
    MapOfMap(ObservationFields, Identity(p), IdOf, obs);
    DistinctCardinality(Map(IdOf, obs));
  }

  lemma {:induction false} HasIdentityKeys(o: Observation)
    ensures HasKey(ObservationFields(o), "case_id") && HasKey(ObservationFields(o), "trial_id")
  {
    assert ObservationFields(o)[0] == Field("case_id", JStr(o.caseId));
    assert ObservationFields(o)[1] == Field("trial_id", JStr(o.trialId));
  }

  lemma {:induction false} AggregateKeyRead(p: Platform, o: Observation)
    ensures AggregateKey(p, ObservationFields(o)) == [o.caseId, o.trialId]
  {
    ReadIdentity(o);
    HasIdentityKeys(o);
  }

  lemma {:induction false} NoTies(p: Platform, obs: seq<Observation>, a: Trial, b: Trial)
    requires UniqueTrials(obs) && a in StoredTrialsOf(obs) && b in StoredTrialsOf(obs)
    requires AggregateLeq(p)(a, b) && AggregateLeq(p)(b, a)
    ensures a == b
  {
    hide ObservationFields;
    var trials := StoredTrialsOf(obs);
    var i :| 0 <= i < |trials| && trials[i] == a;
    var j :| 0 <= j < |trials| && trials[j] == b;
    KeyOrder();
    AggregateKeyRead(p, obs[i]);
    AggregateKeyRead(p, obs[j]);
    assert [obs[i].caseId, obs[i].trialId][0] == obs[j].caseId;
    assert [obs[i].caseId, obs[i].trialId][1] == obs[j].trialId;
    assert Map(IdOf, obs)[i] == Map(IdOf, obs)[j];
  }

  /** Any two arrangements of the same stored trials have the same aggregate. */
  lemma {:induction false} AggregateReordered(p: Platform, obs: seq<Observation>, a: seq<Trial>, b: seq<Trial>)
    requires UniqueTrials(obs)
    requires multiset(a) == multiset(StoredTrialsOf(obs)) && multiset(b) == multiset(StoredTrialsOf(obs))
    ensures Aggregate(p, a) == Aggregate(p, b)
  {
    KeyOrder();
    assert TotalPreorder(AggregateLeq(p));
    PermutationMembers(a, StoredTrialsOf(obs));
    forall x, y | x in a && y in a && AggregateLeq(p)(x, y) && AggregateLeq(p)(y, x) ensures x == y {
      NoTies(p, obs, x, y);
    }
    SortedPermutationInvariant(AggregateLeq(p), a, b);
  }

  function StoredObservation(o: Observation): Json { JObj(ObservationFields(o)) }

  lemma {:induction false} AggregateListRead(obs: seq<Observation>, aggregate: seq<Json>)
    requires multiset(aggregate) == multiset(Map(StoredObservation, obs))
    ensures multiset(Map(FieldsOf, aggregate)) == multiset(StoredTrialsOf(obs))
    ensures forall v | v in aggregate :: v.JObj?
  {
    hide ObservationFields;
    MapPermutation(FieldsOf, aggregate, Map(StoredObservation, obs));
    MapOfMap(StoredObservation, FieldsOf, ObservationFields, obs);
    PermutationMembers(aggregate, Map(StoredObservation, obs));
  }

  // ---------------------------------------------------------------- routes

  function StoredBinding(b: RouteBinding): Json {
    JObj([ Field("task_kind", JStr(b.key.taskKind.Value())),
           Field("adapter_id", JStr(b.key.adapterId)),
           Field("model_id", JStr(b.key.modelId)),
           Field("profile_id", OptionalText(b.key.profileId)),
           Field("lane_trial_count", JInt(b.laneTrialCount)),
           Field("invoked_trial_count", JInt(b.invokedTrialCount)) ])
  }

  lemma {:induction false} BindingRead(b: RouteBinding)
    ensures RouteFromJson(StoredBinding(b)) == RouteOf(StoredKey(b.key), b.laneTrialCount, b.invokedTrialCount)
  {
    var f := StoredBinding(b).fields;
    assert f + [] == f;
    Found(f, [], "task_kind", 0);
    Found(f, [], "adapter_id", 1);
    Found(f, [], "model_id", 2);
    Found(f, [], "profile_id", 3);
    Found(f, [], "lane_trial_count", 4);
    Found(f, [], "invoked_trial_count", 5);
  }

  lemma {:induction false} OfficialRoutesRead(obs: seq<Observation>)
    requires AllValid(obs) && AuthorizedRouteBindings(obs).Ok?
    ensures var bindings := AuthorizedRouteBindings(obs).value;
      && OfficialRoutes(Map(StoredBinding, bindings)) == Ok(Map(IdentityOf, bindings))
      && Sorted(RouteLeq, Map(IdentityOf, bindings)) == Map(IdentityOf, bindings)
  {
    hide ValidObservation, GroupedBindings, RouteBindingError, StoredBinding, RouteFromJson;
    var all := GroupedBindings(obs);
    var bindings := AuthorizedRouteBindings(obs).value;
    SortedMembers(BindingLeq, all);
    var results := Map(RouteFromJson, Map(StoredBinding, bindings));
    forall i | 0 <= i < |bindings| ensures results[i] == Ok(IdentityOf(bindings[i])) {
      assert bindings[i] in all;
      var j :| 0 <= j < |all| && all[j] == bindings[i];
      NoBindingError(all, j);
      BindingAccepted(bindings[i]);
      BindingRead(bindings[i]);
    }
    AllAccepted(results, IdentityOf, bindings);
    BindingPreorder();
    SortedSorts(BindingLeq, all);
    SortedFixpoint(BindingLeq, bindings);
    SortedOfMap(IdentityOf, BindingLeq, RouteLeq, bindings);
  }

  // ---------------------------------------------------------------- the theorem

  function StoredAnchors(a: Anchors): RawAnchors {
    RawAnchors(JStr(a.baselineId), JStr(a.measurementCommit), JStr(a.deterministicDigest), JStr(a.liveDigest),
        JStr(a.reportDigest))
  }

  /** The artifacts of a measured run: trial files and aggregate in any order, the rest as D138
      computes it, the live digest that of the trials in (case, trial) order. */
  ghost predicate OfficialRun(p: Platform, obs: seq<Observation>, a: Anchors, m: Measurement, run: Run) {
    && AuthorizedRouteBindings(obs).Ok?
    && multiset(run.trials) == multiset(StoredTrialsOf(obs))
    && multiset(run.aggregate) == multiset(Map(StoredObservation, obs))
    && run.summary == StoredSummary(OperatingSummary(obs))
    && run.failures == TextArray(HardGateFailures(obs))
    && run.allPass == JBool(HardGateFailures(obs) == [])
    && run.routes == Map(StoredBinding, AuthorizedRouteBindings(obs).value)
    && ValidAnchors(a) && run.manifest == StoredAnchors(a) && run.state == StoredAnchors(a)
    && a.liveDigest == Digest(p.sha256, Aggregate(p, StoredTrialsOf(obs)))
    && run.measurement == Ok(m)
  }

  /** The artifacts with the trial files and the aggregate in run order. */
  function ArtifactsOf(obs: seq<Observation>, a: Anchors, m: Measurement): Run
    requires AuthorizedRouteBindings(obs).Ok?
  {
    Run(StoredAnchors(a), StoredAnchors(a), Ok(m), StoredTrialsOf(obs), Map(StoredObservation, obs),
        StoredSummary(OperatingSummary(obs)), TextArray(HardGateFailures(obs)), JBool(HardGateFailures(obs) == []),
        Map(StoredBinding, AuthorizedRouteBindings(obs).value))
  }

  /** Official runs are the artifacts of a measured run with their two lists reordered, and
      nothing else. */
  lemma {:induction false} OfficialRunsAreArtifacts(
      p: Platform, obs: seq<Observation>, a: Anchors, m: Measurement, run: Run)
    requires AuthorizedRouteBindings(obs).Ok? && ValidAnchors(a)
    requires a.liveDigest == Digest(p.sha256, Aggregate(p, StoredTrialsOf(obs)))
    ensures OfficialRun(p, obs, a, m, run) <==>
      && run == ArtifactsOf(obs, a, m).(trials := run.trials, aggregate := run.aggregate)
      && multiset(run.trials) == multiset(StoredTrialsOf(obs))
      && multiset(run.aggregate) == multiset(Map(StoredObservation, obs))
  {
    hide AuthorizedRouteBindings, OperatingSummary, HardGateFailures, ObservationFields, ValidAnchors, Aggregate;
  }

  const INTACT := Flags(true, true, true, true, true)

  function MeasuredSnapshot(obs: seq<Observation>, a: Anchors, m: Measurement): Snapshot
    requires AuthorizedRouteBindings(obs).Ok?
  {
    Snapshot(a, |obs|, m, Map(IdentityOf, AuthorizedRouteBindings(obs).value), OperatingSummary(obs),
             HardGateFailures(obs), SortedItems(Map(KindValue, obs)), INTACT)
  }

  lemma {:induction false} KindsRead(p: Platform, obs: seq<Observation>)
    ensures PairCounts(p, Values("task_kind", StoredTrialsOf(obs))) == Ok(SortedItems(Map(KindValue, obs)))
    ensures WellFormedPairs(SortedItems(Map(KindValue, obs)))
    ensures Sorted(PairLeq, SortedItems(Map(KindValue, obs))) == SortedItems(Map(KindValue, obs))
  {
    hide PairCounts, SortedItems, WellFormedPairs, IsIdentifier, ObservationFields, Values, StoredTrialsOf;
    KindColumn(obs);
    TextPairs(p, Map(KindText, obs), Map(KindValue, obs));
    forall v | v in Map(KindValue, obs) ensures IsIdentifier(v, 192) {
      var i :| 0 <= i < |obs| && KindValue(obs[i]) == v;
      KindIsName(obs[i].taskKind);
    }
    ItemsWellFormed(Map(KindValue, obs));
  }

  lemma {:induction false} SnapshotAccepted(obs: seq<Observation>, a: Anchors, m: Measurement)
    requires obs != [] && AllValid(obs) && AuthorizedRouteBindings(obs).Ok? && ValidAnchors(a)
    ensures NewSnapshot(MeasuredSnapshot(obs, a, m)) == Ok(MeasuredSnapshot(obs, a, m))
  {
    hide ValidObservation, AuthorizedRouteBindings, OperatingSummary, HardGateFailures, SortedItems, WellFormedPairs;
    var p := Platform((s: string) => s, (v: Json) => "");
    KindsRead(p, obs);
    GatesNormal(obs);
    OfficialRoutesRead(obs);
  }

  lemma {:induction false} StoredSummaryRead(obs: seq<Observation>)
    requires obs != [] && AllValid(obs)
    ensures NewSummary(StoredSummary(OperatingSummary(obs))) == Ok(OperatingSummary(obs))
  {
    hide ValidObservation, OperatingSummary, NewSummary, StoredSummary;
    SummaryIsNormal(obs);
    SummaryRoundTrip(OperatingSummary(obs));
  }

  lemma {:induction false} SummaryIsNormal(obs: seq<Observation>)
    requires obs != [] && AllValid(obs)
    ensures WellFormedSummary(OperatingSummary(obs))
    ensures SortedSummary(OperatingSummary(obs)) == OperatingSummary(obs)
  {
    hide ValidObservation, SortedItems, WellFormedPairs, Min, Max, Median, NearestRankP95, Sorted, NonNegative;
    var raw := UnsortedSummary(obs);
    UnsortedWellFormed(obs);
    SortedCounts(raw.invocationCounts);
    SortedCounts(raw.draftGenerationCounts);
    SortedCounts(raw.revisionCounts);
  }

  lemma {:induction false} SortedCounts(values: seq<int>)
    requires NonNegative(values)
    ensures NonNegative(Sorted(IntLeq, values)) && Sorted(IntLeq, Sorted(IntLeq, values)) == Sorted(IntLeq, values)
  {
    SortedSorts(IntLeq, values);
    SortedFixpoint(IntLeq, Sorted(IntLeq, values));
    SortedMembers(IntLeq, values);
    forall i | 0 <= i < |Sorted(IntLeq, values)| ensures Sorted(IntLeq, values)[i] >= 0 {
      assert Sorted(IntLeq, values)[i] in values;
    }
  }

  lemma {:induction false} AnchorsRead(a: Anchors)
    ensures AnchorsAgree(StoredAnchors(a), StoredAnchors(a)) && IsAnchors(StoredAnchors(a))
    ensures AnchorTexts(StoredAnchors(a)) == a
  {}

  /** What is regenerated from reordered trial files. */
  lemma {:induction false} RegeneratedInAnyOrder(p: Platform, obs: seq<Observation>, trials: seq<Trial>)
    requires obs != [] && AllValid(obs) && UniqueTrials(obs) && AuthorizedRouteBindings(obs).Ok?
    requires multiset(trials) == multiset(StoredTrialsOf(obs))
    ensures |trials| == |obs| == |set x | x in Map(Identity(p), trials)|
    ensures SummaryFromTrials(p, trials) == Ok(OperatingSummary(obs))
    ensures GatesFromTrials(trials) == Ok(HardGateFailures(obs))
    ensures RoutesFromTrials(p, trials) == Ok(Map(IdentityOf, AuthorizedRouteBindings(obs).value))
    ensures PairCounts(p, Values("task_kind", trials)) == Ok(SortedItems(Map(KindValue, obs)))
  {
    hide ValidObservation, ObservationFields, AuthorizedRouteBindings, OperatingSummary, HardGateFailures, SortedItems,
         SummaryFromTrials, GatesFromTrials, RoutesFromTrials, PairCounts;
    var obs' := Unmap(ObservationFields, trials, obs);
    PermutationMembers(obs, obs');
    ValidReordered(obs, obs');
    UniqueReordered(obs, obs');
    ProductionReordered(obs, obs');
    IdentitiesAccepted(p, obs');
    SummaryAgrees(p, obs');
    GatesAgree(obs');
    RoutesAgree(p, obs');
    KindsRead(p, obs');
  }

  /** Independent regeneration agrees with production: every artifact is confirmed, whatever
      the order of the trial files. */
  lemma {:induction false} IndependentRegenerationAgrees(
      p: Platform, obs: seq<Observation>, a: Anchors, m: Measurement, run: Run)
    requires obs != [] && AllValid(obs) && UniqueTrials(obs)
    requires OfficialRun(p, obs, a, m, run)
    ensures LoadRunEvidence(p, run) == Ok(MeasuredSnapshot(obs, a, m))
  {
    hide ValidObservation, ObservationFields, AuthorizedRouteBindings, OperatingSummary, HardGateFailures, SortedItems,
         SummaryFromTrials, NewSummary, GatesFromTrials, OfficialGates, RoutesFromTrials, OfficialRoutes, PairCounts,
         NewSnapshot, StoredSummary, Aggregate, ValidAnchors, AnchorsAgree, AnchorTexts, IsAnchors, StoredAnchors,
         SameSummary, AggregateMatches, LiveDigestMatches, GatesMatch;
    SameAsItself(OperatingSummary(obs));
    RegeneratedInAnyOrder(p, obs, run.trials);
    StoredSummaryRead(obs);
    GatesNormal(obs);
    OfficialGatesRead(HardGateFailures(obs));
    OfficialRoutesRead(obs);
    AnchorsRead(a);
    AggregateListRead(obs, run.aggregate);
    AggregateReordered(p, obs, run.trials, StoredTrialsOf(obs));
    AggregateReordered(p, obs, run.trials, Map(FieldsOf, run.aggregate));
    FlagsAllTrue(p, obs, a, run);
    SnapshotAccepted(obs, a, m);
  }

  lemma {:induction false} SameAsItself(s: Summary)
    ensures SameSummary(s, s)
  {}

  lemma {:induction false} FlagsAllTrue(p: Platform, obs: seq<Observation>, a: Anchors, run: Run)
    requires Aggregate(p, run.trials) == Aggregate(p, StoredTrialsOf(obs))
    requires Aggregate(p, run.trials) == Aggregate(p, Map(FieldsOf, run.aggregate))
    requires run.manifest == StoredAnchors(a) && run.state == StoredAnchors(a)
    requires a.liveDigest == Digest(p.sha256, Aggregate(p, StoredTrialsOf(obs)))
    requires run.allPass == JBool(HardGateFailures(obs) == [])
    ensures AggregateMatches(p, run) && LiveDigestMatches(p, run)
    ensures GatesMatch(run, HardGateFailures(obs), Some(HardGateFailures(obs)))
  {
    hide Aggregate, HardGateFailures;
  }

  lemma {:induction false} AggregateUnique(p: Platform, trials: seq<Trial>)
    requires forall t | t in trials :: UniqueKeys(JObj(t))
    ensures UniqueKeys(Aggregate(p, trials))
  {
    SortedMembers(AggregateLeq(p), trials);
    var items := Aggregate(p, trials).items;
    forall i | 0 <= i < |items| ensures UniqueKeys(items[i]) {
      assert Sorted(AggregateLeq(p), trials)[i] in trials;
    }
  }

  lemma {:induction false} StoredAggregateUnique(p: Platform, obs: seq<Observation>)
    ensures UniqueKeys(Aggregate(p, StoredTrialsOf(obs)))
  {
    hide ObservationFields;
    var trials := StoredTrialsOf(obs);
    forall t | t in trials ensures UniqueKeys(JObj(t)) {
      var i :| 0 <= i < |trials| && trials[i] == t;
      StoredKeysUnique(obs[i]);
    }
    AggregateUnique(p, trials);
  }

  /** With a collision-free hash the digest flag holds exactly when the stored trials, in
      canonical order, are the measured ones up to the order of keys inside a trial. */
  lemma {:induction false} DigestFlagDetectsChange(p: Platform, obs: seq<Observation>, run: Run)
    requires Injective(p.sha256)
    requires forall t | t in run.trials :: UniqueKeys(JObj(t))
    requires run.manifest.liveDigest == JStr(Digest(p.sha256, Aggregate(p, StoredTrialsOf(obs))))
    requires run.state.liveDigest == run.manifest.liveDigest
    ensures LiveDigestMatches(p, run) <==> SameValue(Aggregate(p, run.trials), Aggregate(p, StoredTrialsOf(obs)))
  {
    hide Aggregate, ObservationFields, UniqueKeys;
    AggregateUnique(p, run.trials);
    StoredAggregateUnique(p, obs);
    DigestDecidesEquality(p.sha256, Aggregate(p, run.trials), Aggregate(p, StoredTrialsOf(obs)));
  }
}
