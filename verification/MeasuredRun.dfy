/** The whole pipeline: a run that returns, its stored artifacts, their regeneration, and the
    acceptance of the run as a baseline. */
module MeasuredRun {
  import opened BenchmarkContracts
  import opened CanonicalJson
  import opened Comparator
  import opened GovernanceContracts
  import opened LaneCompleteness
  import opened LiveExecutor
  import opened LiveRun
  import opened Ordering
  import opened RegenerationTheorem
  import opened Results
  import opened RouteGrouping
  import opened RunCompleteness
  import opened RunEvidence
  import opened Sequences
  import opened StoredTrials
  import opened VerdictTheorems

  /** 24 official cases of each task kind: two for each of the twelve dimensions. */
  ghost predicate BalancedCorpus(cases: seq<Case>) {
    forall k | k in TASK_KINDS :: |Filter(CaseOfKind(k), Filter(Official, cases))| == TASK_KIND_CASES
  }

  lemma {:induction false} DistinctTrialsAreUnique(obs: seq<Observation>)
    requires Distinct(Map(TrialIdOf, obs))
    ensures UniqueTrials(obs)
  {
    var ids := Map(IdOf, obs);
    forall i, j | 0 <= i < j < |ids| ensures ids[i] != ids[j] {
      assert Map(TrialIdOf, obs)[i] != Map(TrialIdOf, obs)[j];
    }
  }

  lemma {:induction false} CountedLanesFit(obs: seq<Observation>)
    requires forall k | k in TASK_KINDS :: LaneCounts(Lane(obs, k))
    ensures LanesFit(obs)
  {
    forall o | o in obs && Invoked(o) ensures multiset(Kinds(obs))[o.taskKind] <= TASK_KIND_TRIALS {
      EveryKindListed(o.taskKind);
      KindCount(obs, o.taskKind);
    }
  }

  lemma {:induction false} ReturnedRunIsUnique(outside: Outside, baselineId: string, cases: seq<Case>)
    requires RunLive(outside, baselineId, FRESH, cases).1.Ok?
    ensures var obs := RunLive(outside, baselineId, FRESH, cases).1.value;
      obs != [] && AllValid(obs) && UniqueTrials(obs)
  {
    hide RunLive, Answers, ValidObservation;
    var obs := RunLive(outside, baselineId, FRESH, cases).1.value;
    var selected := Filter(Official, cases);
    OneShotRun(outside, baselineId, cases);
    AnswersAreValid(Slots(selected), obs);
    RunIds(selected, obs);
    DistinctTrialsAreUnique(obs);
  }

  /** What a returned run provides to the governance pipeline. */
  lemma {:induction false} ReturnedRunFacts(outside: Outside, baselineId: string, cases: seq<Case>)
    requires RunLive(outside, baselineId, FRESH, cases).1.Ok? && BalancedCorpus(cases)
    ensures var obs := RunLive(outside, baselineId, FRESH, cases).1.value;
      obs != [] && AllValid(obs) && UniqueTrials(obs) && AuthorizedRouteBindings(obs).Ok?
  {
    hide RunLive, ValidObservation, AuthorizedRouteBindings, LaneServed;
    var obs := RunLive(outside, baselineId, FRESH, cases).1.value;
    ReturnedRunIsUnique(outside, baselineId, cases);
    ReturnedRunCounts(outside, baselineId, cases);
    CountedLanesFit(obs);
    RoutesReturnIff(obs);
  }

  /** Every run that returns is confirmed by independent regeneration from its trial files. */
  lemma {:induction false} ReturnedRunRegenerates(
    outside: Outside, baselineId: string, cases: seq<Case>, p: Platform, a: Anchors, m: Measurement, run: Run)
    requires RunLive(outside, baselineId, FRESH, cases).1.Ok? && BalancedCorpus(cases)
    requires OfficialRun(p, RunLive(outside, baselineId, FRESH, cases).1.value, a, m, run)
    ensures AuthorizedRouteBindings(RunLive(outside, baselineId, FRESH, cases).1.value).Ok?
    ensures LoadRunEvidence(p, run) == Ok(MeasuredSnapshot(RunLive(outside, baselineId, FRESH, cases).1.value, a, m))
  {
    hide RunLive, ValidObservation, LoadRunEvidence, OfficialRun, MeasuredSnapshot, AuthorizedRouteBindings;
    ReturnedRunFacts(outside, baselineId, cases);
    IndependentRegenerationAgrees(p, RunLive(outside, baselineId, FRESH, cases).1.value, a, m, run);
  }

  /** On a returned run the baseline decision is established exactly when the run was not aborted
      since, the four reviews passed, no trial has a hard gate, none was without a route, and each
      task kind has invoked trials, all on one route: no count can block it. */
  lemma {:induction false} DecisionOnReturnedRun(
    outside: Outside, baselineId: string, cases: seq<Case>, focused: bool, historical: bool, backend: bool,
    owner: bool, aborted: bool)
    requires RunLive(outside, baselineId, FRESH, cases).1.Ok? && BalancedCorpus(cases)
    ensures var obs := RunLive(outside, baselineId, FRESH, cases).1.value;
      BaselineDecision(focused, historical, backend, obs, owner, aborted) ==
        if && !aborted && focused && historical && backend && owner
           && (forall o | o in obs :: o.hardGateFailures == [] && !o.routeStatus.Unavailable?)
           && (forall k: TaskKind :: SomeInvoked(obs, k))
           && (forall a, b | a in obs && b in obs && a.taskKind == b.taskKind && BothInvoked(a, b) ::
                 a.adapterId == b.adapterId && a.modelId == b.modelId && a.profileId == b.profileId)
        then "ESTABLISHED" else "BLOCKED"
  {
    hide RunLive, CountsRight, LaneCounts, RunCounts, LanesComplete, ValidObservation, BaselineDecision, LaneServed;
    var obs := RunLive(outside, baselineId, FRESH, cases).1.value;
    ReturnedRunIsUnique(outside, baselineId, cases);
    ReturnedRunCounts(outside, baselineId, cases);
    CountsExactly(obs);
    EstablishedExactly(focused, historical, backend, obs, owner, aborted);
    EveryKindRan(obs);
  }

  lemma {:induction false} EveryKindRan(obs: seq<Observation>)
    ensures (forall k: TaskKind :: RanOnOneRoute(obs, k)) <==>
      && (forall o | o in obs :: !o.routeStatus.Unavailable?)
      && (forall k: TaskKind :: SomeInvoked(obs, k))
      && (forall a, b | a in obs && b in obs && a.taskKind == b.taskKind && BothInvoked(a, b) ::
            a.adapterId == b.adapterId && a.modelId == b.modelId && a.profileId == b.profileId)
  {
    if forall k: TaskKind :: RanOnOneRoute(obs, k) {
      forall o | o in obs ensures !o.routeStatus.Unavailable? { assert RanOnOneRoute(obs, o.taskKind); }
      forall k: TaskKind ensures SomeInvoked(obs, k) { assert RanOnOneRoute(obs, k); }
      forall a, b | a in obs && b in obs && a.taskKind == b.taskKind && BothInvoked(a, b)
        ensures a.adapterId == b.adapterId && a.modelId == b.modelId && a.profileId == b.profileId
      {
        assert RanOnOneRoute(obs, a.taskKind);
      }
    }
  }

  lemma {:induction false} DecisionsDiffer()
    ensures "ESTABLISHED" != "BLOCKED"
  {
    assert |"ESTABLISHED"| == 11 && |"BLOCKED"| == 7;
  }

  /** A run whose baseline decision is established can be accepted as it is stored, and what is
      regenerated from its artifacts is then identical to the accepted baseline. */
  lemma {:induction false} EstablishedRunIsAccepted(
    outside: Outside, baselineId: string, cases: seq<Case>, focused: bool, historical: bool, backend: bool, owner: bool,
    p: Platform, a: Anchors, m: Measurement, run: Run, fp: Fingerprint, envelope: Envelope)
    requires RunLive(outside, baselineId, FRESH, cases).1.Ok?
    requires OfficialRun(p, RunLive(outside, baselineId, FRESH, cases).1.value, a, m, run)
    requires BaselineDecision(focused, historical, backend, RunLive(outside, baselineId, FRESH, cases).1.value, owner,
        false)
          == "ESTABLISHED"
    ensures var obs := RunLive(outside, baselineId, FRESH, cases).1.value;
      && AuthorizedRouteBindings(obs).Ok?
      && LoadRunEvidence(p, run) == Ok(MeasuredSnapshot(obs, a, m))
      && NewRecord(AcceptedRecord(obs, a, m)) == Ok(AcceptedRecord(obs, a, m))
      && var s := MeasuredSnapshot(obs, a, m);
         var r := Assess(fp, AcceptedRecord(obs, a, m), s, s, envelope);
         r.drift.Identical? && r.status.PassReadyForOwnerReview? && r.deltas == [] && r.reasons == []
  {
    hide RunLive, ValidObservation, LoadRunEvidence, MeasuredSnapshot, AuthorizedRouteBindings, Assess, AcceptedRecord,
         NewRecord, HardGateFailures, ValidAnchors, VerifyReference, LanesComplete;
    var obs := RunLive(outside, baselineId, FRESH, cases).1.value;
    DecisionsDiffer();
    ReturnedRunIsUnique(outside, baselineId, cases);
    IndependentRegenerationAgrees(p, obs, a, m, run);
    CompleteLanesAcceptRecord(obs, a, m);
    SelfComparisonIsIdentical(fp, obs, a, m, AcceptedRecord(obs, a, m), envelope);
  }

  // ---------------------------------------------------------------- run order

  ghost predicate Ascending(cases: seq<Case>) {
    forall i, j | 0 <= i < j < |cases| :: StrLeq(cases[i].caseId, cases[j].caseId) && cases[i].caseId != cases[j].caseId
  }

  lemma {:induction false} TrialIdsAscend(caseId: string, i: nat, j: nat)
    requires 1 <= i <= j <= 3
    ensures StrLeq(TrialId(caseId, i), TrialId(caseId, j))
  {
    StrAppend(caseId + ":T", Digits(i), Digits(j));
    assert Digits(i) == [Digit(i)] && Digits(j) == [Digit(j)];
    assert Digits(i)[1..] == [] && Digits(j)[1..] == [];
    assert StrLeq(Digits(i), Digits(j)) by { assert i == j || Digit(i) != Digit(j); }
  }

  /** Over a corpus in case order the run returns its observations in the canonical order, so
      their digest in run order is the digest of the aggregate. */
  lemma {:induction false} RunOrderIsCanonical(p: Platform, cases: seq<Case>, obs: seq<Observation>)
    requires Ascending(cases) && AnswersAll(Slots(cases), obs)
    ensures Aggregate(p, StoredTrialsOf(obs)) == JArr(Map((t: Trial) => JObj(t), StoredTrialsOf(obs)))
  {
    hide ObservationFields, Answers;
    var trials := StoredTrialsOf(obs);
    assert |obs| == |Slots(cases)|;
    forall i, j | 0 <= i < j < |trials| ensures AggregateLeq(p)(trials[i], trials[j]) {
      SlotsAscend(p, cases, obs, i, j);
    }
    SortedFixpoint(AggregateLeq(p), trials);
  }

  lemma {:induction false} SlotsAscend(p: Platform, cases: seq<Case>, obs: seq<Observation>, i: nat, j: nat)
    requires Ascending(cases) && AnswersAll(Slots(cases), obs) && i < j < |obs|
    ensures KeyLeq(AggregateKey(p, ObservationFields(obs[i])), AggregateKey(p, ObservationFields(obs[j])))
  {
    hide ObservationFields, Answers, TrialId, StrLeq, AggregateKey;
    AnswerIdentity(Slots(cases), obs, i);
    AnswerIdentity(Slots(cases), obs, j);
    AggregateKeyRead(p, obs[i]);
    AggregateKeyRead(p, obs[j]);
    var a, b := cases[i / 3], cases[j / 3];
    if i / 3 == j / 3 {
      TrialIdsAscend(a.caseId, i % 3 + 1, j % 3 + 1);
      PairKeys(a.caseId, obs[i].trialId, obs[j].trialId);
    } else {
      FirstKeys(a.caseId, obs[i].trialId, b.caseId, obs[j].trialId);
    }
  }

  lemma {:induction false} PairKeys(k: string, x: string, y: string)
    requires StrLeq(x, y)
    ensures KeyLeq([k, x], [k, y])
  {
    assert [k, x][1..] == [x] && [k, y][1..] == [y];
    assert [x][1..] == [] && [y][1..] == [];
    assert Lex(StrLeq, [x], [y]);
  }

  lemma {:induction false} FirstKeys(k: string, x: string, l: string, y: string)
    requires StrLeq(k, l) && k != l
    ensures KeyLeq([k, x], [l, y])
  {
    hide StrLeq;
  }
}
