/** What a D139 verdict means, and the verdict of a measured run compared with itself. */
module VerdictTheorems {
  import opened BenchmarkContracts
  import opened Comparator
  import opened GovernanceContracts
  import opened LaneCompleteness
  import opened OperatingSummaries
  import opened OrderStatistics
  import opened Ordering
  import opened Regeneration
  import opened RegenerationTheorem
  import opened Results
  import opened RouteGrouping
  import opened Sequences
  import opened StoredTrials

  ghost predicate Passes(
      fp: Fingerprint, record: Record, reference: Snapshot, candidate: Snapshot, envelope: Envelope) {
    Assess(fp, record, reference, candidate, envelope).status.PassReadyForOwnerReview?
  }

  /** The exact conditions of a pass: everything verifies, no hard gate failed, a route change is
      approved, and the operating changes are all approved, or are unapproved durations alone. */
  lemma {:induction false} ExactVerdict(
      fp: Fingerprint, record: Record, reference: Snapshot, candidate: Snapshot, envelope: Envelope)
    ensures Passes(fp, record, reference, candidate, envelope) <==>
      && Verified(record, reference, candidate)
      && candidate.hardGates == []
      && (reference.routes != candidate.routes ==> Allowed(RouteDelta(fp, reference, candidate), envelope))
      && ((forall f: SummaryField | FieldChanged(reference, candidate, f) ::
          FieldAllowed(fp, reference, candidate, envelope, f))
          || (reference.routes == candidate.routes
              && forall f: SummaryField | FieldChanged(reference, candidate, f) ::
                   f.IsDuration() && !FieldAllowed(fp, reference, candidate, envelope, f)))
    ensures Assess(fp, record, reference, candidate, envelope).status.RejectRegression? <==>
      candidate.hardGates != [] || RouteRegression(fp, reference, candidate, envelope)
  {
    hide Verified, Allowed, RouteDelta, FieldDelta, Differs, Changes, Reasons;
  }

  /** An identical verdict means equal routes and summaries equal field by field, and nothing
      to report. */
  lemma {:induction false} IdenticalMeansEqual(
      fp: Fingerprint, record: Record, reference: Snapshot, candidate: Snapshot, envelope: Envelope)
    ensures var r := Assess(fp, record, reference, candidate, envelope);
      r.drift.Identical? <==>
        && Verified(record, reference, candidate) && candidate.hardGates == []
        && reference.routes == candidate.routes && SameSummary(reference.summary, candidate.summary)
    ensures var r := Assess(fp, record, reference, candidate, envelope); r.drift.Identical? ==>
        r.deltas == [] && r.reasons == []
  {
    hide Verified, Allowed, Reasons, FieldDeltas, FieldChanged, RouteRegression, Sorted, Dedup;
    SameFields(reference, candidate);
    IdenticalVerdict(fp, record, reference, candidate, envelope);
    NoOperatingDeltas(fp, reference, candidate);
    ReasonsExplainVerdict(fp, record, reference, candidate, envelope);
    if reference.routes == candidate.routes && candidate.hardGates == [] &&
        SameSummary(reference.summary, candidate.summary) {
      NothingSorted(Changes(fp, reference, candidate));
    }
  }

  lemma {:induction false} IdenticalVerdict(
      fp: Fingerprint, record: Record, reference: Snapshot, candidate: Snapshot, envelope: Envelope)
    ensures Verdict(fp, record, reference, candidate, envelope).0.Identical? <==>
              Verified(record, reference, candidate) && candidate.hardGates == [] &&
                  NothingChanged(reference, candidate)
  {
    hide Verified, Allowed, FieldChanged, AllApproved, OnlyTiming;
  }

  lemma {:induction false} NothingSorted(deltas: seq<Delta>)
    ensures deltas == [] ==> Sorted(DeltaLeq, deltas) == []
  {}

  lemma {:induction false} SameFields(reference: Snapshot, candidate: Snapshot)
    ensures (forall f: SummaryField :: !FieldChanged(reference, candidate, f)) <==>
        SameSummary(reference.summary, candidate.summary)
  {
    var a, b := reference.summary, candidate.summary;
    if forall f: SummaryField :: !FieldChanged(reference, candidate, f) {
      forall f: SummaryField ensures SameField(FieldValue(a, f), FieldValue(b, f)) {
        assert !FieldChanged(reference, candidate, f);
      }
      EqualCounts(a, b);
      EqualLists(a, b);
      EqualDurations(a, b);
    }
  }

  lemma {:induction false} EqualCounts(a: Summary, b: Summary)
    requires forall f: SummaryField :: SameField(FieldValue(a, f), FieldValue(b, f))
    ensures a.trialCount == b.trialCount && a.completedCount == b.completedCount
    ensures a.insufficientCount == b.insufficientCount && a.blockedCount == b.blockedCount
    ensures a.failedCount == b.failedCount && a.unavailableCount == b.unavailableCount
  {
    EqualAt(a, b, TrialCount);
    EqualAt(a, b, CompletedCount);
    EqualAt(a, b, InsufficientCount);
    EqualAt(a, b, BlockedCount);
    EqualAt(a, b, FailedCount);
    EqualAt(a, b, UnavailableCount);
  }

  lemma {:induction false} EqualLists(a: Summary, b: Summary)
    requires forall f: SummaryField :: SameField(FieldValue(a, f), FieldValue(b, f))
    ensures a.terminalStates == b.terminalStates && a.safeFailures == b.safeFailures
    ensures a.invocationCounts == b.invocationCounts && a.draftGenerationCounts == b.draftGenerationCounts
    ensures a.revisionCounts == b.revisionCounts
  {
    EqualAt(a, b, TerminalStates);
    EqualAt(a, b, SafeFailures);
    EqualAt(a, b, InvocationCounts);
    EqualAt(a, b, DraftGenerationCounts);
    EqualAt(a, b, RevisionCounts);
  }

  lemma {:induction false} EqualDurations(a: Summary, b: Summary)
    requires forall f: SummaryField :: SameField(FieldValue(a, f), FieldValue(b, f))
    ensures a.durationMin == b.durationMin && SameMedian(a.durationMedian, b.durationMedian)
    ensures a.durationP95 == b.durationP95 && a.durationMax == b.durationMax
  {
    EqualAt(a, b, DurationMin);
    EqualAt(a, b, DurationP95);
    EqualAt(a, b, DurationMax);
    assert SameField(FieldValue(a, DurationMedian), FieldValue(b, DurationMedian));
  }

  lemma {:induction false} EqualAt(a: Summary, b: Summary, f: SummaryField)
    requires SameField(FieldValue(a, f), FieldValue(b, f)) && !f.DurationMedian?
    ensures FieldValue(a, f) == FieldValue(b, f)
  {}

  /** A candidate passes exactly when no reason is recorded. */
  lemma {:induction false} ReasonsExplainVerdict(
      fp: Fingerprint, record: Record, reference: Snapshot, candidate: Snapshot, envelope: Envelope)
    ensures Assess(fp, record, reference, candidate, envelope).reasons == [] <==>
        Passes(fp, record, reference, candidate, envelope)
  {
    hide VerifyReference, Snapshot.Intact, TrialsComplete, Changes, Allowed, RouteDelta, FieldDelta, Differs,
         AllApproved, OnlyTiming, NothingChanged;
    var reasons := Reasons(fp, record, reference, candidate, envelope);
    SortedIsSortedPermutation(StrLeq, Dedup(reasons));
    if reasons != [] { assert reasons[0] in Dedup(reasons); }
    NoReason(fp, record, reference, candidate, envelope);
  }

  lemma {:induction false} NoReason(
      fp: Fingerprint, record: Record, reference: Snapshot, candidate: Snapshot, envelope: Envelope)
    ensures Reasons(fp, record, reference, candidate, envelope) == [] <==>
              Verdict(fp, record, reference, candidate, envelope).1.PassReadyForOwnerReview?
  {
    hide VerifyReference, Snapshot.Intact, TrialsComplete, Changes, Allowed, RouteDelta, FieldDelta, Differs,
         AllApproved, OnlyTiming, NothingChanged;
  }

  /** The reported deltas are the hard gates, the routes and the summary fields that differ,
      whatever the envelope. */
  lemma {:induction false} DeltasAreTheDifferences(
      fp: Fingerprint, record: Record, reference: Snapshot, candidate: Snapshot, envelope: Envelope, d: Delta)
    ensures d in Assess(fp, record, reference, candidate, envelope).deltas <==>
      || (candidate.hardGates != [] && d == GateDelta(fp, reference, candidate))
      || (reference.routes != candidate.routes && d == RouteDelta(fp, reference, candidate))
      || (exists f: SummaryField ::
          FieldChanged(reference, candidate, f) && d == FieldDelta(fp, reference.summary, candidate.summary, f))
    ensures IsSorted(DeltaLeq, Assess(fp, record, reference, candidate, envelope).deltas)
  {
    hide Verdict, Reasons, GateDelta, RouteDelta, FieldDelta, FieldDeltas, Differs, Sorted, Changes, DeltaLeq;
    var changes := Changes(fp, reference, candidate);
    DeltaOrder();
    SortedIsSortedPermutation(DeltaLeq, changes);
    SortedMembers(DeltaLeq, changes);
    ChangesMember(fp, reference, candidate, d);
  }

  lemma {:induction false} DeltaOrder()
    ensures TotalPreorder(DeltaLeq)
  {
    KeyOrder();
  }

  lemma {:induction false} ChangesMember(fp: Fingerprint, reference: Snapshot, candidate: Snapshot, d: Delta)
    ensures d in Changes(fp, reference, candidate) <==>
      || (candidate.hardGates != [] && d == GateDelta(fp, reference, candidate))
      || (reference.routes != candidate.routes && d == RouteDelta(fp, reference, candidate))
      || (exists f: SummaryField ::
          FieldChanged(reference, candidate, f) && d == FieldDelta(fp, reference.summary, candidate.summary, f))
  {
    hide GateDelta, RouteDelta, FieldDelta, FieldDeltas, Differs;
    if d in FieldDeltas(fp, reference.summary, candidate.summary, FIELDS) {
      var f := FieldOfDelta(fp, reference.summary, candidate.summary, d);
      assert FieldChanged(reference, candidate, f);
    }
    if f: SummaryField :|
        FieldChanged(reference, candidate, f) &&
        d == FieldDelta(fp, reference.summary, candidate.summary, f) {
      DeltaOfField(fp, reference.summary, candidate.summary, f);
    }
  }

  predicate RejectsWithReason(r: Assessment) { r.status.RejectRegression? && r.drift.Regression? && r.reasons != [] }

  /** A hard gate failure is rejected under every envelope. */
  lemma {:induction false} HardGatesReject(fp: Fingerprint, record: Record, reference: Snapshot, candidate: Snapshot)
    requires candidate.hardGates != []
    ensures forall envelope: Envelope :: RejectsWithReason(Assess(fp, record, reference, candidate, envelope))
  {
    forall envelope: Envelope
      ensures RejectsWithReason(Assess(fp, record, reference, candidate, envelope))
    {
      ExactVerdict(fp, record, reference, candidate, envelope);
      ReasonsExplainVerdict(fp, record, reference, candidate, envelope);
    }
  }

  // ---------------------------------------------------------------- envelopes

  predicate Wider(a: Envelope, b: Envelope) { a.Some? ==> b.Some? && forall x | x in a.value :: x in b.value }

  /** Approving more can withdraw a pass: after widening, a passing candidate still passes exactly
      when all its operating changes are approved or still none is and they are durations. */
  lemma {:induction false} WideningAnEnvelope(
      fp: Fingerprint, record: Record, reference: Snapshot, candidate: Snapshot, a: Envelope, b: Envelope)
    requires Wider(a, b) && Passes(fp, record, reference, candidate, a)
    ensures Passes(fp, record, reference, candidate, b) <==>
              AllApproved(fp, reference, candidate, b) || OnlyTiming(fp, reference, candidate, b)
    ensures !Passes(fp, record, reference, candidate, b) ==>
              Assess(fp, record, reference, candidate, b).status.HoldReviewRequired?
              && Assess(fp, record, reference, candidate, a).drift.AcceptableVariation?
  {
    hide Verified, RouteDelta, FieldDelta, Differs, Changes, Reasons;
    ExactVerdict(fp, record, reference, candidate, a);
    ExactVerdict(fp, record, reference, candidate, b);
    assert Allowed(RouteDelta(fp, reference, candidate), a) ==> Allowed(RouteDelta(fp, reference, candidate), b);
    forall f: SummaryField | FieldAllowed(fp, reference, candidate, a, f)
        ensures FieldAllowed(fp, reference, candidate, b, f) {}
  }

  // ---------------------------------------------------------------- a measured run against itself

  /** The task-kind counts of a measured run add up to its trials. */
  lemma {:induction false} KindsConserve(obs: seq<Observation>)
    ensures Sum(Counts(SortedItems(Map(KindValue, obs)))) == |obs|
  {
    ItemsConserve(Map(KindValue, obs));
  }

  lemma {:induction false} VerifiesItself(obs: seq<Observation>, a: Anchors, m: Measurement, record: Record)
    requires AuthorizedRouteBindings(obs).Ok? && VerifyReference(record, MeasuredSnapshot(obs, a, m))
    ensures Verified(record, MeasuredSnapshot(obs, a, m), MeasuredSnapshot(obs, a, m))
  {
    hide AuthorizedRouteBindings, HardGateFailures, OperatingSummary, SortedItems;
    KindsConserve(obs);
  }

  /** A measured run without hard gates, compared with itself against a record that verifies it,
      is identical under every envelope. */
  lemma {:induction false} SelfComparisonIsIdentical(
    fp: Fingerprint, obs: seq<Observation>, a: Anchors, m: Measurement, record: Record, envelope: Envelope)
    requires AuthorizedRouteBindings(obs).Ok? && HardGateFailures(obs) == []
    requires VerifyReference(record, MeasuredSnapshot(obs, a, m))
    ensures var s := MeasuredSnapshot(obs, a, m); var r := Assess(fp, record, s, s, envelope);
      r.drift.Identical? && r.status.PassReadyForOwnerReview? && r.deltas == [] && r.reasons == []
  {
    hide AuthorizedRouteBindings, HardGateFailures, OperatingSummary, SortedItems, Assess, Verified, VerifyReference,
         SameSummary;
    var s := MeasuredSnapshot(obs, a, m);
    VerifiesItself(obs, a, m, record);
    SameAsItself(s.summary);
    IdenticalMeansEqual(fp, record, s, s, envelope);
    ReasonsExplainVerdict(fp, record, s, s, envelope);
  }

  /** The record under which a measured run is accepted. */
  function AcceptedRecord(obs: seq<Observation>, a: Anchors, m: Measurement): Record
    requires AuthorizedRouteBindings(obs).Ok?
  {
    Record(a, |obs|, m, Map(IdentityOf, AuthorizedRouteBindings(obs).value))
  }

  /** A run with complete lanes satisfies the one-route-per-task-kind rule, so its record is
      accepted and verifies the regenerated snapshot. */
  lemma {:induction false} CompleteLanesAcceptRecord(obs: seq<Observation>, a: Anchors, m: Measurement)
    requires AllValid(obs) && LanesComplete(obs) && ValidAnchors(a)
    ensures AuthorizedRouteBindings(obs).Ok?
    ensures NewRecord(AcceptedRecord(obs, a, m)) == Ok(AcceptedRecord(obs, a, m))
    ensures VerifyReference(AcceptedRecord(obs, a, m), MeasuredSnapshot(obs, a, m))
  {
    hide ValidObservation, LaneCounts, LaneServed, ValidAnchors, AuthorizedRouteBindings, OperatingSummary,
         HardGateFailures, SortedItems;
    CompleteLanesGiveCanonicalRoutes(obs);
    var bindings := AuthorizedRouteBindings(obs).value;
    OfficialRoutesRead(obs);
    OneRoutePerKind(obs, bindings);
  }

  lemma {:induction false} OneRoutePerKind(obs: seq<Observation>, bindings: seq<RouteBinding>)
    requires CanonicalRoutes(obs, bindings)
    ensures var routes := Map(IdentityOf, bindings);
      routes != [] && |set x | x in Map(KindOfRoute, routes)| == |routes|
  {
    var kinds := Map(KindOfRoute, Map(IdentityOf, bindings));
    assert CanonicalFor(obs, TASK_KINDS[0], bindings[0]) && CanonicalFor(obs, TASK_KINDS[1], bindings[1]);
    TaskKindValues(GeneralChat, SoftwareEngineering);
    assert kinds[0] == GeneralChat.Value() && kinds[1] == SoftwareEngineering.Value();
    DistinctCardinality(kinds);
  }
}
