/** The assessment in terms of what the record and the two snapshots hold: an independent statement
    of every flag, verdict, reason and delta. */
module VerdictFacts {
  import opened Comparator
  import opened GovernanceContracts
  import opened OperatingSummaries
  import opened Ordering
  import opened Results
  import opened Sequences
  import opened VerdictTheorems

  // ---------------------------------------------------------------- what is verified

  /** The reference is intact and the one the record accepted. */
  ghost predicate ReferenceFits(record: Record, s: Snapshot) {
    && s.flags == Flags(true, true, true, true, true)
    && s.anchors.baselineId == record.anchors.baselineId
    && s.anchors.measurementCommit == record.anchors.measurementCommit
    && s.anchors.deterministicDigest == record.anchors.deterministicDigest
    && s.anchors.liveDigest == record.anchors.liveDigest
    && s.anchors.reportDigest == record.anchors.reportDigest
    && s.observationCount == record.observationCount
    && s.measurement == record.measurement
    && s.routes == record.routes
  }

  ghost function Total(counts: seq<(string, int)>): int {
    if counts == [] then 0 else counts[0].1 + Total(counts[1..])
  }

  /** The candidate has as many trials as the record, spread over the task kinds like those of the
      reference, and its task-kind counts add up to them. */
  ghost predicate TrialsFit(record: Record, reference: Snapshot, candidate: Snapshot) {
    && candidate.observationCount == record.observationCount
    && candidate.taskKindCounts == reference.taskKindCounts
    && Total(candidate.taskKindCounts) == record.observationCount
  }

  lemma {:induction false} TotalIsSum(counts: seq<(string, int)>)
    ensures Total(counts) == Sum(Counts(counts))
  {
    if counts != [] {
      TotalIsSum(counts[1..]);
      assert Counts(counts)[1..] == Counts(counts[1..]);
    }
  }

  lemma {:induction false} FactsVerify(record: Record, reference: Snapshot, candidate: Snapshot)
    ensures VerifyReference(record, reference) <==> ReferenceFits(record, reference)
    ensures candidate.Intact() <==> candidate.flags == Flags(true, true, true, true, true)
    ensures TrialsComplete(record, reference, candidate) <==> TrialsFit(record, reference, candidate)
    ensures Verified(record, reference, candidate) <==>
      && ReferenceFits(record, reference) && candidate.flags == Flags(true, true, true, true, true)
      && reference.measurement == candidate.measurement && TrialsFit(record, reference, candidate)
  {
    TotalIsSum(candidate.taskKindCounts);
  }

  // ---------------------------------------------------------------- what differs

  /** One compared value: its name, its two values, and whether it is a duration. */
  datatype Column = Column(name: string, before: Value, after: Value, duration: bool)
  {
    ghost function Path(): string { "operating_summary." + name }
  }

  ghost function ColumnOf(a: Summary, b: Summary, f: SummaryField): Column {
    match f
    case TrialCount => Column("trial_count", Whole(a.trialCount), Whole(b.trialCount), false)
    case CompletedCount => Column("completed_count", Whole(a.completedCount), Whole(b.completedCount), false)
    case InsufficientCount =>
      Column("insufficient_count", Whole(a.insufficientCount), Whole(b.insufficientCount), false)
    case BlockedCount => Column("blocked_count", Whole(a.blockedCount), Whole(b.blockedCount), false)
    case FailedCount => Column("failed_count", Whole(a.failedCount), Whole(b.failedCount), false)
    case UnavailableCount => Column("unavailable_count", Whole(a.unavailableCount), Whole(b.unavailableCount), false)
    case TerminalStates =>
      Column("terminal_state_distribution", Pairs(a.terminalStates), Pairs(b.terminalStates), false)
    case SafeFailures => Column("safe_failure_distribution", Pairs(a.safeFailures), Pairs(b.safeFailures), false)
    case InvocationCounts => Column("invocation_counts", Wholes(a.invocationCounts), Wholes(b.invocationCounts), false)
    case DraftGenerationCounts =>
      Column("draft_generation_counts", Wholes(a.draftGenerationCounts), Wholes(b.draftGenerationCounts), false)
    case RevisionCounts => Column("revision_counts", Wholes(a.revisionCounts), Wholes(b.revisionCounts), false)
    case DurationMin => Column("duration_min_ms", MaybeWhole(a.durationMin), MaybeWhole(b.durationMin), true)
    case DurationMedian =>
      Column("duration_median_ms", MaybeMedian(a.durationMedian), MaybeMedian(b.durationMedian), true)
    case DurationP95 => Column("duration_p95_ms", MaybeWhole(a.durationP95), MaybeWhole(b.durationP95), true)
    case DurationMax => Column("duration_max_ms", MaybeWhole(a.durationMax), MaybeWhole(b.durationMax), true)
  }

  /** The two values differ; medians are compared as numbers. */
  ghost predicate Moved(c: Column) {
    match (c.before, c.after)
    case (MaybeMedian(Some(x)), MaybeMedian(Some(y))) => x.Number() != y.Number()
    case _ => c.before != c.after
  }

  /** The envelope lists the fingerprint of the change. */
  ghost predicate Listed(
      fp: Fingerprint, envelope: Envelope, domain: string, path: string, before: Value, after: Value) {
    envelope.Some? && fp(domain, path, before, after) in envelope.value
  }

  ghost predicate ColumnListed(fp: Fingerprint, envelope: Envelope, c: Column) {
    Listed(fp, envelope, "operating", c.Path(), c.before, c.after)
  }

  /** Each column is a field of the comparison. */
  lemma {:induction false} FieldIsColumn(a: Summary, b: Summary, f: SummaryField)
    ensures var c := ColumnOf(a, b, f);
      && c.before == FieldValue(a, f) && c.after == FieldValue(b, f) && c.duration == f.IsDuration()
      && c.name == f.Name()
  {}

  lemma {:induction false} MovedExactly(a: Summary, b: Summary, f: SummaryField)
    ensures Moved(ColumnOf(a, b, f)) <==> Differs(a, b, f)
  {
    hide ColumnOf, FieldValue;
    FieldIsColumn(a, b, f);
  }

  /** A delta of one column. */
  ghost function ColumnDelta(fp: Fingerprint, c: Column): Delta {
    Delta("operating", c.Path(), c.before, c.after, fp("operating", c.Path(), c.before, c.after))
  }

  lemma {:induction false} FieldFacts(fp: Fingerprint, a: Snapshot, b: Snapshot, envelope: Envelope, f: SummaryField)
    ensures var c := ColumnOf(a.summary, b.summary, f);
      && (FieldChanged(a, b, f) <==> Moved(c))
      && (FieldAllowed(fp, a, b, envelope, f) <==> ColumnListed(fp, envelope, c))
      && f.IsDuration() == c.duration
      && FieldDelta(fp, a.summary, b.summary, f) == ColumnDelta(fp, c)
  {
    hide ColumnOf, FieldValue, Differs, Moved, SummaryField.Name, SummaryField.IsDuration;
    FieldIsColumn(a.summary, b.summary, f);
    MovedExactly(a.summary, b.summary, f);
  }

  // ---------------------------------------------------------------- the verdict

  /** A gate failed, or the routes changed without approval. */
  ghost predicate MustReject(fp: Fingerprint, reference: Snapshot, candidate: Snapshot, envelope: Envelope) {
    || candidate.hardGates != []
    || (reference.routes != candidate.routes
        && !Listed(fp, envelope, "route", "authorized_route_bindings",
                   Routes(reference.routes), Routes(candidate.routes)))
  }

  /** Everything is verified. */
  ghost predicate AllFits(record: Record, reference: Snapshot, candidate: Snapshot) {
    && ReferenceFits(record, reference) && candidate.flags == Flags(true, true, true, true, true)
    && reference.measurement == candidate.measurement && TrialsFit(record, reference, candidate)
  }

  /** Every moved column is listed. */
  ghost predicate MovesListed(fp: Fingerprint, reference: Snapshot, candidate: Snapshot, envelope: Envelope) {
    forall f: SummaryField | Moved(ColumnOf(reference.summary, candidate.summary, f)) ::
      ColumnListed(fp, envelope, ColumnOf(reference.summary, candidate.summary, f))
  }

  /** The routes are unchanged, and the moved columns are durations of which none is listed. */
  ghost predicate OnlyDurations(fp: Fingerprint, reference: Snapshot, candidate: Snapshot, envelope: Envelope) {
    && reference.routes == candidate.routes
    && forall f: SummaryField | Moved(ColumnOf(reference.summary, candidate.summary, f)) ::
         var c := ColumnOf(reference.summary, candidate.summary, f);
         c.duration && !ColumnListed(fp, envelope, c)
  }

  ghost predicate NothingMoved(reference: Snapshot, candidate: Snapshot) {
    && reference.routes == candidate.routes
    && forall f: SummaryField :: !Moved(ColumnOf(reference.summary, candidate.summary, f))
  }

  lemma {:induction false} MovesAreChanges(fp: Fingerprint, a: Snapshot, b: Snapshot, envelope: Envelope)
    ensures MovesListed(fp, a, b, envelope) <==> AllApproved(fp, a, b, envelope)
    ensures OnlyDurations(fp, a, b, envelope) <==> OnlyTiming(fp, a, b, envelope)
    ensures NothingMoved(a, b) <==> NothingChanged(a, b)
  {
    hide ColumnOf, FieldChanged, FieldAllowed, Moved, ColumnListed, FieldDelta, SummaryField.IsDuration;
    forall f: SummaryField
      ensures var c := ColumnOf(a.summary, b.summary, f);
        && (FieldChanged(a, b, f) <==> Moved(c))
        && (FieldAllowed(fp, a, b, envelope, f) <==> ColumnListed(fp, envelope, c)) && f.IsDuration() == c.duration
    {
      FieldFacts(fp, a, b, envelope, f);
    }
  }

  /** The verdict, for every record, pair of snapshots and envelope. */
  lemma {:induction false} VerdictByFacts(
      fp: Fingerprint, record: Record, reference: Snapshot, candidate: Snapshot, envelope: Envelope)
    ensures var r := Assess(fp, record, reference, candidate, envelope);
      var (drift, status) := (r.drift, r.status);
      (drift, status) ==
        if MustReject(fp, reference, candidate, envelope) then (Regression, RejectRegression)
        else if !AllFits(record, reference, candidate) then (Regression, HoldReviewRequired)
        else if NothingMoved(reference, candidate) then (Identical, PassReadyForOwnerReview)
        else if MovesListed(fp, reference, candidate, envelope) then (ExpectedChange, PassReadyForOwnerReview)
        else if OnlyDurations(fp, reference, candidate, envelope) then (AcceptableVariation, PassReadyForOwnerReview)
        else (Regression, HoldReviewRequired)
  {
    hide Verified, AllApproved, OnlyTiming, NothingChanged, ReferenceFits, TrialsFit, MovesListed, OnlyDurations,
         NothingMoved, Changes, Reasons, Sorted, Dedup;
    FactsVerify(record, reference, candidate);
    MovesAreChanges(fp, reference, candidate, envelope);
  }

  /** The four flags, the two passes and the identities of the assessment. */
  lemma {:induction false} FlagsByFacts(
      fp: Fingerprint, record: Record, reference: Snapshot, candidate: Snapshot, envelope: Envelope)
    ensures var r := Assess(fp, record, reference, candidate, envelope);
      && r.referenceBaselineId == record.anchors.baselineId
      && r.candidateCommit == candidate.anchors.measurementCommit
      && (r.referenceVerified <==> ReferenceFits(record, reference))
      && (r.candidateVerified <==> candidate.flags == Flags(true, true, true, true, true))
      && (r.identityVerified <==> reference.measurement == candidate.measurement)
      && (r.trialsComplete <==> TrialsFit(record, reference, candidate))
      && (r.hardGatePass <==> candidate.hardGates == [])
      && (!r.routePass <==>
            && reference.routes != candidate.routes
            && !Listed(fp, envelope, "route", "authorized_route_bindings",
                       Routes(reference.routes), Routes(candidate.routes)))
  {
    hide Verdict, Reasons, Changes, Sorted, Dedup, ReferenceFits, TrialsFit, VerifyReference, TrialsComplete;
    FactsVerify(record, reference, candidate);
  }

  /** A reason and its cause; `held` says the changes alone put the candidate on hold. */
  ghost predicate Caused(
      fp: Fingerprint, record: Record, reference: Snapshot, candidate: Snapshot, envelope: Envelope,
      held: bool, reason: string)
  {
    || (reason == "reference_verification_failed" && !ReferenceFits(record, reference))
    || (reason == "candidate_evidence_verification_failed" && candidate.flags != Flags(true, true, true, true, true))
    || (reason == "measurement_identity_mismatch" && reference.measurement != candidate.measurement)
    || (reason == "trial_completeness_failed" && !TrialsFit(record, reference, candidate))
    || (reason == "hard_gate_regression" && candidate.hardGates != [])
    || (reason == "route_regression" && reference.routes != candidate.routes
        && !Listed(fp, envelope, "route", "authorized_route_bindings",
                   Routes(reference.routes), Routes(candidate.routes)))
    || (reason == "operating_delta_requires_review" && AllFits(record, reference, candidate) && held)
  }

  /** The reasons are the causes that hold, each under its name. */
  lemma {:induction false} ReasonsByFacts(
      fp: Fingerprint, record: Record, reference: Snapshot, candidate: Snapshot, envelope: Envelope, reason: string)
    ensures var r := Assess(fp, record, reference, candidate, envelope);
      reason in r.reasons <==>
        Caused(fp, record, reference, candidate, envelope, r.status.HoldReviewRequired?, reason)
  {
    hide Verdict, Changes, Sorted, Dedup, Caused, Reasons;
    var reasons := Reasons(fp, record, reference, candidate, envelope);
    ReasonsListed(fp, record, reference, candidate, envelope, reason);
    SortedMembers(StrLeq, Dedup(reasons));
    DedupKeeps(reasons, reason);
  }

  lemma {:induction false} ReasonsListed(
      fp: Fingerprint, record: Record, reference: Snapshot, candidate: Snapshot, envelope: Envelope, reason: string)
    ensures reason in Reasons(fp, record, reference, candidate, envelope) <==>
      Caused(fp, record, reference, candidate, envelope,
             Verdict(fp, record, reference, candidate, envelope).1.HoldReviewRequired?, reason)
  {
    hide Verdict, VerifyReference, TrialsComplete, ReferenceFits, TrialsFit, Verified, Listed, RouteRegression,
         Snapshot.Intact;
    FactsVerify(record, reference, candidate);
    RouteByFacts(fp, reference, candidate, envelope);
  }

  lemma {:induction false} DedupKeeps(xs: seq<string>, x: string)
    ensures x in Dedup(xs) <==> x in xs
  {}

  lemma {:induction false} RouteByFacts(fp: Fingerprint, a: Snapshot, b: Snapshot, envelope: Envelope)
    ensures RouteRegression(fp, a, b, envelope) <==>
      && a.routes != b.routes
      && !Listed(fp, envelope, "route", "authorized_route_bindings", Routes(a.routes), Routes(b.routes))
  {}

  /** The deltas are the failed gates, the changed routes and the moved columns, ordered by domain,
      path and fingerprint. */
  lemma {:induction false} DeltasByFacts(
      fp: Fingerprint, record: Record, reference: Snapshot, candidate: Snapshot, envelope: Envelope, d: Delta)
    ensures var deltas := Assess(fp, record, reference, candidate, envelope).deltas;
      && (d in deltas <==>
            || (candidate.hardGates != []
                && d == Delta("hard_gate", "hard_gate_failures", Texts(reference.hardGates), Texts(candidate.hardGates),
                              fp("hard_gate", "hard_gate_failures", Texts(reference.hardGates),
                                 Texts(candidate.hardGates))))
            || (reference.routes != candidate.routes
                && d == Delta("route", "authorized_route_bindings", Routes(reference.routes), Routes(candidate.routes),
                              fp("route", "authorized_route_bindings", Routes(reference.routes),
                                 Routes(candidate.routes))))
            || exists f: SummaryField ::
                 var c := ColumnOf(reference.summary, candidate.summary, f); Moved(c) && d == ColumnDelta(fp, c))
      && (forall i, j | 0 <= i < j < |deltas| ::
            && StrLeq(deltas[i].domain, deltas[j].domain)
            && (deltas[i].domain == deltas[j].domain ==>
                  && StrLeq(deltas[i].path, deltas[j].path)
                  && (deltas[i].path == deltas[j].path ==> StrLeq(deltas[i].fingerprint, deltas[j].fingerprint))))
  {
    hide ColumnOf, FieldChanged, Moved, ColumnDelta, FieldDelta, Assess, StrLeq;
    DeltasAreTheDifferences(fp, record, reference, candidate, envelope, d);
    ColumnDeltas(fp, reference, candidate, d);
    var deltas := Assess(fp, record, reference, candidate, envelope).deltas;
    forall i, j | 0 <= i < j < |deltas|
      ensures StrLeq(deltas[i].domain, deltas[j].domain)
      ensures deltas[i].domain == deltas[j].domain ==>
        && StrLeq(deltas[i].path, deltas[j].path)
        && (deltas[i].path == deltas[j].path ==> StrLeq(deltas[i].fingerprint, deltas[j].fingerprint))
    {
      assert DeltaLeq(deltas[i], deltas[j]);
      OrderedTriple(deltas[i].domain, deltas[i].path, deltas[i].fingerprint,
                    deltas[j].domain, deltas[j].path, deltas[j].fingerprint);
    }
  }

  lemma {:induction false} ColumnDeltas(fp: Fingerprint, a: Snapshot, b: Snapshot, d: Delta)
    ensures (exists f: SummaryField :: FieldChanged(a, b, f) && d == FieldDelta(fp, a.summary, b.summary, f)) <==>
      exists f: SummaryField :: var c := ColumnOf(a.summary, b.summary, f); Moved(c) && d == ColumnDelta(fp, c)
  {
    hide ColumnOf, FieldChanged, Moved, ColumnDelta, FieldDelta, FieldAllowed, ColumnListed, SummaryField.IsDuration;
    forall f: SummaryField
      ensures FieldChanged(a, b, f) <==> Moved(ColumnOf(a.summary, b.summary, f))
      ensures FieldDelta(fp, a.summary, b.summary, f) == ColumnDelta(fp, ColumnOf(a.summary, b.summary, f))
    {
      FieldFacts(fp, a, b, None, f);
    }
  }

  /** Tuples of three texts are compared from the left. */
  lemma {:induction false} OrderedTriple(a: string, b: string, c: string, x: string, y: string, z: string)
    requires KeyLeq([a, b, c], [x, y, z])
    ensures StrLeq(a, x) && (a == x ==> StrLeq(b, y) && (b == y ==> StrLeq(c, z)))
  {
    hide StrLeq;
    StrOrder();
    assert [a, b, c][1..] == [b, c] && [x, y, z][1..] == [y, z];
    assert [b, c][1..] == [c] && [y, z][1..] == [z];
    assert a == x ==> Lex(StrLeq, [b, c], [y, z]);
    assert a == x && b == y ==> Lex(StrLeq, [c], [z]);
    assert [c][1..] == [] && [z][1..] == [];
  }
}
