/** The D139 comparator: the differences between a reference and a candidate snapshot, and the
    verdict drawn from them under an approved-change envelope. */
module Comparator {
  import opened GovernanceContracts
  import opened OperatingSummaries
  import opened OrderStatistics
  import opened Ordering
  import opened Results
  import opened Sequences

  // ---------------------------------------------------------------- summary fields

  datatype SummaryField =
    | TrialCount | CompletedCount | InsufficientCount | BlockedCount | FailedCount | UnavailableCount
    | TerminalStates | SafeFailures | InvocationCounts | DraftGenerationCounts | RevisionCounts
    | DurationMin | DurationMedian | DurationP95 | DurationMax
  {
    function Name(): string {
      match this
      case TrialCount => "trial_count"
      case CompletedCount => "completed_count"
      case InsufficientCount => "insufficient_count"
      case BlockedCount => "blocked_count"
      case FailedCount => "failed_count"
      case UnavailableCount => "unavailable_count"
      case TerminalStates => "terminal_state_distribution"
      case SafeFailures => "safe_failure_distribution"
      case InvocationCounts => "invocation_counts"
      case DraftGenerationCounts => "draft_generation_counts"
      case RevisionCounts => "revision_counts"
      case DurationMin => "duration_min_ms"
      case DurationMedian => "duration_median_ms"
      case DurationP95 => "duration_p95_ms"
      case DurationMax => "duration_max_ms"
    }

    function Path(): string { "operating_summary." + Name() }

    predicate IsDuration() { DurationMin? || DurationMedian? || DurationP95? || DurationMax? }
  }

  const FIELDS: seq<SummaryField> := [
    TrialCount, CompletedCount, InsufficientCount, BlockedCount, FailedCount, UnavailableCount,
    TerminalStates, SafeFailures, InvocationCounts, DraftGenerationCounts, RevisionCounts,
    DurationMin, DurationMedian, DurationP95, DurationMax]

  /** A value a delta can hold. */
  datatype Value =
    | Whole(n: int)
    | MaybeWhole(whole: Option<int>)
    | MaybeMedian(median: Option<MedianValue>)
    | Pairs(pairs: seq<(string, int)>)
    | Wholes(wholes: seq<int>)
    | Texts(texts: seq<string>)
    | Routes(routes: seq<RouteIdentity>)

  /** `getattr(summary, field.name)` */
  function FieldValue(s: Summary, f: SummaryField): Value {
    match f
    case TrialCount => Whole(s.trialCount)
    case CompletedCount => Whole(s.completedCount)
    case InsufficientCount => Whole(s.insufficientCount)
    case BlockedCount => Whole(s.blockedCount)
    case FailedCount => Whole(s.failedCount)
    case UnavailableCount => Whole(s.unavailableCount)
    case TerminalStates => Pairs(s.terminalStates)
    case SafeFailures => Pairs(s.safeFailures)
    case InvocationCounts => Wholes(s.invocationCounts)
    case DraftGenerationCounts => Wholes(s.draftGenerationCounts)
    case RevisionCounts => Wholes(s.revisionCounts)
    case DurationMin => MaybeWhole(s.durationMin)
    case DurationMedian => MaybeMedian(s.durationMedian)
    case DurationP95 => MaybeWhole(s.durationP95)
    case DurationMax => MaybeWhole(s.durationMax)
  }

  /** `==` on two values of a field */
  predicate SameField(v: Value, w: Value) {
    if v.MaybeMedian? && w.MaybeMedian? then SameMedian(v.median, w.median) else v == w
  }

  // ---------------------------------------------------------------- deltas

  datatype Delta = Delta(domain: string, path: string, before: Value, after: Value, fingerprint: string)

  /** `delta_fingerprint`, the digest of a delta's four parts. */
  type Fingerprint = (string, string, Value, Value) -> string

  function NewDelta(fp: Fingerprint, domain: string, path: string, before: Value, after: Value): Delta {
    Delta(domain, path, before, after, fp(domain, path, before, after))
  }

  /** The fingerprints an approved change allows; None without an envelope. */
  type Envelope = Option<seq<string>>

  predicate Allowed(d: Delta, envelope: Envelope) { envelope.Some? && d.fingerprint in envelope.value }

  function GateDelta(fp: Fingerprint, reference: Snapshot, candidate: Snapshot): Delta {
    NewDelta(fp, "hard_gate", "hard_gate_failures", Texts(reference.hardGates), Texts(candidate.hardGates))
  }

  function RouteDelta(fp: Fingerprint, reference: Snapshot, candidate: Snapshot): Delta {
    NewDelta(fp, "route", "authorized_route_bindings", Routes(reference.routes), Routes(candidate.routes))
  }

  function FieldDelta(fp: Fingerprint, reference: Summary, candidate: Summary, f: SummaryField): Delta {
    NewDelta(fp, "operating", f.Path(), FieldValue(reference, f), FieldValue(candidate, f))
  }

  predicate Differs(reference: Summary, candidate: Summary, f: SummaryField) {
    !SameField(FieldValue(reference, f), FieldValue(candidate, f))
  }

  function FieldDeltas(fp: Fingerprint, reference: Summary, candidate: Summary, fields: seq<SummaryField>): seq<Delta> {
    Collect(DeltaAt(fp, reference, candidate), fields)
  }

  function DeltaAt(fp: Fingerprint, reference: Summary, candidate: Summary): SummaryField -> seq<Delta> {
    (f: SummaryField) => if Differs(reference, candidate, f) then [FieldDelta(fp, reference, candidate, f)] else []
  }

  /** `_operating_deltas` over the dataclass fields. */
  method OperatingDeltas(fp: Fingerprint, reference: Summary, candidate: Summary, fields: seq<SummaryField>)
    returns (result: seq<Delta>)
    ensures result == FieldDeltas(fp, reference, candidate, fields)
  {
    result := [];
    for i := 0 to |fields|
      invariant result == FieldDeltas(fp, reference, candidate, fields[..i])
    {
      var f := fields[i];
      TakeOneMore(fields, i);
      CollectSnoc(DeltaAt(fp, reference, candidate), fields[..i], f);
      var before, after := FieldValue(reference, f), FieldValue(candidate, f);
      if !SameField(before, after) {
        result := result + [NewDelta(fp, "operating", f.Path(), before, after)];
      }
    }
    assert fields[..|fields|] == fields;
  }

  predicate DeltaLeq(a: Delta, b: Delta) {
    KeyLeq([a.domain, a.path, a.fingerprint], [b.domain, b.path, b.fingerprint])
  }

  // ---------------------------------------------------------------- the assessment

  datatype DriftClass = Identical | AcceptableVariation | ExpectedChange | Regression

  datatype CandidateStatus = PassReadyForOwnerReview | HoldReviewRequired | RejectRegression

  datatype Assessment = Assessment(
    referenceBaselineId: string,
    candidateCommit: string,
    referenceVerified: bool,
    candidateVerified: bool,
    identityVerified: bool,
    trialsComplete: bool,
    routePass: bool,
    hardGatePass: bool,
    drift: DriftClass,
    status: CandidateStatus,
    deltas: seq<Delta>,
    reasons: seq<string>)

  /** `verify_reference` */
  predicate VerifyReference(record: Record, s: Snapshot) {
    && s.Intact()
    && s.anchors == record.anchors
    && s.observationCount == record.observationCount
    && s.measurement == record.measurement
    && s.routes == record.routes
  }

  predicate TrialsComplete(record: Record, reference: Snapshot, candidate: Snapshot) {
    && candidate.observationCount == record.observationCount
    && candidate.taskKindCounts == reference.taskKindCounts
    && Sum(Counts(candidate.taskKindCounts)) == record.observationCount
  }

  /** The four verifications that do not depend on the differences. */
  predicate Verified(record: Record, reference: Snapshot, candidate: Snapshot) {
    && VerifyReference(record, reference)
    && candidate.Intact()
    && reference.measurement == candidate.measurement
    && TrialsComplete(record, reference, candidate)
  }

  /** `path.split(".")[-1]` */
  function LastSegment(path: string): string {
    if '.' in path then LastSegment(path[1..]) else path
  }

  predicate IsDurationPath(path: string) {
    var field := LastSegment(path);
    field == "duration_min_ms" || field == "duration_median_ms" || field == "duration_p95_ms" ||
        field == "duration_max_ms"
  }

  predicate AllDurations(deltas: seq<Delta>) { forall d | d in deltas :: IsDurationPath(d.path) }

  function IsAllowed(envelope: Envelope): Delta -> bool { (d: Delta) => Allowed(d, envelope) }

  function IsUnexpected(envelope: Envelope): Delta -> bool { (d: Delta) => !Allowed(d, envelope) }

  // ---------------------------------------------------------------- what the verdict means

  predicate RoutesChanged(reference: Snapshot, candidate: Snapshot) { reference.routes != candidate.routes }

  /** The routes changed and the change is not approved. */
  predicate RouteRegression(fp: Fingerprint, reference: Snapshot, candidate: Snapshot, envelope: Envelope) {
    RoutesChanged(reference, candidate) && !Allowed(RouteDelta(fp, reference, candidate), envelope)
  }

  predicate FieldAllowed(
      fp: Fingerprint, reference: Snapshot, candidate: Snapshot, envelope: Envelope, f: SummaryField) {
    Allowed(FieldDelta(fp, reference.summary, candidate.summary, f), envelope)
  }

  predicate FieldChanged(reference: Snapshot, candidate: Snapshot, f: SummaryField) {
    Differs(reference.summary, candidate.summary, f)
  }

  predicate NothingChanged(reference: Snapshot, candidate: Snapshot) {
    && !RoutesChanged(reference, candidate)
    && forall f: SummaryField :: !FieldChanged(reference, candidate, f)
  }

  /** Every operating change is approved. */
  predicate AllApproved(fp: Fingerprint, reference: Snapshot, candidate: Snapshot, envelope: Envelope) {
    forall f: SummaryField | FieldChanged(reference, candidate, f) ::
        FieldAllowed(fp, reference, candidate, envelope, f)
  }

  /** Only durations changed, and no change is approved. */
  predicate OnlyTiming(fp: Fingerprint, reference: Snapshot, candidate: Snapshot, envelope: Envelope) {
    && !RoutesChanged(reference, candidate)
    && forall f: SummaryField | FieldChanged(reference, candidate, f) ::
         f.IsDuration() && !FieldAllowed(fp, reference, candidate, envelope, f)
  }

  function Verdict(fp: Fingerprint, record: Record, reference: Snapshot, candidate: Snapshot, envelope: Envelope)
    : (DriftClass, CandidateStatus)
  {
    if candidate.hardGates != [] ||
        RouteRegression(fp, reference, candidate, envelope) then (Regression, RejectRegression)
    else if !Verified(record, reference, candidate) then (Regression, HoldReviewRequired)
    else if NothingChanged(reference, candidate) then (Identical, PassReadyForOwnerReview)
    else if AllApproved(fp, reference, candidate, envelope) then (ExpectedChange, PassReadyForOwnerReview)
    else if OnlyTiming(fp, reference, candidate, envelope) then (AcceptableVariation, PassReadyForOwnerReview)
    else (Regression, HoldReviewRequired)
  }

  function When<A>(condition: bool, x: A): seq<A> { if condition then [x] else [] }

  function Changes(fp: Fingerprint, reference: Snapshot, candidate: Snapshot): seq<Delta> {
    When(candidate.hardGates != [], GateDelta(fp, reference, candidate))
    + When(RoutesChanged(reference, candidate), RouteDelta(fp, reference, candidate))
    + FieldDeltas(fp, reference.summary, candidate.summary, FIELDS)
  }

  function Reasons(
      fp: Fingerprint, record: Record, reference: Snapshot, candidate: Snapshot,
      envelope: Envelope): seq<string> {
    When(!VerifyReference(record, reference), "reference_verification_failed")
    + When(!candidate.Intact(), "candidate_evidence_verification_failed")
    + When(reference.measurement != candidate.measurement, "measurement_identity_mismatch")
    + When(!TrialsComplete(record, reference, candidate), "trial_completeness_failed")
    + When(candidate.hardGates != [], "hard_gate_regression")
    + When(RouteRegression(fp, reference, candidate, envelope), "route_regression")
    + When(Verified(record, reference, candidate) &&
        Verdict(fp, record, reference, candidate, envelope).1.HoldReviewRequired?,
           "operating_delta_requires_review")
  }

  function Assess(
      fp: Fingerprint, record: Record, reference: Snapshot, candidate: Snapshot,
      envelope: Envelope): Assessment {
    var verdict := Verdict(fp, record, reference, candidate, envelope);
    Assessment(
      record.anchors.baselineId, candidate.anchors.measurementCommit,
      VerifyReference(record, reference), candidate.Intact(), reference.measurement == candidate.measurement,
      TrialsComplete(record, reference, candidate), !RouteRegression(fp, reference, candidate, envelope),
          candidate.hardGates == [],
      verdict.0, verdict.1,
      Sorted(DeltaLeq, Changes(fp, reference, candidate)),
      Sorted(StrLeq, Dedup(Reasons(fp, record, reference, candidate, envelope))))
  }

  // ---------------------------------------------------------------- deltas and fields

  lemma {:induction false} EveryFieldListed(f: SummaryField)
    ensures f in FIELDS
  {
    var i := match f
      case TrialCount => 0 case CompletedCount => 1 case InsufficientCount => 2 case BlockedCount => 3
      case FailedCount => 4 case UnavailableCount => 5 case TerminalStates => 6 case SafeFailures => 7
      case InvocationCounts => 8 case DraftGenerationCounts => 9 case RevisionCounts => 10
      case DurationMin => 11 case DurationMedian => 12 case DurationP95 => 13 case DurationMax => 14;
    assert FIELDS[i] == f;
  }

  lemma {:induction false} FieldDeltaMember(fp: Fingerprint, reference: Summary, candidate: Summary, d: Delta)
    ensures d in FieldDeltas(fp, reference, candidate, FIELDS) <==>
              exists f: SummaryField :: Differs(reference, candidate, f) && d == FieldDelta(fp, reference, candidate, f)
  {
    FieldDeltaIn(fp, reference, candidate, FIELDS, d);
    forall f: SummaryField ensures f in FIELDS { EveryFieldListed(f); }
  }

  lemma {:induction false} FieldDeltaIn(
      fp: Fingerprint, reference: Summary, candidate: Summary, fields: seq<SummaryField>, d: Delta)
    ensures d in FieldDeltas(fp, reference, candidate, fields) <==>
              exists f: SummaryField ::
                  f in fields && Differs(reference, candidate, f) && d == FieldDelta(fp, reference, candidate, f)
  {
    hide Differs, FieldDelta;
    var at := DeltaAt(fp, reference, candidate);
    CollectMember(at, fields, d);
    if d in FieldDeltas(fp, reference, candidate, fields) {
      var i :| 0 <= i < |fields| && d in at(fields[i]);
      assert fields[i] in fields;
    }
    if f: SummaryField :|
        f in fields && Differs(reference, candidate, f) &&
        d == FieldDelta(fp, reference, candidate, f) {
      var i :| 0 <= i < |fields| && fields[i] == f;
      assert d in at(fields[i]);
    }
  }

  lemma {:induction false} LastOfPath(front: string, name: string)
    requires '.' !in name && forall i | 0 <= i < |front| - 1 :: front[i] != '.'
    requires front != "" && front[|front| - 1] == '.'
    ensures LastSegment(front + name) == name
  {
    var path := front + name;
    assert path[|front| - 1] == '.';
    assert path[1..] == front[1..] + name;
    if |front| > 1 {
      LastOfPath(front[1..], name);
    } else {
      assert path[1..] == name;
    }
  }

  lemma {:induction false} DurationPaths(f: SummaryField)
    ensures IsDurationPath(f.Path()) == f.IsDuration()
  {
    hide LastSegment;
    NoDotInName(f);
    PathPrefix();
    LastOfPath("operating_summary.", f.Name());
    DurationNames(f);
  }

  lemma {:induction false} NoDotInName(f: SummaryField)
    ensures '.' !in f.Name()
  {
    if f.IsDuration() {
      NoDotInDurationName(f);
    } else if f.TerminalStates? || f.SafeFailures? || f.InvocationCounts? || f.DraftGenerationCounts? ||
        f.RevisionCounts? {
      NoDotInListName(f);
    } else {
      NoDotInCountName(f);
    }
  }

  lemma {:induction false} NoDotInDurationName(f: SummaryField)
    requires f.IsDuration()
    ensures '.' !in f.Name()
  {}

  lemma {:induction false} NoDotInListName(f: SummaryField)
    requires f.TerminalStates? || f.SafeFailures? || f.InvocationCounts? || f.DraftGenerationCounts? ||
        f.RevisionCounts?
    ensures '.' !in f.Name()
  {}

  lemma {:induction false} NoDotInCountName(f: SummaryField)
    requires f.TrialCount? || f.CompletedCount? || f.InsufficientCount? || f.BlockedCount? || f.FailedCount? ||
        f.UnavailableCount?
    ensures '.' !in f.Name()
  {}

  lemma {:induction false} PathPrefix()
    ensures var front := "operating_summary.";
      front[|front| - 1] == '.' && forall i | 0 <= i < |front| - 1 :: front[i] != '.'
  {}

  lemma {:induction false} DurationNames(f: SummaryField)
    ensures f.IsDuration() <==>
      var name := f.Name();
      name == "duration_min_ms" || name == "duration_median_ms" || name == "duration_p95_ms" ||
          name == "duration_max_ms"
  {}

  lemma {:induction false} FieldOfDelta(
      fp: Fingerprint, reference: Summary, candidate: Summary, d: Delta) returns (f: SummaryField)
    requires d in FieldDeltas(fp, reference, candidate, FIELDS)
    ensures Differs(reference, candidate, f) && d == FieldDelta(fp, reference, candidate, f)
  {
    hide Differs, FieldDelta, FieldDeltas;
    FieldDeltaMember(fp, reference, candidate, d);
    f :| Differs(reference, candidate, f) && d == FieldDelta(fp, reference, candidate, f);
  }

  lemma {:induction false} DeltaOfField(fp: Fingerprint, reference: Summary, candidate: Summary, f: SummaryField)
    requires Differs(reference, candidate, f)
    ensures FieldDelta(fp, reference, candidate, f) in FieldDeltas(fp, reference, candidate, FIELDS)
  {
    hide Differs, FieldDelta, FieldDeltas;
    FieldDeltaMember(fp, reference, candidate, FieldDelta(fp, reference, candidate, f));
  }

  // What the filtered lists of the code say about the fields.

  lemma {:induction false} NoOperatingDeltas(fp: Fingerprint, reference: Snapshot, candidate: Snapshot)
    ensures FieldDeltas(fp, reference.summary, candidate.summary, FIELDS) == [] <==>
            forall f: SummaryField :: !FieldChanged(reference, candidate, f)
  {
    hide Differs, FieldDelta, FieldDeltas;
    var all := FieldDeltas(fp, reference.summary, candidate.summary, FIELDS);
    if all != [] {
      var f := FieldOfDelta(fp, reference.summary, candidate.summary, all[0]);
      assert FieldChanged(reference, candidate, f);
    }
    if f: SummaryField :| FieldChanged(reference, candidate, f) {
      DeltaOfField(fp, reference.summary, candidate.summary, f);
    }
  }

  lemma {:induction false} NoUnexpectedDeltas(
      fp: Fingerprint, reference: Snapshot, candidate: Snapshot, envelope: Envelope)
    ensures Filter(IsUnexpected(envelope), FieldDeltas(fp, reference.summary, candidate.summary, FIELDS)) == [] <==>
            AllApproved(fp, reference, candidate, envelope)
  {
    hide Differs, FieldDelta, FieldDeltas, Allowed, Filter;
    var all := FieldDeltas(fp, reference.summary, candidate.summary, FIELDS);
    var unexpected := Filter(IsUnexpected(envelope), all);
    if unexpected != [] {
      FilterMember(IsUnexpected(envelope), all, unexpected[0]);
      var f := FieldOfDelta(fp, reference.summary, candidate.summary, unexpected[0]);
      assert FieldChanged(reference, candidate, f) && !FieldAllowed(fp, reference, candidate, envelope, f);
    }
    if f: SummaryField :|
        FieldChanged(reference, candidate, f) &&
        !FieldAllowed(fp, reference, candidate, envelope, f) {
      DeltaOfField(fp, reference.summary, candidate.summary, f);
      FilterMember(IsUnexpected(envelope), all, FieldDelta(fp, reference.summary, candidate.summary, f));
    }
  }

  lemma {:induction false} NoAllowedDeltas(
      fp: Fingerprint, reference: Snapshot, candidate: Snapshot, envelope: Envelope)
    ensures Filter(IsAllowed(envelope), FieldDeltas(fp, reference.summary, candidate.summary, FIELDS)) == [] <==>
            forall f: SummaryField | FieldChanged(reference, candidate, f) ::
                !FieldAllowed(fp, reference, candidate, envelope, f)
  {
    hide Differs, FieldDelta, FieldDeltas, Allowed, Filter;
    var all := FieldDeltas(fp, reference.summary, candidate.summary, FIELDS);
    var allowed := Filter(IsAllowed(envelope), all);
    if allowed != [] {
      FilterMember(IsAllowed(envelope), all, allowed[0]);
      var f := FieldOfDelta(fp, reference.summary, candidate.summary, allowed[0]);
      assert FieldChanged(reference, candidate, f) && FieldAllowed(fp, reference, candidate, envelope, f);
    }
    if f: SummaryField :| FieldChanged(reference, candidate, f) && FieldAllowed(fp, reference, candidate, envelope, f) {
      DeltaOfField(fp, reference.summary, candidate.summary, f);
      FilterMember(IsAllowed(envelope), all, FieldDelta(fp, reference.summary, candidate.summary, f));
    }
  }

  lemma {:induction false} UnexpectedDurations(
      fp: Fingerprint, reference: Snapshot, candidate: Snapshot, envelope: Envelope)
    ensures AllDurations(Filter(IsUnexpected(envelope),
        FieldDeltas(fp, reference.summary, candidate.summary, FIELDS))) <==>
            forall f: SummaryField | FieldChanged(reference, candidate, f) &&
                !FieldAllowed(fp, reference, candidate, envelope, f) ::
              f.IsDuration()
  {
    hide Differs, FieldDeltas, Allowed, Filter, IsDurationPath;
    var all := FieldDeltas(fp, reference.summary, candidate.summary, FIELDS);
    var unexpected := Filter(IsUnexpected(envelope), all);
    forall d | d in unexpected && !IsDurationPath(d.path)
      ensures exists f: SummaryField ::
          FieldChanged(reference, candidate, f) && !FieldAllowed(fp, reference, candidate, envelope, f) &&
          !f.IsDuration()
    {
      FilterMember(IsUnexpected(envelope), all, d);
      var f := FieldOfDelta(fp, reference.summary, candidate.summary, d);
      DurationPaths(f);
      assert FieldChanged(reference, candidate, f) && !FieldAllowed(fp, reference, candidate, envelope, f) &&
          !f.IsDuration();
    }
    forall f: SummaryField | FieldChanged(reference, candidate, f) &&
        !FieldAllowed(fp, reference, candidate, envelope, f) && !f.IsDuration()
      ensures !AllDurations(unexpected)
    {
      var d := FieldDelta(fp, reference.summary, candidate.summary, f);
      DeltaOfField(fp, reference.summary, candidate.summary, f);
      FilterMember(IsUnexpected(envelope), all, d);
      DurationPaths(f);
      assert d in unexpected && !IsDurationPath(d.path);
    }
  }

  /** `assess_candidate` */
  method AssessCandidate(fp: Fingerprint, record: Record, reference: Snapshot, candidate: Snapshot, envelope: Envelope)
    returns (r: Assessment)
    ensures r == Assess(fp, record, reference, candidate, envelope)
  {
    hide VerifyReference, Snapshot.Intact, TrialsComplete, Verdict, GateDelta, RouteDelta, FieldDeltas,
         RouteRegression, Sorted, Dedup;
    var referenceVerified := VerifyReference(record, reference);
    var candidateVerified := candidate.Intact();
    var identityVerified := reference.measurement == candidate.measurement;
    var trialsComplete := TrialsComplete(record, reference, candidate);
    var reasons := When(!referenceVerified, "reference_verification_failed");
    reasons := reasons + When(!candidateVerified, "candidate_evidence_verification_failed");
    reasons := reasons + When(!identityVerified, "measurement_identity_mismatch");
    reasons := reasons + When(!trialsComplete, "trial_completeness_failed");

    var hardGatePass := candidate.hardGates == [];
    reasons := reasons + When(!hardGatePass, "hard_gate_regression");
    var deltas := When(!hardGatePass, GateDelta(fp, reference, candidate));

    var routeDeltas := When(RoutesChanged(reference, candidate), RouteDelta(fp, reference, candidate));
    deltas := deltas + routeDeltas;
    var unexpectedRoute := Filter(IsUnexpected(envelope), routeDeltas);
    var routePass := unexpectedRoute == [];
    UnexpectedRoute(fp, reference, candidate, envelope);
    reasons := reasons + When(!routePass, "route_regression");

    var operatingDeltas := OperatingDeltas(fp, reference.summary, candidate.summary, FIELDS);
    deltas := deltas + operatingDeltas;
    var verified := referenceVerified && candidateVerified && identityVerified && trialsComplete;
    var drift, status := Decide(fp, record, reference, candidate, envelope, hardGatePass, routePass, verified,
        routeDeltas, operatingDeltas);
    reasons := reasons + When(verified && status.HoldReviewRequired?, "operating_delta_requires_review");
    r := Assessment(record.anchors.baselineId, candidate.anchors.measurementCommit,
                    referenceVerified, candidateVerified, identityVerified, trialsComplete, routePass, hardGatePass,
                    drift, status, Sorted(DeltaLeq, deltas), Sorted(StrLeq, Dedup(reasons)));
  }

  lemma {:induction false} UnexpectedRoute(
      fp: Fingerprint, reference: Snapshot, candidate: Snapshot, envelope: Envelope)
    ensures Filter(IsUnexpected(envelope),
        When(RoutesChanged(reference, candidate), RouteDelta(fp, reference, candidate))) == []
            <==> !RouteRegression(fp, reference, candidate, envelope)
  {
    var d := RouteDelta(fp, reference, candidate);
    FilterSnoc(IsUnexpected(envelope), [], d);
    assert [] + [d] == [d];
  }

  lemma {:induction false} AllowedRoute(fp: Fingerprint, reference: Snapshot, candidate: Snapshot, envelope: Envelope)
    ensures Filter(IsAllowed(envelope),
        When(RoutesChanged(reference, candidate), RouteDelta(fp, reference, candidate))) == []
            <==> !RoutesChanged(reference, candidate) || !Allowed(RouteDelta(fp, reference, candidate), envelope)
  {
    var d := RouteDelta(fp, reference, candidate);
    FilterSnoc(IsAllowed(envelope), [], d);
    assert [] + [d] == [d];
  }

  /** Its branches: the drift class and status from the lists of deltas. */
  method Decide(
    fp: Fingerprint, ghost record: Record, ghost reference: Snapshot, ghost candidate: Snapshot, envelope: Envelope,
    hardGatePass: bool, routePass: bool, verified: bool, routeDeltas: seq<Delta>, operatingDeltas: seq<Delta>)
    returns (drift: DriftClass, status: CandidateStatus)
    requires hardGatePass == (candidate.hardGates == [])
    requires routePass == !RouteRegression(fp, reference, candidate, envelope)
    requires verified == Verified(record, reference, candidate)
    requires routeDeltas == When(RoutesChanged(reference, candidate), RouteDelta(fp, reference, candidate))
    requires operatingDeltas == FieldDeltas(fp, reference.summary, candidate.summary, FIELDS)
    ensures (drift, status) == Verdict(fp, record, reference, candidate, envelope)
  {
    hide Verified, FieldDeltas, RouteDelta, AllDurations, Allowed, FieldAllowed, FieldChanged, Filter;
    drift, status := Regression, HoldReviewRequired;
    if !hardGatePass || !routePass {
      status := RejectRegression;
    } else if verified {
      var deltas := routeDeltas + operatingDeltas;
      var unexpectedOperating := Filter(IsUnexpected(envelope), operatingDeltas);
      var allowedDeltas := Filter(IsAllowed(envelope), deltas);
      NoOperatingDeltas(fp, reference, candidate);
      NoUnexpectedDeltas(fp, reference, candidate, envelope);
      NoAllowedDeltas(fp, reference, candidate, envelope);
      UnexpectedDurations(fp, reference, candidate, envelope);
      AllowedRoute(fp, reference, candidate, envelope);
      FilterAppend(IsAllowed(envelope), routeDeltas, operatingDeltas);
      if deltas == [] {
        drift, status := Identical, PassReadyForOwnerReview;
      } else if unexpectedOperating == [] && allowedDeltas != [] {
        drift, status := ExpectedChange, PassReadyForOwnerReview;
      } else {
        var durationOnly := unexpectedOperating != [] && AllDurations(unexpectedOperating);
        if durationOnly && routeDeltas == [] && allowedDeltas == [] {
          drift, status := AcceptableVariation, PassReadyForOwnerReview;
        }
      }
    }
  }
}
