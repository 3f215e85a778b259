/** The D138 benchmark contracts: identifiers, cases, trial observations and route
    bindings, with the checks their constructors make. */
module BenchmarkContracts {
  import opened CanonicalJson
  import opened Ordering
  import opened Results
  import opened Sequences

  const OFFICIAL_CASES: nat := 48
  const OFFICIAL_TRIALS: nat := 144
  const TASK_KIND_CASES: nat := 24
  const TASK_KIND_TRIALS: nat := 72
  const TRIALS_PER_CASE: nat := 3
  const MAX_DURATION_MS := 3_600_000

  datatype TaskKind = GeneralChat | SoftwareEngineering {
    function Value(): string {
      if GeneralChat? then "general_chat" else "software_engineering"
    }
  }

  const TASK_KINDS: seq<TaskKind> := [GeneralChat, SoftwareEngineering]

  lemma {:induction false} TaskKindValues(a: TaskKind, b: TaskKind)
    ensures a.Value() == b.Value() <==> a == b
  {
    assert |GeneralChat.Value()| == 12 && |SoftwareEngineering.Value()| == 20;
  }

  datatype Split = Development | Evaluation

  datatype RouteStatus = Completed | Insufficient | Blocked | Failed | Unavailable {
    function Value(): string {
      match this
      case Completed => "completed"
      case Insufficient => "insufficient"
      case Blocked => "blocked"
      case Failed => "failed"
      case Unavailable => "unavailable"
    }
  }

  datatype Dimension =
    | ContextFidelity | ContextIsolation | TaskUnderstanding | ReasoningQuality
    | PredictionQuality | PlanningQuality | DecisionQuality | Metacognition
    | CriticEffectiveness | PublicationSafety | ModelCapability | EfficiencyReliability

  const DIMENSIONS: seq<Dimension> := [
    ContextFidelity, ContextIsolation, TaskUnderstanding, ReasoningQuality,
    PredictionQuality, PlanningQuality, DecisionQuality, Metacognition,
    CriticEffectiveness, PublicationSafety, ModelCapability, EfficiencyReliability]

  // ---------------------------------------------------------------- text formats

  predicate IsLower(c: char) { 'a' <= c <= 'z' }

  predicate IsNumeral(c: char) { '0' <= c <= '9' }

  predicate IsAlphanumeric(c: char) { IsLower(c) || 'A' <= c <= 'Z' || IsNumeral(c) }

  /** `[A-Za-z0-9][A-Za-z0-9_.:-]*`, at most `limit` characters. */
  predicate IsIdentifier(s: string, limit: nat) {
    && 1 <= |s| <= limit && IsAlphanumeric(s[0])
    && forall i | 0 <= i < |s| ::
         IsAlphanumeric(s[i]) || s[i] == '_' || s[i] == '.' || s[i] == ':' || s[i] == '-'
  }

  /** The D138 identifier format. */
  predicate IsId(s: string) { IsIdentifier(s, 128) }

  predicate IsOptionalId(s: Option<string>) { s.Some? ==> IsId(s.value) }

  /** `[a-z][a-z0-9_]*`, at most 96 characters. */
  predicate IsPropertyName(s: string) {
    && 1 <= |s| <= 96 && IsLower(s[0])
    && forall i | 0 <= i < |s| :: IsLower(s[i]) || IsNumeral(s[i]) || s[i] == '_'
  }

  predicate IsDigest(s: string) {
    |s| == 64 && forall i | 0 <= i < |s| :: IsNumeral(s[i]) || 'a' <= s[i] <= 'f'
  }

  const LOWER := "abcdefghijklmnopqrstuvwxyz"
  const UPPER := "ABCDEFGHIJKLMNOPQRSTUVWXYZ"
  const NUMERALS := "0123456789"

  lemma {:induction false} LowerListed(c: char)
    ensures IsLower(c) <==> c in LOWER
  {
    if IsLower(c) { assert LOWER[c as int - 'a' as int] == c; }
  }

  lemma {:induction false} UpperListed(c: char)
    ensures 'A' <= c <= 'Z' <==> c in UPPER
  {
    if 'A' <= c <= 'Z' { assert UPPER[c as int - 'A' as int] == c; }
  }

  lemma {:induction false} NumeralListed(c: char)
    ensures IsNumeral(c) <==> c in NUMERALS
  {
    if IsNumeral(c) { assert NUMERALS[c as int - '0' as int] == c; }
  }

  lemma {:induction false} HexListed(c: char)
    ensures IsNumeral(c) || 'a' <= c <= 'f' <==> c in "0123456789abcdef"
  {
    if IsNumeral(c) { assert "0123456789abcdef"[c as int - '0' as int] == c; }
    if 'a' <= c <= 'f' { assert "0123456789abcdef"[c as int - 'a' as int + 10] == c; }
  }

  /** The formats, character by character. */
  lemma {:induction false} IdentifierSpelled(s: string, limit: nat)
    ensures IsIdentifier(s, limit) <==>
      && s != "" && |s| <= limit && s[0] in LOWER + UPPER + NUMERALS
      && forall c | c in s :: c in LOWER + UPPER + NUMERALS + "_.:-"
    ensures IsId(s) <==> IsIdentifier(s, 128)
  {
    forall c: char ensures IsAlphanumeric(c) <==> c in LOWER + UPPER + NUMERALS {
      LowerListed(c);
      UpperListed(c);
      NumeralListed(c);
    }
    hide IsAlphanumeric, LOWER, UPPER, NUMERALS;
    forall c: char
      ensures c in LOWER + UPPER + NUMERALS + "_.:-" <==>
        c in LOWER + UPPER + NUMERALS || c == '_' || c == '.' || c == ':' || c == '-'
    {
      assert c in "_.:-" <==> c == '_' || c == '.' || c == ':' || c == '-';
    }
    if IsIdentifier(s, limit) {
      forall c | c in s ensures c in LOWER + UPPER + NUMERALS + "_.:-" {
        var i :| 0 <= i < |s| && s[i] == c;
      }
    }
  }

  lemma {:induction false} PropertyNameSpelled(s: string)
    ensures IsPropertyName(s) <==>
      && s != "" && |s| <= 96 && s[0] in LOWER && forall c | c in s :: c in LOWER + NUMERALS + "_"
  {
    forall c: char ensures (IsLower(c) <==> c in LOWER) && (IsNumeral(c) <==> c in NUMERALS) {
      LowerListed(c);
      NumeralListed(c);
    }
    hide IsLower, IsNumeral, LOWER, NUMERALS;
    forall c: char ensures c in LOWER + NUMERALS + "_" <==> c in LOWER || c in NUMERALS || c == '_' {
      assert c in "_" <==> c == '_';
    }
    if IsPropertyName(s) {
      forall c | c in s ensures c in LOWER + NUMERALS + "_" { var i :| 0 <= i < |s| && s[i] == c; }
    }
  }

  lemma {:induction false} DigestSpelled(s: string)
    ensures IsDigest(s) <==> |s| == 64 && forall c | c in s :: c in "0123456789abcdef"
  {
    forall i | 0 <= i < |s| ensures IsNumeral(s[i]) || 'a' <= s[i] <= 'f' <==> s[i] in "0123456789abcdef" {
      HexListed(s[i]);
    }
    forall c | c in s ensures exists i :: 0 <= i < |s| && s[i] == c {}
  }

  // ---------------------------------------------------------------- cases

  datatype Case = Case(
    caseId: string,
    split: Split,
    primaryDimension: Dimension,
    taskKind: TaskKind,
    fixture: seq<(string, string)>,
    ownerRequest: string,
    required: seq<string>,
    forbidden: seq<string>,
    liveEligible: bool,
    trialPolicy: string)
  {
    /** What the constructor guarantees. */
    ghost predicate Valid() {
      && IsId(caseId)
      && 1 <= |required| <= 32 && 1 <= |forbidden| <= 32
      && (forall p | p in required :: IsPropertyName(p))
      && (forall p | p in forbidden :: IsPropertyName(p))
      && ProperlySplit()
      && (split.Evaluation? ==> liveEligible && trialPolicy == "live_3")
      && (split.Development? ==> !liveEligible && trialPolicy == "deterministic")
    }

    /** No property is listed twice or on both sides. */
    ghost predicate ProperlySplit() {
      && Distinct(required) && Distinct(forbidden)
      && forall p | p in required :: p !in forbidden
    }

    /** The observable properties a trial of this case is scored on. */
    function Properties(): seq<string> { required + forbidden }

    function PropertySet(): set<string> { NameSet(required) + NameSet(forbidden) }
  }

  // ---------------------------------------------------------------- observations

  datatype Observation = Observation(
    caseId: string,
    trialId: string,
    taskKind: TaskKind,
    routeStatus: RouteStatus,
    adapterId: Option<string>,
    modelId: Option<string>,
    profileId: Option<string>,
    bindingReference: Option<string>,
    terminalState: string,
    publicationDisposition: Option<string>,
    safeFailureClass: Option<string>,
    contextSnapshotDigest: Option<string>,
    propertyResults: seq<(string, bool)>,
    hardGateFailures: seq<string>,
    invocationCount: int,
    draftGenerationCount: int,
    revisionCount: int,
    durationMs: int,
    verifiedContextTokens: Option<int>,
    taskFit: Option<string>,
    reasoningSupport: Option<string>,
    structuredOutputSupport: Option<string>)

  predicate IsSupport(s: Option<string>) {
    s.None? || s.value == "supported" || s.value == "limited" || s.value == "unsupported"
  }

  predicate PropertyLeq(a: (string, bool), b: (string, bool)) {
    if a.0 == b.0 then !a.1 || b.1 else StrLeq(a.0, b.0)
  }

  function NameOf(r: (string, bool)): string { r.0 }

  function NameSet(names: seq<string>): set<string> { set n | n in names }

  /** Property names without repeats. */
  predicate NamesFormatted(names: seq<string>) {
    && |NameSet(names)| == |names|
    && forall n | n in names :: IsPropertyName(n)
  }

  /** The checks on identifiers and digests, in the constructor's order. */
  function IdentifierError(o: Observation): string {
    if !IsId(o.caseId) then "d138_observation_case_invalid"
    else if !IsId(o.trialId) then "d138_trial_id_invalid"
    else if !IsOptionalId(o.adapterId) then "d138_adapter_id_invalid"
    else if !IsOptionalId(o.modelId) then "d138_model_id_invalid"
    else if !IsOptionalId(o.profileId) then "d138_profile_id_invalid"
    else if !IsOptionalId(o.bindingReference) then "d138_binding_reference_invalid"
    else if !IsOptionalId(o.publicationDisposition) then "d138_publication_disposition_invalid"
    else if !IsOptionalId(o.safeFailureClass) then "d138_safe_failure_invalid"
    else if o.contextSnapshotDigest.Some? && !IsDigest(o.contextSnapshotDigest.value)
    then "d138_context_snapshot_digest_invalid"
    else if !IsId(o.terminalState) then "d138_terminal_state_invalid"
    else ""
  }

  /** The checks on counts and measurements. */
  function RangeError(o: Observation): string {
    if !(0 <= o.invocationCount <= 4) then "d138_invocation_count_invalid"
    else if !(0 <= o.draftGenerationCount <= 2) then "d138_draft_count_invalid"
    else if !(0 <= o.revisionCount <= 1) then "d138_revision_count_invalid"
    else if !(0 <= o.durationMs <= MAX_DURATION_MS) then "d138_duration_invalid"
    else if o.verifiedContextTokens.Some? && !(1 <= o.verifiedContextTokens.value <= 10_000_000)
    then "d138_context_tokens_invalid"
    else if !IsSupport(o.taskFit) then "d138_task_fit_invalid"
    else if !IsSupport(o.reasoningSupport) then "d138_reasoning_support_invalid"
    else if !IsSupport(o.structuredOutputSupport) then "d138_structured_support_invalid"
    else ""
  }

  /** Every check but those on the route binding; the empty string when all pass. */
  function FormatError(o: Observation): string {
    if IdentifierError(o) != "" then IdentifierError(o)
    else if !NamesFormatted(Map(NameOf, o.propertyResults)) then "d138_property_results_invalid"
    else if !NamesFormatted(o.hardGateFailures) then "d138_hard_gate_failures_invalid"
    else RangeError(o)
  }

  /** The checks that tie the route binding to the route status and invocation count. */
  function BindingError(o: Observation): string {
    var unbound := o.adapterId.None? && o.modelId.None? && o.profileId.None? && o.bindingReference.None?;
    if o.routeStatus.Unavailable? then
      if !unbound then "d138_unavailable_binding_invalid"
      else if o.invocationCount != 0 || o.draftGenerationCount != 0 || o.revisionCount != 0
      then "d138_unavailable_counts_invalid"
      else ""
    else if o.invocationCount == 0 then
      if !unbound then "d138_invocation_free_binding_invalid" else ""
    else if o.adapterId.None? || o.modelId.None? || o.bindingReference.None?
    then "d138_invoked_binding_missing"
    else ""
  }

  /** The constructor: it checks its fields and stores two of them sorted. */
  function NewObservation(o: Observation): Result<Observation> {
    if FormatError(o) != "" then Raise(FormatError(o))
    else if BindingError(o) != "" then Raise(BindingError(o))
    else Ok(o.(propertyResults := Sorted(PropertyLeq, o.propertyResults),
               hardGateFailures := Sorted(StrLeq, o.hardGateFailures)))
  }

  /** An observation some constructor call returned. */
  ghost predicate ValidObservation(o: Observation) {
    FormatError(o) == "" && BindingError(o) == "" && NewObservation(o) == Ok(o)
  }

  lemma {:induction false} PropertyOrder()
    ensures TotalPreorder(PropertyLeq)
  {
    StrOrder();
    forall a, b ensures PropertyLeq(a, b) || PropertyLeq(b, a) {
      assert StrLeq(a.0, b.0) || StrLeq(b.0, a.0);
    }
    forall a, b, c | PropertyLeq(a, b) && PropertyLeq(b, c) ensures PropertyLeq(a, c) {
      if a.0 != b.0 && b.0 != c.0 {
        assert StrLeq(a.0, b.0) && StrLeq(b.0, c.0);
        assert StrLeq(a.0, c.0);
      }
    }
  }

  lemma {:induction false} SortingKeepsNames(raw: Observation, o: Observation)
    requires multiset(raw.propertyResults) == multiset(o.propertyResults)
    requires multiset(raw.hardGateFailures) == multiset(o.hardGateFailures)
    ensures NamesFormatted(Map(NameOf, raw.propertyResults)) == NamesFormatted(Map(NameOf, o.propertyResults))
    ensures NamesFormatted(raw.hardGateFailures) == NamesFormatted(o.hardGateFailures)
  {
    MapPermutation(NameOf, raw.propertyResults, o.propertyResults);
    NamesFormattedPermutation(Map(NameOf, raw.propertyResults), Map(NameOf, o.propertyResults));
    NamesFormattedPermutation(raw.hardGateFailures, o.hardGateFailures);
  }

  lemma {:induction false} NamesFormattedPermutation(xs: seq<string>, ys: seq<string>)
    requires multiset(xs) == multiset(ys)
    ensures NamesFormatted(xs) == NamesFormatted(ys)
  {
    PermutationSameSet(xs, ys);
    PermutationMembers(xs, ys);
  }

  lemma {:induction false} ErrorsAfterSorting(raw: Observation, results: seq<(string, bool)>, gates: seq<string>)
    ensures var o := raw.(propertyResults := results, hardGateFailures := gates);
      IdentifierError(o) == IdentifierError(raw) && RangeError(o) == RangeError(raw) &&
          BindingError(o) == BindingError(raw)
  {}

  lemma {:induction false} SortedTwice(raw: Observation)
    ensures Sorted(PropertyLeq, Sorted(PropertyLeq, raw.propertyResults)) == Sorted(PropertyLeq, raw.propertyResults)
    ensures Sorted(StrLeq, Sorted(StrLeq, raw.hardGateFailures)) == Sorted(StrLeq, raw.hardGateFailures)
  {
    PropertyOrder();
    StrOrder();
    SortedSorts(PropertyLeq, raw.propertyResults);
    SortedFixpoint(PropertyLeq, Sorted(PropertyLeq, raw.propertyResults));
    SortedSorts(StrLeq, raw.hardGateFailures);
    SortedFixpoint(StrLeq, Sorted(StrLeq, raw.hardGateFailures));
  }

  /** What the constructor returns passes the constructor again unchanged. */
  lemma {:induction false} ConstructedIsValid(raw: Observation)
    requires NewObservation(raw).Ok?
    ensures ValidObservation(NewObservation(raw).value)
  {
    var o := NewObservation(raw).value;
    SortedPermutes(PropertyLeq, raw.propertyResults);
    SortedPermutes(StrLeq, raw.hardGateFailures);
    SortingKeepsNames(raw, o);
    ErrorsAfterSorting(raw, o.propertyResults, o.hardGateFailures);
    SortedTwice(raw);
  }

  ghost predicate AbsentOr(s: Option<string>, texts: set<string>) { s.None? || s.value in texts }

  /** Names in their format, none twice. */
  ghost predicate NamesOnce(names: seq<string>) { Distinct(names) && forall n | n in names :: IsPropertyName(n) }

  /** What the constructor asks of the route binding and the counts. */
  ghost predicate BindingFits(o: Observation) {
    var unbound := o.adapterId.None? && o.modelId.None? && o.profileId.None? && o.bindingReference.None?;
    && (o.routeStatus.Unavailable? ==> o.invocationCount == o.draftGenerationCount == o.revisionCount == 0)
    && (o.invocationCount == 0 ==> unbound)
    && (o.invocationCount != 0 ==> o.adapterId.Some? && o.modelId.Some? && o.bindingReference.Some?)
  }

  /** What it asks of texts. */
  ghost predicate TextsFit(o: Observation) {
    && IsId(o.caseId) && IsId(o.trialId) && IsId(o.terminalState)
    && IsOptionalId(o.adapterId) && IsOptionalId(o.modelId) && IsOptionalId(o.profileId)
    && IsOptionalId(o.bindingReference) && IsOptionalId(o.publicationDisposition) && IsOptionalId(o.safeFailureClass)
    && (o.contextSnapshotDigest.Some? ==> IsDigest(o.contextSnapshotDigest.value))
  }

  /** What it asks of numbers and ratings. */
  ghost predicate MeasurementsFit(o: Observation) {
    && 0 <= o.invocationCount <= 4 && 0 <= o.draftGenerationCount <= 2 && 0 <= o.revisionCount <= 1
    && 0 <= o.durationMs <= 3600000
    && (o.verifiedContextTokens.Some? ==> 1 <= o.verifiedContextTokens.value <= 10000000)
    && AbsentOr(o.taskFit, {"supported", "limited", "unsupported"})
    && AbsentOr(o.reasoningSupport, {"supported", "limited", "unsupported"})
    && AbsentOr(o.structuredOutputSupport, {"supported", "limited", "unsupported"})
  }

  /** Exactly which observations the constructor accepts. It keeps every field and puts results and
      gates in ascending order of name. */
  lemma {:induction false} ObservationAccepted(raw: Observation)
    ensures NewObservation(raw).Ok? <==>
      && TextsFit(raw) && MeasurementsFit(raw) && BindingFits(raw)
      && NamesOnce(Map(NameOf, raw.propertyResults)) && NamesOnce(raw.hardGateFailures)
    ensures NewObservation(raw).Ok? ==>
      var o := NewObservation(raw).value;
      && o == raw.(propertyResults := o.propertyResults, hardGateFailures := o.hardGateFailures)
      && multiset(o.propertyResults) == multiset(raw.propertyResults)
      && multiset(o.hardGateFailures) == multiset(raw.hardGateFailures)
      && (forall i, j | 0 <= i < j < |o.propertyResults| :: StrLeq(o.propertyResults[i].0, o.propertyResults[j].0))
      && (forall i, j | 0 <= i < j < |o.hardGateFailures| :: StrLeq(o.hardGateFailures[i], o.hardGateFailures[j]))
  {
    hide IdentifierError, RangeError, BindingError, NamesFormatted, TextsFit, MeasurementsFit, BindingFits, NamesOnce,
         Sorted, StrLeq;
    TextsExactly(raw);
    MeasurementsExactly(raw);
    if MeasurementsFit(raw) { BindingExactly(raw); }
    NamesExactly(Map(NameOf, raw.propertyResults));
    NamesExactly(raw.hardGateFailures);
    StoredInOrder(raw);
  }

  lemma {:induction false} TextsExactly(o: Observation)
    ensures IdentifierError(o) == "" <==> TextsFit(o)
  {
    hide IsId, IsDigest;
  }

  lemma {:induction false} MeasurementsExactly(o: Observation)
    ensures RangeError(o) == "" <==> MeasurementsFit(o)
  {}

  lemma {:induction false} BindingExactly(o: Observation)
    ensures BindingError(o) == "" <==> BindingFits(o)
  {}

  lemma {:induction false} NamesExactly(names: seq<string>)
    ensures NamesFormatted(names) <==> NamesOnce(names)
  {
    hide IsPropertyName;
    DistinctCardinality(names);
    assert NameSet(names) == set n | n in names;
  }

  lemma {:induction false} StoredInOrder(raw: Observation)
    ensures var results, gates := Sorted(PropertyLeq, raw.propertyResults), Sorted(StrLeq, raw.hardGateFailures);
      && multiset(results) == multiset(raw.propertyResults) && multiset(gates) == multiset(raw.hardGateFailures)
      && (forall i, j | 0 <= i < j < |results| :: StrLeq(results[i].0, results[j].0))
      && (forall i, j | 0 <= i < j < |gates| :: StrLeq(gates[i], gates[j]))
  {
    hide Sorted, StrLeq;
    PropertyOrder();
    StrOrder();
    SortedIsSortedPermutation(PropertyLeq, raw.propertyResults);
    SortedIsSortedPermutation(StrLeq, raw.hardGateFailures);
    var results := Sorted(PropertyLeq, raw.propertyResults);
    forall i, j | 0 <= i < j < |results| ensures StrLeq(results[i].0, results[j].0) {
      assert PropertyLeq(results[i], results[j]);
    }
  }

  predicate Invoked(o: Observation) { o.invocationCount != 0 }

  /** What a caller may rely on: bindings are absent exactly when nothing was invoked. */
  lemma {:induction false} ValidObservationBinding(o: Observation)
    requires ValidObservation(o)
    ensures Invoked(o) <==> o.adapterId.Some? && o.modelId.Some? && o.bindingReference.Some?
    ensures !Invoked(o) ==> o.adapterId.None? && o.modelId.None? && o.profileId.None? && o.bindingReference.None?
    ensures o.profileId.Some? ==> o.profileId.value != ""
  {}

  // ---------------------------------------------------------------- JSON form

  function OptionalText(s: Option<string>): Json { if s.Some? then JStr(s.value) else JNull }

  function OptionalInt(n: Option<int>): Json { if n.Some? then JInt(n.value) else JNull }

  function Text(s: string): Json { JStr(s) }

  function TextArray(xs: seq<string>): Json { JArr(Map(Text, xs)) }

  function IdentityFields(o: Observation): seq<Field> {
    [ Field("case_id", JStr(o.caseId)),
      Field("trial_id", JStr(o.trialId)),
      Field("task_kind", JStr(o.taskKind.Value())),
      Field("route_status", JStr(o.routeStatus.Value())) ]
  }

  function BindingFields(o: Observation): seq<Field> {
    [ Field("adapter_id", OptionalText(o.adapterId)),
      Field("model_id", OptionalText(o.modelId)),
      Field("profile_id", OptionalText(o.profileId)),
      Field("binding_reference", OptionalText(o.bindingReference)) ]
  }

  function OutcomeFields(o: Observation): seq<Field> {
    [ Field("terminal_state", JStr(o.terminalState)),
      Field("publication_disposition", OptionalText(o.publicationDisposition)),
      Field("safe_failure_class", OptionalText(o.safeFailureClass)),
      Field("context_snapshot_digest", OptionalText(o.contextSnapshotDigest)) ]
  }

  function StoredResult(r: (string, bool)): Json { JArr([JStr(r.0), JBool(r.1)]) }

  function ResultFields(o: Observation): seq<Field> {
    [ Field("property_results", JArr(Map(StoredResult, o.propertyResults))),
      Field("hard_gate_failures", TextArray(o.hardGateFailures)) ]
  }

  function CountFields(o: Observation): seq<Field> {
    [ Field("invocation_count", JInt(o.invocationCount)),
      Field("draft_generation_count", JInt(o.draftGenerationCount)),
      Field("revision_count", JInt(o.revisionCount)),
      Field("duration_ms", JInt(o.durationMs)) ]
  }

  function ModelFields(o: Observation): seq<Field> {
    [ Field("verified_context_tokens", OptionalInt(o.verifiedContextTokens)),
      Field("task_fit", OptionalText(o.taskFit)),
      Field("reasoning_support", OptionalText(o.reasoningSupport)),
      Field("structured_output_support", OptionalText(o.structuredOutputSupport)) ]
  }

  /** `_jsonable(observation)`: the stored form of one trial. */
  function ObservationFields(o: Observation): seq<Field> {
    IdentityFields(o) + (BindingFields(o) + (OutcomeFields(o) + (ResultFields(o) + (CountFields(o) + ModelFields(o)))))
  }

  // ---------------------------------------------------------------- route bindings

  datatype RouteKey = RouteKey(taskKind: TaskKind, adapterId: string, modelId: string, profileId: Option<string>)

  datatype RouteBinding = RouteBinding(key: RouteKey, laneTrialCount: int, invokedTrialCount: int)

  /** The tuple both pipelines sort routes by. */
  function SortKey(kind: string, adapterId: string, modelId: string, profileId: Option<string>): seq<string> {
    [kind, adapterId, modelId, profileId.GetOr("")]
  }

  function BindingSortKey(b: RouteBinding): seq<string> {
    SortKey(b.key.taskKind.Value(), b.key.adapterId, b.key.modelId, b.key.profileId)
  }

  predicate BindingLeq(a: RouteBinding, b: RouteBinding) {
    KeyLeq(BindingSortKey(a), BindingSortKey(b))
  }

  /** The constructor's checks, in order; the empty string when all pass. */
  function RouteBindingError(b: RouteBinding): string {
    if !IsId(b.key.adapterId) then "d138_route_binding_adapter_invalid"
    else if !IsId(b.key.modelId) then "d138_route_binding_model_invalid"
    else if !IsOptionalId(b.key.profileId) then "d138_route_binding_profile_invalid"
    else if !(1 <= b.laneTrialCount <= TASK_KIND_TRIALS) then "d138_route_binding_lane_count_invalid"
    else if !(1 <= b.invokedTrialCount <= b.laneTrialCount) then "d138_route_binding_invoked_count_invalid"
    else ""
  }

  /** The manifest's check on its bindings: nonempty, in order, no repeats. */
  predicate ManifestAcceptsBindings(bindings: seq<RouteBinding>) {
    && bindings != []
    && bindings == Sorted(BindingLeq, bindings)
    && |set b | b in bindings| == |bindings|
  }

  /** The manifest accepts exactly nonempty lists in strictly ascending order. */
  lemma {:induction false} ManifestAcceptsExactly(bindings: seq<RouteBinding>)
    ensures ManifestAcceptsBindings(bindings) <==>
      && bindings != [] && Distinct(bindings)
      && forall i, j | 0 <= i < j < |bindings| :: BindingLeq(bindings[i], bindings[j])
  {
    hide BindingLeq, Sorted;
    BindingOrder();
    DistinctCardinality(bindings);
    SortedSorts(BindingLeq, bindings);
    if IsSorted(BindingLeq, bindings) { SortedFixpoint(BindingLeq, bindings); }
  }

  lemma {:induction false} BindingOrder()
    ensures TotalPreorder(BindingLeq)
  {
    KeyOrder();
  }

  /** Exactly which bindings the constructor accepts. */
  lemma {:induction false} RouteBindingAccepted(b: RouteBinding)
    ensures RouteBindingError(b) == "" <==>
      && IsId(b.key.adapterId) && IsId(b.key.modelId) && IsOptionalId(b.key.profileId)
      && 1 <= b.invokedTrialCount <= b.laneTrialCount <= 72
  {
    hide IsId;
  }

  /** The sort key determines the key, because a profile is never the empty string. */
  lemma {:induction false} SortKeyInjective(a: RouteBinding, b: RouteBinding)
    requires a.key.profileId != Some("") && b.key.profileId != Some("")
    requires BindingSortKey(a) == BindingSortKey(b)
    ensures a.key == b.key
  {
    TaskKindValues(a.key.taskKind, b.key.taskKind);
    var x, y := BindingSortKey(a), BindingSortKey(b);
    assert x[0] == y[0] && x[1] == y[1] && x[2] == y[2] && x[3] == y[3];
  }
}
