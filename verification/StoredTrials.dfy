/** The stored form of an observation read back column by column: what D139 computes from the
    JSON of a list of observations. */
module StoredTrials {
  import opened BenchmarkContracts
  import opened CanonicalJson
  import opened RunEvidence
  import opened Sequences

  function StoredTrialsOf(obs: seq<Observation>): seq<Trial> { Map(ObservationFields, obs) }

  // ---------------------------------------------------------------- reading fields

  /** The key is not among the first fields, or it is the `i`-th of them. */
  lemma {:induction false} Skip(front: seq<Field>, back: seq<Field>, key: string)
    requires forall i | 0 <= i < |front| :: front[i].key != key
    ensures Get(front + back, key) == Get(back, key)
  {
    if front == [] {
      assert front + back == back;
    } else {
      assert (front + back)[1..] == front[1..] + back;
      Skip(front[1..], back, key);
    }
  }

  lemma {:induction false} Found(front: seq<Field>, back: seq<Field>, key: string, i: nat)
    requires i < |front| && front[i].key == key
    requires forall j | 0 <= j < i :: front[j].key != key
    ensures Get(front + back, key) == front[i].value
  {
    assert front == front[..i] + front[i..];
    assert front + back == front[..i] + (front[i..] + back);
    Skip(front[..i], front[i..] + back, key);
  }

  function AfterIdentity(o: Observation): seq<Field> { BindingFields(o) + AfterBinding(o) }

  function AfterBinding(o: Observation): seq<Field> { OutcomeFields(o) + AfterOutcome(o) }

  function AfterOutcome(o: Observation): seq<Field> { ResultFields(o) + AfterResults(o) }

  function AfterResults(o: Observation): seq<Field> { CountFields(o) + ModelFields(o) }

  lemma {:induction false} ReadIdentity(o: Observation)
    ensures Get(ObservationFields(o), "case_id") == JStr(o.caseId)
    ensures Get(ObservationFields(o), "trial_id") == JStr(o.trialId)
    ensures Get(ObservationFields(o), "task_kind") == JStr(o.taskKind.Value())
    ensures Get(ObservationFields(o), "route_status") == JStr(o.routeStatus.Value())
  {
    var f, rest := IdentityFields(o), AfterIdentity(o);
    Found(f, rest, "case_id", 0);
    Found(f, rest, "trial_id", 1);
    Found(f, rest, "task_kind", 2);
    Found(f, rest, "route_status", 3);
  }

  lemma {:induction false} ReadBinding(o: Observation)
    ensures Get(ObservationFields(o), "adapter_id") == OptionalText(o.adapterId)
    ensures Get(ObservationFields(o), "model_id") == OptionalText(o.modelId)
    ensures Get(ObservationFields(o), "profile_id") == OptionalText(o.profileId)
  {
    var f, rest := BindingFields(o), AfterBinding(o);
    SkipIdentity(o, "adapter_id");
    Found(f, rest, "adapter_id", 0);
    SkipIdentity(o, "model_id");
    Found(f, rest, "model_id", 1);
    SkipIdentity(o, "profile_id");
    Found(f, rest, "profile_id", 2);
  }

  lemma {:induction false} SkipIdentity(o: Observation, key: string)
    requires key != "case_id" && key != "trial_id" && key != "task_kind" && key != "route_status"
    ensures Get(ObservationFields(o), key) == Get(AfterIdentity(o), key)
  {
    Skip(IdentityFields(o), AfterIdentity(o), key);
  }

  lemma {:induction false} SkipBinding(o: Observation, key: string)
    requires key != "case_id" && key != "trial_id" && key != "task_kind" && key != "route_status"
    requires key != "adapter_id" && key != "model_id" && key != "profile_id" && key != "binding_reference"
    ensures Get(ObservationFields(o), key) == Get(AfterBinding(o), key)
  {
    SkipIdentity(o, key);
    Skip(BindingFields(o), AfterBinding(o), key);
  }

  lemma {:induction false} SkipOutcome(o: Observation, key: string)
    requires Get(ObservationFields(o), key) == Get(AfterBinding(o), key)
    requires key != "terminal_state" && key != "publication_disposition"
    requires key != "safe_failure_class" && key != "context_snapshot_digest"
    ensures Get(ObservationFields(o), key) == Get(AfterOutcome(o), key)
  {
    Skip(OutcomeFields(o), AfterOutcome(o), key);
  }

  lemma {:induction false} ReadOutcome(o: Observation)
    ensures Get(ObservationFields(o), "terminal_state") == JStr(o.terminalState)
    ensures Get(ObservationFields(o), "safe_failure_class") == OptionalText(o.safeFailureClass)
  {
    var f, rest := OutcomeFields(o), AfterOutcome(o);
    SkipBinding(o, "terminal_state");
    Found(f, rest, "terminal_state", 0);
    SkipBinding(o, "safe_failure_class");
    Found(f, rest, "safe_failure_class", 2);
  }

  lemma {:induction false} ReadGates(o: Observation)
    ensures Get(ObservationFields(o), "hard_gate_failures") == TextArray(o.hardGateFailures)
  {
    SkipBinding(o, "hard_gate_failures");
    assert "hard_gate_failures"[0] != "safe_failure_class"[0];
    SkipOutcome(o, "hard_gate_failures");
    Found(ResultFields(o), AfterResults(o), "hard_gate_failures", 1);
  }

  lemma {:induction false} SkipResults(o: Observation, key: string)
    requires Get(ObservationFields(o), key) == Get(AfterOutcome(o), key)
    requires key != "property_results" && key != "hard_gate_failures"
    ensures Get(ObservationFields(o), key) == Get(AfterResults(o), key)
  {
    Skip(ResultFields(o), AfterResults(o), key);
  }

  lemma {:induction false} ReadInvocations(o: Observation)
    ensures Get(ObservationFields(o), "invocation_count") == JInt(o.invocationCount)
  {
    SkipBinding(o, "invocation_count");
    SkipOutcome(o, "invocation_count");
    assert "invocation_count"[0] != "property_results"[0];
    SkipResults(o, "invocation_count");
    Found(CountFields(o), ModelFields(o), "invocation_count", 0);
  }

  lemma {:induction false} ReadDrafts(o: Observation)
    ensures Get(ObservationFields(o), "draft_generation_count") == JInt(o.draftGenerationCount)
  {
    SkipBinding(o, "draft_generation_count");
    SkipOutcome(o, "draft_generation_count");
    SkipResults(o, "draft_generation_count");
    Found(CountFields(o), ModelFields(o), "draft_generation_count", 1);
  }

  lemma {:induction false} ReadRevisions(o: Observation)
    ensures Get(ObservationFields(o), "revision_count") == JInt(o.revisionCount)
  {
    SkipBinding(o, "revision_count");
    assert "revision_count"[0] != "terminal_state"[0];
    SkipOutcome(o, "revision_count");
    SkipResults(o, "revision_count");
    Found(CountFields(o), ModelFields(o), "revision_count", 2);
  }

  lemma {:induction false} ReadDuration(o: Observation)
    ensures Get(ObservationFields(o), "duration_ms") == JInt(o.durationMs)
  {
    SkipBinding(o, "duration_ms");
    SkipOutcome(o, "duration_ms");
    SkipResults(o, "duration_ms");
    Found(CountFields(o), ModelFields(o), "duration_ms", 3);
  }

  // ---------------------------------------------------------------- columns

  lemma {:induction false} MapOfMap<A, B, C>(f: A -> B, g: B -> C, h: A -> C, xs: seq<A>)
    requires forall x | x in xs :: g(f(x)) == h(x)
    ensures Map(g, Map(f, xs)) == Map(h, xs)
  {
    if xs != [] {
      assert Map(f, xs)[1..] == Map(f, xs[1..]);
      MapOfMap(f, g, h, xs[1..]);
    }
  }

  function StatusText(o: Observation): Json { JStr(o.routeStatus.Value()) }

  function TerminalText(o: Observation): Json { JStr(o.terminalState) }

  function FailureText(o: Observation): Json { OptionalText(o.safeFailureClass) }

  function KindText(o: Observation): Json { JStr(o.taskKind.Value()) }

  function KindValue(o: Observation): string { o.taskKind.Value() }

  function InvocationNumber(o: Observation): Json { JInt(o.invocationCount) }

  function DraftNumber(o: Observation): Json { JInt(o.draftGenerationCount) }

  function RevisionNumber(o: Observation): Json { JInt(o.revisionCount) }

  function DurationNumbers(o: Observation): seq<Json> {
    if o.routeStatus.Unavailable? then [] else [JInt(o.durationMs)]
  }

  lemma {:induction false} Column(key: string, column: Observation -> Json, obs: seq<Observation>)
    requires forall o: Observation :: Get(ObservationFields(o), key) == column(o)
    ensures Values(key, StoredTrialsOf(obs)) == Map(column, obs)
  {
    MapOfMap(ObservationFields, ValueOf(key), column, obs);
  }

  lemma {:induction false} StatusColumn(obs: seq<Observation>)
    ensures Values("route_status", StoredTrialsOf(obs)) == Map(StatusText, obs)
  {
    forall o: Observation ensures Get(ObservationFields(o), "route_status") == StatusText(o) { ReadIdentity(o); }
    Column("route_status", StatusText, obs);
  }

  lemma {:induction false} TerminalColumn(obs: seq<Observation>)
    ensures Values("terminal_state", StoredTrialsOf(obs)) == Map(TerminalText, obs)
  {
    forall o: Observation ensures Get(ObservationFields(o), "terminal_state") == TerminalText(o) { ReadOutcome(o); }
    Column("terminal_state", TerminalText, obs);
  }

  lemma {:induction false} FailureColumn(obs: seq<Observation>)
    ensures Values("safe_failure_class", StoredTrialsOf(obs)) == Map(FailureText, obs)
  {
    forall o: Observation ensures Get(ObservationFields(o), "safe_failure_class") == FailureText(o) { ReadOutcome(o); }
    Column("safe_failure_class", FailureText, obs);
  }

  lemma {:induction false} KindColumn(obs: seq<Observation>)
    ensures Values("task_kind", StoredTrialsOf(obs)) == Map(KindText, obs)
  {
    forall o: Observation ensures Get(ObservationFields(o), "task_kind") == KindText(o) { ReadIdentity(o); }
    Column("task_kind", KindText, obs);
  }

  lemma {:induction false} InvocationColumn(obs: seq<Observation>)
    ensures Values("invocation_count", StoredTrialsOf(obs)) == Map(InvocationNumber, obs)
  {
    forall o: Observation ensures Get(ObservationFields(o), "invocation_count") == InvocationNumber(o) {
      ReadInvocations(o);
    }
    Column("invocation_count", InvocationNumber, obs);
  }

  lemma {:induction false} DraftColumn(obs: seq<Observation>)
    ensures Values("draft_generation_count", StoredTrialsOf(obs)) == Map(DraftNumber, obs)
  {
    forall o: Observation ensures Get(ObservationFields(o), "draft_generation_count") == DraftNumber(o) {
      ReadDrafts(o);
    }
    Column("draft_generation_count", DraftNumber, obs);
  }

  lemma {:induction false} RevisionColumn(obs: seq<Observation>)
    ensures Values("revision_count", StoredTrialsOf(obs)) == Map(RevisionNumber, obs)
  {
    forall o: Observation ensures Get(ObservationFields(o), "revision_count") == RevisionNumber(o) { ReadRevisions(o); }
    Column("revision_count", RevisionNumber, obs);
  }

  lemma {:induction false} DurationColumn(obs: seq<Observation>)
    ensures Collect(MeasuredDuration, StoredTrialsOf(obs)) == Collect(DurationNumbers, obs)
  {
    forall o: Observation ensures MeasuredDuration(ObservationFields(o)) == DurationNumbers(o) {
      ReadIdentity(o);
      ReadDuration(o);
      assert o.routeStatus.Value() == "unavailable" <==> o.routeStatus.Unavailable?;
    }
    CollectOfMap(ObservationFields, MeasuredDuration, DurationNumbers, obs);
  }

  // ---------------------------------------------------------------- unique keys

  /** The place of a key in the stored form, told by its length and first or last letter. */
  function Place(key: string): int {
    if |key| == 7 then 0
    else if |key| == 8 then (if key[0] == 'm' then 5 else if key[7] == 'd' then 1 else 19)
    else if |key| == 9 then 2
    else if |key| == 12 then 3
    else if |key| == 10 then (if key[0] == 'a' then 4 else 6)
    else if |key| == 17 then (if key[0] == 'b' then 7 else 20)
    else if |key| == 14 then (if key[0] == 't' then 8 else 16)
    else if |key| == 23 then (if key[0] == 'p' then 9 else if key[0] == 'c' then 11 else 18)
    else if |key| == 18 then (if key[0] == 's' then 10 else 13)
    else if |key| == 16 then (if key[0] == 'p' then 12 else 14)
    else if |key| == 22 then 15
    else if |key| == 11 then 17
    else 21
  }

  /** The keys of `fields` are those of the stored form from `start` on. */
  ghost predicate InPlace(fields: seq<Field>, start: int) {
    forall i | 0 <= i < |fields| :: Place(fields[i].key) == start + i
  }

  lemma {:induction false} IdentityInPlace(o: Observation)
    ensures InPlace(IdentityFields(o), 0)
  {}

  lemma {:induction false} BindingInPlace(o: Observation)
    ensures InPlace(BindingFields(o), 4)
  {}

  lemma {:induction false} OutcomeInPlace(o: Observation)
    ensures InPlace(OutcomeFields(o), 8)
  {}

  lemma {:induction false} ResultsInPlace(o: Observation)
    ensures InPlace(ResultFields(o), 12)
  {}

  lemma {:induction false} CountsInPlace(o: Observation)
    ensures InPlace(CountFields(o), 14)
  {}

  lemma {:induction false} ModelInPlace(o: Observation)
    ensures InPlace(ModelFields(o), 18)
  {}

  lemma {:induction false} JoinInPlace(a: seq<Field>, b: seq<Field>, start: int)
    requires InPlace(a, start) && InPlace(b, start + |a|)
    ensures InPlace(a + b, start)
  {}

  lemma {:induction false} StoredInPlace(o: Observation)
    ensures InPlace(ObservationFields(o), 0)
  {
    IdentityInPlace(o);
    BindingInPlace(o);
    OutcomeInPlace(o);
    ResultsInPlace(o);
    CountsInPlace(o);
    ModelInPlace(o);
    hide Place, InPlace;
    assert |IdentityFields(o)| == 4 && |BindingFields(o)| == 4 && |OutcomeFields(o)| == 4 && |ResultFields(o)| == 2 &&
        |CountFields(o)| == 4;
    JoinInPlace(CountFields(o), ModelFields(o), 14);
    JoinInPlace(ResultFields(o), AfterResults(o), 12);
    JoinInPlace(OutcomeFields(o), AfterOutcome(o), 8);
    JoinInPlace(BindingFields(o), AfterBinding(o), 4);
    JoinInPlace(IdentityFields(o), AfterIdentity(o), 0);
  }

  predicate FlatFields(fields: seq<Field>) { forall i | 0 <= i < |fields| :: Flat(fields[i].value) }

  /** A scalar, or a list of scalars or of lists of scalars: no object inside. */
  predicate Flat(v: Json) {
    !v.JObj? && (v.JArr? ==> forall i | 0 <= i < |v.items| ::
      !v.items[i].JObj? &&
          (v.items[i].JArr? ==> forall j | 0 <= j < |v.items[i].items| ::
          !v.items[i].items[j].JObj? && !v.items[i].items[j].JArr?))
  }

  lemma {:induction false} FlatUnique(v: Json)
    requires Flat(v)
    ensures UniqueKeys(v)
  {}

  lemma {:induction false} StoredFlat(o: Observation)
    ensures FlatFields(ObservationFields(o))
  {
    assert FlatFields(IdentityFields(o)) && FlatFields(BindingFields(o)) && FlatFields(OutcomeFields(o));
    assert FlatFields(ResultFields(o)) && FlatFields(CountFields(o)) && FlatFields(ModelFields(o));
    hide IdentityFields, BindingFields, OutcomeFields, ResultFields, CountFields, ModelFields, Flat;
  }

  /** A stored trial is a dictionary: no key occurs twice. */
  lemma {:induction false} StoredKeysUnique(o: Observation)
    ensures UniqueKeys(JObj(ObservationFields(o)))
  {
    StoredInPlace(o);
    StoredFlat(o);
    hide ObservationFields, Place, Flat;
    var f := ObservationFields(o);
    forall i, j | 0 <= i < j < |f| ensures f[i].key != f[j].key {
      assert Place(f[i].key) == i && Place(f[j].key) == j;
    }
    forall i | 0 <= i < |f| ensures UniqueKeys(f[i].value) { FlatUnique(f[i].value); }
  }

  // ---------------------------------------------------------------- the whole stored form

  lemma {:induction false} StoredAt(o: Observation, i: nat, key: string, value: Json)
    requires i < |ObservationFields(o)| && ObservationFields(o)[i] == Field(key, value)
    ensures HasKey(ObservationFields(o), key) && Get(ObservationFields(o), key) == value
  {
    hide ObservationFields, UniqueKeys;
    var f := ObservationFields(o);
    StoredKeysUnique(o);
    forall j | 0 <= j < i ensures f[j].key != key { DistinctFields(f, j, i); }
    assert f + [] == f;
    Found(f, [], key, i);
  }

  lemma {:induction false} DistinctFields(f: seq<Field>, i: nat, j: nat)
    requires UniqueKeys(JObj(f)) && i < j < |f|
    ensures f[i].key != f[j].key
  {}

  /** The fields part by part. */
  lemma {:induction false} PartsAt(o: Observation)
    ensures var f := ObservationFields(o);
      && |f| == 22 && f[..4] == IdentityFields(o) && f[4..8] == BindingFields(o) && f[8..12] == OutcomeFields(o)
      && f[12..14] == ResultFields(o) && f[14..18] == CountFields(o) && f[18..] == ModelFields(o)
  {
    hide IdentityFields, BindingFields, OutcomeFields, ResultFields, CountFields, ModelFields;
    PartLengths(o);
  }

  lemma {:induction false} PartLengths(o: Observation)
    ensures |IdentityFields(o)| == |BindingFields(o)| == |OutcomeFields(o)| == |CountFields(o)| == 4
    ensures |ResultFields(o)| == 2 && |ModelFields(o)| == 4
  {}

  lemma {:induction false} StoredIdentity(o: Observation)
    ensures var f := ObservationFields(o);
      && Get(f, "case_id") == JStr(o.caseId) && Get(f, "trial_id") == JStr(o.trialId)
      && Get(f, "task_kind") == JStr(if o.taskKind.GeneralChat? then "general_chat" else "software_engineering")
      && Get(f, "route_status") == JStr(o.routeStatus.Value())
      && Get(f, "adapter_id") == OptionalText(o.adapterId) && Get(f, "model_id") == OptionalText(o.modelId)
      && Get(f, "profile_id") == OptionalText(o.profileId)
      && Get(f, "binding_reference") == OptionalText(o.bindingReference)
  {
    hide ObservationFields, Get;
    PartsAt(o);
    var f := ObservationFields(o);
    forall i | 0 <= i < 4 ensures f[i] == IdentityFields(o)[i] && f[4 + i] == BindingFields(o)[i] {
      assert f[i] == f[..4][i] && f[4 + i] == f[4..8][i];
    }
    StoredAt(o, 0, "case_id", JStr(o.caseId));
    StoredAt(o, 1, "trial_id", JStr(o.trialId));
    StoredAt(o, 2, "task_kind", JStr(o.taskKind.Value()));
    StoredAt(o, 3, "route_status", JStr(o.routeStatus.Value()));
    StoredAt(o, 4, "adapter_id", OptionalText(o.adapterId));
    StoredAt(o, 5, "model_id", OptionalText(o.modelId));
    StoredAt(o, 6, "profile_id", OptionalText(o.profileId));
    StoredAt(o, 7, "binding_reference", OptionalText(o.bindingReference));
  }

  lemma {:induction false} StoredOutcome(o: Observation)
    ensures var f := ObservationFields(o);
      && Get(f, "terminal_state") == JStr(o.terminalState)
      && Get(f, "publication_disposition") == OptionalText(o.publicationDisposition)
      && Get(f, "safe_failure_class") == OptionalText(o.safeFailureClass)
      && Get(f, "context_snapshot_digest") == OptionalText(o.contextSnapshotDigest)
      && Get(f, "property_results") == JArr(Map(StoredResult, o.propertyResults))
      && Get(f, "hard_gate_failures") == TextArray(o.hardGateFailures)
  {
    hide ObservationFields, Get;
    PartsAt(o);
    var f := ObservationFields(o);
    forall i | 0 <= i < 4 ensures f[8 + i] == OutcomeFields(o)[i] { assert f[8 + i] == f[8..12][i]; }
    forall i | 0 <= i < 2 ensures f[12 + i] == ResultFields(o)[i] { assert f[12 + i] == f[12..14][i]; }
    StoredAt(o, 8, "terminal_state", JStr(o.terminalState));
    StoredAt(o, 9, "publication_disposition", OptionalText(o.publicationDisposition));
    StoredAt(o, 10, "safe_failure_class", OptionalText(o.safeFailureClass));
    StoredAt(o, 11, "context_snapshot_digest", OptionalText(o.contextSnapshotDigest));
    StoredAt(o, 12, "property_results", JArr(Map(StoredResult, o.propertyResults)));
    StoredAt(o, 13, "hard_gate_failures", TextArray(o.hardGateFailures));
  }

  lemma {:induction false} StoredCounts(o: Observation)
    ensures var f := ObservationFields(o);
      && Get(f, "invocation_count") == JInt(o.invocationCount)
      && Get(f, "draft_generation_count") == JInt(o.draftGenerationCount)
      && Get(f, "revision_count") == JInt(o.revisionCount) && Get(f, "duration_ms") == JInt(o.durationMs)
  {
    hide ObservationFields, Get;
    PartsAt(o);
    var f := ObservationFields(o);
    forall i | 0 <= i < 4 ensures f[14 + i] == CountFields(o)[i] { assert f[14 + i] == f[14..18][i]; }
    StoredAt(o, 14, "invocation_count", JInt(o.invocationCount));
    StoredAt(o, 15, "draft_generation_count", JInt(o.draftGenerationCount));
    StoredAt(o, 16, "revision_count", JInt(o.revisionCount));
    StoredAt(o, 17, "duration_ms", JInt(o.durationMs));
  }

  lemma {:induction false} StoredModel(o: Observation)
    ensures var f := ObservationFields(o);
      && Get(f, "verified_context_tokens") == OptionalInt(o.verifiedContextTokens)
      && Get(f, "task_fit") == OptionalText(o.taskFit)
      && Get(f, "reasoning_support") == OptionalText(o.reasoningSupport)
      && Get(f, "structured_output_support") == OptionalText(o.structuredOutputSupport)
  {
    hide ObservationFields, Get;
    PartsAt(o);
    var f := ObservationFields(o);
    forall i | 0 <= i < 4 ensures f[18 + i] == ModelFields(o)[i] { assert f[18 + i] == f[18..][i]; }
    StoredAt(o, 18, "verified_context_tokens", OptionalInt(o.verifiedContextTokens));
    StoredAt(o, 19, "task_fit", OptionalText(o.taskFit));
    StoredAt(o, 20, "reasoning_support", OptionalText(o.reasoningSupport));
    StoredAt(o, 21, "structured_output_support", OptionalText(o.structuredOutputSupport));
  }
}
