/** The two pipelines agree: what D139 regenerates from the stored trials of a run is what D138
    computed from its observations, in whatever order the trial files are read. */
module Regeneration {
  import opened BenchmarkContracts
  import opened CanonicalJson
  import opened GovernanceContracts
  import opened LaneCompleteness
  import opened OperatingSummaries
  import opened OrderStatistics
  import opened Ordering
  import opened Results
  import opened RouteGrouping
  import opened RunEvidence
  import opened Sequences
  import opened StoredTrials

  // ---------------------------------------------------------------- distributions

  /** Sorting the keys and then counting gives the same pairs as counting and then sorting. */
  lemma {:induction false} CountedTextsAreItems(texts: seq<string>)
    ensures CountedTexts(texts) == SortedItems(texts)
  {
    var keys := Sorted(StrLeq, Dedup(texts));
    var pairs := PairsFor(texts, keys);
    StrOrder();
    SortedIsSortedPermutation(StrLeq, Dedup(texts));
    DistinctPermutation(Dedup(texts), keys);
    SortedMembers(StrLeq, Dedup(texts));
    forall i, j | 0 <= i < j < |pairs| ensures PairLeq(pairs[i], pairs[j]) {
      assert StrLeq(keys[i], keys[j]) && keys[i] != keys[j];
    }
    SortedFixpoint(PairLeq, pairs);
    SortedPairsUnique(texts, texts, keys);
  }

  ghost predicate AreTexts(values: seq<Json>, texts: seq<string>) {
    |values| == |texts| && forall i | 0 <= i < |values| :: values[i] == JStr(texts[i])
  }

  lemma {:induction false} TextPairs(p: Platform, values: seq<Json>, texts: seq<string>)
    requires AreTexts(values, texts)
    ensures PairCounts(p, values) == Ok(SortedItems(texts))
  {
    hide CountedTexts, SortedItems, Hashable;
    forall v | v in values ensures v.JStr? {}
    forall v | v in values ensures Hashable(v) { HashableText(v); }
    assert Map(TextOf, values) == texts;
    CountedTextsAreItems(texts);
  }

  lemma {:induction false} HashableText(v: Json)
    ensures v.JStr? ==> Hashable(v)
  {}

  lemma {:induction false} PresentFailures(obs: seq<Observation>)
    ensures AreTexts(Filter(IsPresent, Map(FailureText, obs)), Collect(FailuresOf, obs))
  {
    if obs != [] {
      PresentFailures(obs[1..]);
      var head := FailureText(obs[0]);
      assert Map(FailureText, obs) == [head] + Map(FailureText, obs[1..]);
      FilterAppend(IsPresent, [head], Map(FailureText, obs[1..]));
      FilterSnoc(IsPresent, [], head);
      assert Filter(IsPresent, [head]) == if IsPresent(head) then [head] else [];
    }
  }

  lemma {:induction false} CountThrough<A, B>(f: A -> B, xs: seq<A>, a: A)
    requires forall x | x in xs :: f(x) == f(a) ==> x == a
    ensures multiset(Map(f, xs))[f(a)] == multiset(xs)[a]
  {
    if xs != [] {
      CountThrough(f, xs[1..], a);
      UnconsMultiset(xs);
      ConsMultiset(f(xs[0]), Map(f, xs[1..]));
    }
  }

  function StatusJson(s: RouteStatus): Json { JStr(s.Value()) }

  lemma {:induction false} StatusValuesDiffer(a: RouteStatus, b: RouteStatus)
    ensures a.Value() == b.Value() <==> a == b
  {
    assert |a.Value()| == |b.Value()| ==> a == b;
  }

  lemma {:induction false} StatusCounts(obs: seq<Observation>, s: RouteStatus)
    ensures StatusCount(StoredTrialsOf(obs), s.Value()) == JInt(multiset(Map(StatusOf, obs))[s])
  {
    StatusColumn(obs);
    MapOfMap(StatusOf, StatusJson, StatusText, obs);
    forall x: RouteStatus | StatusJson(x) == StatusJson(s) ensures x == s { StatusValuesDiffer(x, s); }
    CountThrough(StatusJson, Map(StatusOf, obs), s);
  }

  // ---------------------------------------------------------------- summary

  /** The summary before its count lists are sorted. */
  function UnsortedSummary(obs: seq<Observation>): Summary {
    OperatingSummary(obs).(
      invocationCounts := Map(InvocationsOf, obs),
      draftGenerationCounts := Map(DraftsOf, obs),
      revisionCounts := Map(RevisionsOf, obs))
  }

  lemma {:induction false} ItemsWellFormed(values: seq<string>)
    requires forall v | v in values :: IsIdentifier(v, 192)
    ensures WellFormedPairs(SortedItems(values))
    ensures Sorted(PairLeq, SortedItems(values)) == SortedItems(values)
  {
    var pairs := PairsFor(values, Dedup(values));
    assert WellFormedPairs(pairs);
    PairOrder();
    SortedIsSortedPermutation(PairLeq, pairs);
    WellFormedPermutation(pairs, SortedItems(values));
    SortedFixpoint(PairLeq, SortedItems(values));
  }

  lemma {:induction false} WideIdentifier(s: string)
    requires IsId(s)
    ensures IsIdentifier(s, 192)
  {}

  /** What a constructed observation guarantees about its texts and counts. */
  lemma {:induction false} ValidFacts(o: Observation)
    requires ValidObservation(o)
    ensures IsIdentifier(o.terminalState, 192)
    ensures o.safeFailureClass.Some? ==> IsIdentifier(o.safeFailureClass.value, 192)
    ensures o.invocationCount >= 0 && o.draftGenerationCount >= 0 && o.revisionCount >= 0 && o.durationMs >= 0
    ensures NamesFormatted(o.hardGateFailures)
  {
    assert IdentifierError(o) == "" && RangeError(o) == "";
    WideIdentifier(o.terminalState);
    if o.safeFailureClass.Some? { WideIdentifier(o.safeFailureClass.value); }
  }

  lemma {:induction false} ValidTexts(obs: seq<Observation>)
    requires AllValid(obs)
    ensures forall v | v in Map(TerminalOf, obs) :: IsIdentifier(v, 192)
    ensures forall v | v in Collect(FailuresOf, obs) :: IsIdentifier(v, 192)
  {
    hide ValidObservation, IsIdentifier;
    forall o | o in obs
        ensures IsIdentifier(o.terminalState, 192) && (forall v | v in FailuresOf(o) :: IsIdentifier(v, 192)) {
      ValidFacts(o);
    }
    forall v | v in Map(TerminalOf, obs) ensures IsIdentifier(v, 192) {
      var i :| 0 <= i < |obs| && TerminalOf(obs[i]) == v;
      assert obs[i] in obs;
    }
    forall v | v in Collect(FailuresOf, obs) ensures IsIdentifier(v, 192) {
      CollectMember(FailuresOf, obs, v);
      var i :| 0 <= i < |obs| && v in FailuresOf(obs[i]);
      assert obs[i] in obs;
    }
  }

  lemma {:induction false} ValidCounts(obs: seq<Observation>)
    requires AllValid(obs)
    ensures NonNegative(Map(InvocationsOf, obs)) && NonNegative(Map(DraftsOf, obs)) &&
        NonNegative(Map(RevisionsOf, obs))
    ensures forall d | d in Collect(DurationsOf, obs) :: d >= 0
  {
    hide ValidObservation;
    forall o | o in obs
      ensures o.invocationCount >= 0 && o.draftGenerationCount >= 0 && o.revisionCount >= 0 && o.durationMs >= 0
    {
      ValidFacts(o);
    }
    forall i | 0 <= i < |obs|
      ensures InvocationsOf(obs[i]) >= 0 && DraftsOf(obs[i]) >= 0 && RevisionsOf(obs[i]) >= 0
    {
      assert obs[i] in obs;
    }
    forall d | d in Collect(DurationsOf, obs) ensures d >= 0 {
      CollectMember(DurationsOf, obs, d);
      var i :| 0 <= i < |obs| && d in DurationsOf(obs[i]);
      assert obs[i] in obs;
    }
  }

  lemma {:induction false} StatisticsNonNegative(values: seq<int>)
    requires forall v | v in values :: v >= 0
    ensures Min(values).GetOr(0) >= 0 && Max(values).GetOr(0) >= 0
    ensures NearestRankP95(values).GetOr(0) >= 0 && Median(values).GetOr(WholeMedian(0)).Number() >= 0.0
  {
    if values != [] {
      StatisticsOrdered(values);
      MinIsLeast(values);
    }
  }

  lemma {:induction false} UnsortedWellFormed(obs: seq<Observation>)
    requires obs != [] && AllValid(obs)
    ensures WellFormedSummary(UnsortedSummary(obs))
    ensures SortedSummary(UnsortedSummary(obs)) == OperatingSummary(obs)
  {
    hide ValidObservation, SortedItems, WellFormedPairs, Min, Max, Median, NearestRankP95;
    ValidTexts(obs);
    ItemsWellFormed(Map(TerminalOf, obs));
    ItemsWellFormed(Collect(FailuresOf, obs));
    ValidCounts(obs);
    StatisticsNonNegative(Collect(DurationsOf, obs));
  }

  lemma {:induction false} NumberColumn(column: Observation -> Json, number: Observation -> int, obs: seq<Observation>)
    requires forall o | o in obs :: column(o) == JInt(number(o)) && number(o) >= 0
    ensures Map(column, obs) == StoredInts(Map(number, obs)) && AllCounts(Map(column, obs))
  {
    forall i | 0 <= i < |obs| ensures IsCount(Map(column, obs)[i], 0) { assert obs[i] in obs; }
  }

  lemma {:induction false} DurationsRead(obs: seq<Observation>)
    requires AllValid(obs)
    ensures AllCounts(Collect(DurationNumbers, obs))
    ensures Map(IntegerOf, Collect(DurationNumbers, obs)) == Collect(DurationsOf, obs)
  {
    hide ValidObservation;
    if obs != [] {
      ValidFacts(obs[0]);
      DurationsRead(obs[1..]);
      var head, rest := DurationNumbers(obs[0]), Collect(DurationNumbers, obs[1..]);
      MapAppend(IntegerOf, head, rest);
      assert Map(IntegerOf, head) == DurationsOf(obs[0]);
      assert AllCounts(head + rest) by { assert forall v | v in head + rest :: v in head || v in rest; }
    }
  }

  lemma {:induction false} ColumnsAccepted(obs: seq<Observation>)
    requires AllValid(obs)
    ensures ColumnError(StoredTrialsOf(obs)) == ""
    ensures Values("invocation_count", StoredTrialsOf(obs)) == StoredInts(Map(InvocationsOf, obs))
    ensures Values("draft_generation_count", StoredTrialsOf(obs)) == StoredInts(Map(DraftsOf, obs))
    ensures Values("revision_count", StoredTrialsOf(obs)) == StoredInts(Map(RevisionsOf, obs))
  {
    hide ValidObservation, ObservationFields;
    forall o | o in obs
      ensures InvocationsOf(o) >= 0 && DraftsOf(o) >= 0 && RevisionsOf(o) >= 0
    {
      ValidFacts(o);
    }
    StatusColumn(obs);
    InvocationColumn(obs);
    DraftColumn(obs);
    RevisionColumn(obs);
    DurationColumn(obs);
    NumberColumn(InvocationNumber, InvocationsOf, obs);
    NumberColumn(DraftNumber, DraftsOf, obs);
    NumberColumn(RevisionNumber, RevisionsOf, obs);
    DurationsRead(obs);
    forall v | v in Map(StatusText, obs) ensures Hashable(v) {}
  }

  lemma {:induction false} StatusesRead(obs: seq<Observation>)
    ensures var s, trials := OperatingSummary(obs), StoredTrialsOf(obs);
      && StatusCount(trials, "completed") == JInt(s.completedCount)
      && StatusCount(trials, "insufficient") == JInt(s.insufficientCount)
      && StatusCount(trials, "blocked") == JInt(s.blockedCount)
      && StatusCount(trials, "failed") == JInt(s.failedCount)
      && StatusCount(trials, "unavailable") == JInt(s.unavailableCount)
  {
    hide StatusCount, StoredTrialsOf, SortedItems, Min, Max, Median, NearestRankP95, Sorted, Collect, Map;
    StatusCounts(obs, Completed);
    StatusCounts(obs, Insufficient);
    StatusCounts(obs, Blocked);
    StatusCounts(obs, Failed);
    StatusCounts(obs, Unavailable);
  }

  lemma {:induction false} MeasuredRead(obs: seq<Observation>)
    requires AllValid(obs)
    ensures Map(IntegerOf, Collect(MeasuredDuration, StoredTrialsOf(obs))) == Collect(DurationsOf, obs)
  {
    hide ValidObservation, StoredTrialsOf, MeasuredDuration, DurationsOf, DurationNumbers, Map, Collect;
    DurationColumn(obs);
    DurationsRead(obs);
  }

  lemma {:induction false} RawIsStored(obs: seq<Observation>)
    requires AllValid(obs)
    ensures RawFromTrials(StoredTrialsOf(obs), OperatingSummary(obs).terminalStates, OperatingSummary(obs).safeFailures)
         == StoredSummary(UnsortedSummary(obs))
  {
    hide AllValid, StoredTrialsOf, SortedItems, Min, Max, Median, NearestRankP95, StatusCount, Values, Collect, Map,
        Sorted,
         StoredInts, StoredPairs, ColumnError;
    ColumnsAccepted(obs);
    MeasuredRead(obs);
    StatusesRead(obs);
    StoredLength(obs);
  }

  lemma {:induction false} StoredLength(obs: seq<Observation>)
    ensures |StoredTrialsOf(obs)| == |obs|
  {}

  /** The regenerated summary is the operating summary. */
  lemma {:induction false} SummaryAgrees(p: Platform, obs: seq<Observation>)
    requires obs != [] && AllValid(obs)
    ensures SummaryFromTrials(p, StoredTrialsOf(obs)) == Ok(OperatingSummary(obs))
  {
    hide ValidObservation, ObservationFields, SortedItems, PairCounts, ColumnError, RawFromTrials, StoredSummary,
        SortedSummary,
         NewSummary, WellFormedSummary;
    ColumnsAccepted(obs);
    TerminalColumn(obs);
    FailureColumn(obs);
    TextPairs(p, Map(TerminalText, obs), Map(TerminalOf, obs));
    PresentFailures(obs);
    TextPairs(p, Filter(IsPresent, Map(FailureText, obs)), Collect(FailuresOf, obs));
    RawIsStored(obs);
    UnsortedWellFormed(obs);
    SummaryRoundTrip(UnsortedSummary(obs));
  }

  // ---------------------------------------------------------------- routes

  /** A route binding as D139 holds it. */
  function IdentityOf(b: RouteBinding): RouteIdentity {
    RouteIdentity(b.key.taskKind.Value(), b.key.adapterId, b.key.modelId, b.key.profileId, b.laneTrialCount,
        b.invokedTrialCount)
  }

  function StoredKey(k: RouteKey): TrialKey {
    TrialKey(k.taskKind.Value(), k.adapterId, k.modelId, OptionalText(k.profileId))
  }

  function StoredKeysOf(o: Observation): seq<TrialKey> { Map(StoredKey, KeysOf(o)) }

  lemma {:induction false} StoredKeyInjective(a: RouteKey, b: RouteKey)
    requires StoredKey(a) == StoredKey(b)
    ensures a == b
  {
    TaskKindValues(a.taskKind, b.taskKind);
  }

  lemma {:induction false} TrialRead(o: Observation)
    requires ValidObservation(o)
    ensures TrialError(ObservationFields(o)) == "" && TrialKeys(ObservationFields(o)) == StoredKeysOf(o)
  {
    ReadIdentity(o);
    ReadBinding(o);
    ReadInvocations(o);
    ValidFacts(o);
    ValidObservationBinding(o);
    hide ValidObservation, ObservationFields;
    if Invoked(o) { assert KeysOf(o) == [KeyOf(o)]; }
  }

  lemma {:induction false} NoTrialError(obs: seq<Observation>)
    requires AllValid(obs)
    ensures FirstTrialError(StoredTrialsOf(obs)) == ""
  {
    hide ValidObservation, ObservationFields, TrialError;
    if obs != [] {
      TrialRead(obs[0]);
      NoTrialError(obs[1..]);
      assert StoredTrialsOf(obs)[1..] == StoredTrialsOf(obs[1..]);
    }
  }

  lemma {:induction false} MapCollect<A, B, C>(f: A -> seq<B>, g: B -> C, h: A -> seq<C>, xs: seq<A>)
    requires forall x | x in xs :: h(x) == Map(g, f(x))
    ensures Collect(h, xs) == Map(g, Collect(f, xs))
  {
    if xs != [] {
      MapCollect(f, g, h, xs[1..]);
      MapAppend(g, f(xs[0]), Collect(f, xs[1..]));
    }
  }

  lemma {:induction false} MapAppend<A, B>(f: A -> B, xs: seq<A>, ys: seq<A>)
    ensures Map(f, xs + ys) == Map(f, xs) + Map(f, ys)
  {}

  lemma {:induction false} KeysRead(obs: seq<Observation>)
    requires AllValid(obs)
    ensures Collect(TrialKeys, StoredTrialsOf(obs)) == Map(StoredKey, InvokedKeys(obs))
  {
    hide ValidObservation, ObservationFields;
    forall o | o in obs ensures TrialKeys(ObservationFields(o)) == StoredKeysOf(o) { TrialRead(o); }
    CollectOfMap(ObservationFields, TrialKeys, StoredKeysOf, obs);
    MapCollect(KeysOf, StoredKey, StoredKeysOf, obs);
  }

  lemma {:induction false} MapMembership<A, B>(f: A -> B, xs: seq<A>, x: A)
    requires forall y | y in xs && f(y) == f(x) :: y == x
    ensures f(x) in Map(f, xs) <==> x in xs
  {
    if x in xs { MapMember(f, xs, x); }
  }

  lemma {:induction false} DedupMap<A, B>(f: A -> B, xs: seq<A>)
    requires forall x, y | x in xs && y in xs && f(x) == f(y) :: x == y
    ensures Dedup(Map(f, xs)) == Map(f, Dedup(xs))
  {
    if xs != [] {
      var n := |xs| - 1;
      var front, last := xs[..n], xs[n];
      assert xs == front + [last];
      assert Map(f, xs)[..n] == Map(f, front);
      DedupMap(f, front);
      MapMembership(f, Dedup(front), last);
      MapAppend(f, Dedup(front), [last]);
    }
  }

  lemma {:induction false} SortedOfMap<A, B>(f: A -> B, la: (A, A) -> bool, lb: (B, B) -> bool, xs: seq<A>)
    requires forall x, y :: lb(f(x), f(y)) == la(x, y)
    ensures Sorted(lb, Map(f, xs)) == Map(f, Sorted(la, xs))
  {
    if xs != [] {
      SortedOfMap(f, la, lb, xs[1..]);
      assert Map(f, xs) == [f(xs[0])] + Map(f, xs[1..]);
      InsertOfMap(f, la, lb, xs[0], Sorted(la, xs[1..]));
    }
  }

  lemma {:induction false} InsertOfMap<A, B>(f: A -> B, la: (A, A) -> bool, lb: (B, B) -> bool, x: A, xs: seq<A>)
    requires forall x, y :: lb(f(x), f(y)) == la(x, y)
    ensures Insert(lb, f(x), Map(f, xs)) == Map(f, Insert(la, x, xs))
  {
    if xs != [] && !la(x, xs[0]) {
      InsertOfMap(f, la, lb, x, xs[1..]);
      assert Map(f, xs)[1..] == Map(f, xs[1..]);
      MapAppend(f, [xs[0]], Insert(la, x, xs[1..]));
    } else {
      MapAppend(f, [x], xs);
    }
  }

  lemma {:induction false} LaneTextsRead(p: Platform, obs: seq<Observation>, k: TaskKind)
    ensures multiset(LaneTexts(p, StoredTrialsOf(obs)))[k.Value()] == multiset(Kinds(obs))[k]
  {
    hide ObservationFields;
    var text := (t: Trial) => PythonText(p, Get(t, "task_kind"));
    forall o: Observation ensures text(ObservationFields(o)) == KindValue(o) { ReadIdentity(o); }
    MapOfMap(ObservationFields, text, KindValue, obs);
    MapOfMap(KindOf, (x: TaskKind) => x.Value(), KindValue, obs);
    forall x: TaskKind | x.Value() == k.Value() ensures x == k { TaskKindValues(x, k); }
    CountThrough((x: TaskKind) => x.Value(), Kinds(obs), k);
  }

  lemma {:induction false} BindingAccepted(b: RouteBinding)
    requires RouteBindingError(b) == ""
    ensures RouteOf(StoredKey(b.key), b.laneTrialCount, b.invokedTrialCount) == Ok(IdentityOf(b))
  {
    WideIdentifier(b.key.adapterId);
    WideIdentifier(b.key.modelId);
    if b.key.profileId.Some? { WideIdentifier(b.key.profileId.value); }
    KindIsName(b.key.taskKind);
  }

  lemma {:induction false} KindIsName(k: TaskKind)
    ensures IsIdentifier(k.Value(), 192)
  {}

  lemma {:induction false} AllAccepted<A, B>(rs: seq<Result<B>>, f: A -> B, xs: seq<A>)
    requires |rs| == |xs| && forall i | 0 <= i < |xs| :: rs[i] == Ok(f(xs[i]))
    ensures AllOrFirst(rs) == Ok(Map(f, xs))
  {
    if xs != [] {
      AllAccepted(rs[1..], f, xs[1..]);
      assert rs[0] == Ok(f(xs[0]));
    }
  }

  lemma {:induction false} NoBindingError(bindings: seq<RouteBinding>, i: nat)
    requires FirstBindingError(bindings) == "" && i < |bindings|
    ensures RouteBindingError(bindings[i]) == ""
  {
    if i > 0 { NoBindingError(bindings[1..], i - 1); }
  }

  lemma {:induction false} GroupsRead(p: Platform, obs: seq<Observation>)
    requires AllValid(obs) && AuthorizedRouteBindings(obs).Ok?
    ensures var keys := Collect(TrialKeys, StoredTrialsOf(obs));
      AllOrFirst(RoutesOf(Dedup(keys), multiset(LaneTexts(p, StoredTrialsOf(obs))), multiset(keys)))
      == Ok(Map(IdentityOf, GroupedBindings(obs)))
  {
    hide ValidObservation, ObservationFields, RouteBindingError, RouteOf, LaneTexts, NewRoute;
    var trials := StoredTrialsOf(obs);
    var plain := InvokedKeys(obs);
    var keys := Collect(TrialKeys, trials);
    KeysRead(obs);
    forall x, y: RouteKey | StoredKey(x) == StoredKey(y) ensures x == y { StoredKeyInjective(x, y); }
    DedupMap(StoredKey, plain);
    var all := GroupedBindings(obs);
    var results := RoutesOf(Dedup(keys), multiset(LaneTexts(p, trials)), multiset(keys));
    forall i | 0 <= i < |all| ensures results[i] == Ok(IdentityOf(all[i])) {
      NoBindingError(all, i);
      LaneTextsRead(p, obs, all[i].key.taskKind);
      CountThrough(StoredKey, plain, all[i].key);
      BindingAccepted(all[i]);
    }
    AllAccepted(results, IdentityOf, all);
  }

  /** The regenerated routes are the authorized route bindings. */
  lemma {:induction false} RoutesAgree(p: Platform, obs: seq<Observation>)
    requires AllValid(obs) && AuthorizedRouteBindings(obs).Ok?
    ensures RoutesFromTrials(p, StoredTrialsOf(obs)) == Ok(Map(IdentityOf, AuthorizedRouteBindings(obs).value))
  {
    hide ValidObservation, ObservationFields, RouteBindingError, LaneTexts, RoutesOf, GroupedBindings;
    NoTrialError(obs);
    GroupsRead(p, obs);
    SortedOfMap(IdentityOf, BindingLeq, RouteLeq, GroupedBindings(obs));
  }

  // ---------------------------------------------------------------- hard gates

  lemma {:induction false} GatesRead(o: Observation)
    ensures Iterated(Get(ObservationFields(o), "hard_gate_failures")) == Some(Map(Text, o.hardGateFailures))
  {
    ReadGates(o);
  }

  function GateTexts(o: Observation): seq<Json> { Map(Text, o.hardGateFailures) }

  /** The regenerated hard gates are the hard-gate failures of the observations. */
  lemma {:induction false} GatesAgree(obs: seq<Observation>)
    ensures GatesFromTrials(StoredTrialsOf(obs)) == Ok(HardGateFailures(obs))
  {
    hide ObservationFields, Sorted, Dedup, StrLeq, Iterated;
    var trials := StoredTrialsOf(obs);
    forall o: Observation ensures GateValues(ObservationFields(o)) == GateTexts(o) { GatesRead(o); }
    CollectOfMap(ObservationFields, GateValues, GateTexts, obs);
    MapCollect(GatesOf, Text, GateTexts, obs);
    var values, texts := Collect(GateValues, trials), Collect(GatesOf, obs);
    assert AreTexts(values, texts);
    AllTexts(values, texts);
    forall t | t in trials ensures Iterated(Get(t, "hard_gate_failures")).Some? {
      var i :| 0 <= i < |trials| && trials[i] == t;
      GatesRead(obs[i]);
    }
  }

  lemma {:induction false} AllTexts(values: seq<Json>, texts: seq<string>)
    requires AreTexts(values, texts)
    ensures forall v | v in values :: v.JStr? && Hashable(v)
    ensures Map(TextOf, values) == texts
  {}

  lemma {:induction false} OfficialGatesRead(gates: seq<string>)
    requires IsSorted(StrLeq, gates)
    ensures OfficialGates(TextArray(gates)) == Ok(Some(gates))
  {
    var values := Map(Text, gates);
    assert AreTexts(values, gates);
    AllTexts(values, gates);
    SortedFixpoint(StrLeq, gates);
  }

  lemma {:induction false} DedupDistinct<A>(xs: seq<A>)
    requires Distinct(xs)
    ensures Dedup(xs) == xs
  {
    if xs != [] {
      var n := |xs| - 1;
      assert xs == xs[..n] + [xs[n]];
      DedupDistinct(xs[..n]);
      assert xs[n] !in xs[..n];
    }
  }

  /** The failures come out sorted, without repeats and in the governance identifier format. */
  lemma {:induction false} GatesNormal(obs: seq<Observation>)
    requires AllValid(obs)
    ensures IsSorted(StrLeq, HardGateFailures(obs))
    ensures Sorted(StrLeq, Dedup(HardGateFailures(obs))) == HardGateFailures(obs)
    ensures forall g | g in HardGateFailures(obs) :: IsIdentifier(g, 192)
  {
    hide ValidObservation;
    var all := Collect(GatesOf, obs);
    var gates := HardGateFailures(obs);
    StrOrder();
    SortedIsSortedPermutation(StrLeq, Dedup(all));
    DistinctPermutation(Dedup(all), gates);
    DedupDistinct(gates);
    SortedFixpoint(StrLeq, gates);
    SortedMembers(StrLeq, Dedup(all));
    forall g | g in gates ensures IsIdentifier(g, 192) {
      CollectMember(GatesOf, obs, g);
      var i :| 0 <= i < |obs| && g in GatesOf(obs[i]);
      assert obs[i] in obs;
      ValidFacts(obs[i]);
      PropertyNameIsIdentifier(g);
    }
  }

  lemma {:induction false} PropertyNameIsIdentifier(s: string)
    requires IsPropertyName(s)
    ensures IsIdentifier(s, 192)
  {}
}
