/** What a confirmed run proves: for the trial files of a measured run the five integrity flags hold
    exactly when every official artifact is the measured one, up to order. */
module EvidenceIntegrity {
  import opened BenchmarkContracts
  import opened CanonicalJson
  import opened GovernanceContracts
  import opened LaneCompleteness
  import opened OperatingSummaries
  import opened Ordering
  import opened PythonEquality
  import opened Regeneration
  import opened RegenerationTheorem
  import opened Results
  import opened RouteGrouping
  import opened RunEvidence
  import opened Sequences
  import opened StoredTrials

  // ---------------------------------------------------------------- reordered lists

  /** Sorting with no ties forgets the order, and nothing else. */
  lemma {:induction false} SortedAgree<T(!new)>(leq: (T, T) -> bool, xs: seq<T>, ys: seq<T>)
    requires TotalPreorder(leq)
    requires forall x, y | x in ys && y in ys && leq(x, y) && leq(y, x) :: x == y
    ensures Sorted(leq, xs) == Sorted(leq, ys) <==> multiset(xs) == multiset(ys)
  {
    SortedPermutes(leq, xs);
    SortedPermutes(leq, ys);
    if multiset(xs) == multiset(ys) { SortedPermutationInvariant(leq, ys, xs); }
  }

  /** A list related entry by entry to one arrangement can be rearranged to match another. */
  lemma {:induction false} Realign<A, B>(q: (A, B) -> bool, xs: seq<A>, ys: seq<B>, zs: seq<B>) returns (xs': seq<A>)
    requires Pairwise(q, xs, ys) && multiset(ys) == multiset(zs)
    ensures multiset(xs') == multiset(xs) && Pairwise(q, xs', zs)
    decreases |zs|
  {
    PermutationMembers(ys, zs);
    if zs == [] {
      xs' := [];
    } else {
      assert zs[0] in ys;
      var k :| 0 <= k < |ys| && ys[k] == zs[0];
      DropPair(q, xs, ys, zs, k);
      var rest := Realign(q, xs[..k] + xs[k + 1..], ys[..k] + ys[k + 1..], zs[1..]);
      xs' := [xs[k]] + rest;
      RemoveAt(xs, k);
      ConsMultiset(xs[k], rest);
      PairFirst(q, xs[k], rest, zs);
    }
  }

  lemma {:induction false} DropPair<A, B>(q: (A, B) -> bool, xs: seq<A>, ys: seq<B>, zs: seq<B>, k: nat)
    requires Pairwise(q, xs, ys) && multiset(ys) == multiset(zs)
    requires k < |ys| && zs != [] && ys[k] == zs[0]
    ensures q(xs[k], zs[0]) && Pairwise(q, xs[..k] + xs[k + 1..], ys[..k] + ys[k + 1..])
    ensures multiset(ys[..k] + ys[k + 1..]) == multiset(zs[1..])
  {
    RemoveAt(ys, k);
    UnconsMultiset(zs);
    PairwiseJoin(q, xs[..k], xs[k + 1..], ys[..k], ys[k + 1..]);
  }

  lemma {:induction false} PairFirst<A, B>(q: (A, B) -> bool, x: A, rest: seq<A>, zs: seq<B>)
    requires zs != [] && q(x, zs[0]) && Pairwise(q, rest, zs[1..])
    ensures Pairwise(q, [x] + rest, zs)
  {
    assert [zs[0]] + zs[1..] == zs;
    PairwiseJoin(q, [x], rest, [zs[0]], zs[1..]);
  }

  lemma {:induction false} InsertTogether<A>(
      q: (A, A) -> bool, leq: (A, A) -> bool, x: A, y: A, xs: seq<A>, ys: seq<A>)
    requires q(x, y) && Pairwise(q, xs, ys)
    requires forall i | 0 <= i < |xs| :: leq(x, xs[i]) == leq(y, ys[i])
    ensures Pairwise(q, Insert(leq, x, xs), Insert(leq, y, ys))
  {
    if xs == [] || leq(x, xs[0]) {
      PairwiseJoin(q, [x], xs, [y], ys);
    } else {
      InsertTogether(q, leq, x, y, xs[1..], ys[1..]);
      PairwiseJoin(q, [xs[0]], Insert(leq, x, xs[1..]), [ys[0]], Insert(leq, y, ys[1..]));
    }
  }

  /** Related lists are sorted alike. */
  lemma {:induction false} SortedTogether<A(!new)>(
      q: (A, A) -> bool, leq: (A, A) -> bool, xs: seq<A>, ys: seq<A>)
    requires Pairwise(q, xs, ys)
    requires forall a, b, c, d | q(a, b) && q(c, d) :: leq(a, c) == leq(b, d)
    ensures Pairwise(q, Sorted(leq, xs), Sorted(leq, ys))
  {
    if xs != [] {
      SortedTogether(q, leq, xs[1..], ys[1..]);
      InsertTogether(q, leq, xs[0], ys[0], Sorted(leq, xs[1..]), Sorted(leq, ys[1..]));
    }
  }

  // ---------------------------------------------------------------- Python's == on trials

  lemma {:induction false} EqualArrays(xs: seq<Json>, ys: seq<Json>)
    ensures PythonEqual(JArr(xs), JArr(ys)) <==> Pairwise(PythonEqual, xs, ys)
  {
    var a, b := SortItems(ItemsAsInts(xs)), SortItems(ItemsAsInts(ys));
    assert PythonEqual(JArr(xs), JArr(ys)) <==> a == b;
    if Pairwise(PythonEqual, xs, ys) {
      forall i | 0 <= i < |a| ensures a[i] == b[i] { PairAt(PythonEqual, xs, ys, i); }
    }
    if a == b {
      assert |xs| == |ys|;
      forall i | 0 <= i < |xs| ensures PythonEqual(xs[i], ys[i]) { assert a[i] == b[i]; }
    }
  }

  lemma {:induction false} EqualShapes(v: Json, w: Json)
    requires PythonEqual(v, w)
    ensures v.JObj? <==> w.JObj?
    ensures w.JStr? ==> v == w
  {}

  lemma {:induction false} GetAt(fields: seq<Field>, key: string) returns (i: nat)
    requires HasKey(fields, key)
    ensures i < |fields| && fields[i].key == key && Get(fields, key) == fields[i].value
  {
    if fields[0].key == key {
      i := 0;
    } else {
      i := GetAt(fields[1..], key);
      i := i + 1;
    }
  }

  /** A dictionary equal to one with unique keys holds the same texts. */
  lemma {:induction false} EqualText(t: seq<Field>, u: seq<Field>, key: string)
    requires PythonEqual(JObj(t), JObj(u)) && UniqueKeys(JObj(u)) && HasKey(u, key) && Get(u, key).JStr?
    ensures HasKey(t, key) && Get(t, key) == Get(u, key)
  {
    hide Sorted, UniqueKeys, Get;
    var a, b := SortValues(ValuesAsInts(t)), SortValues(ValuesAsInts(u));
    assert Sorted(FieldLeq, a) == Sorted(FieldLeq, b);
    SortedMembers(FieldLeq, a);
    SortedMembers(FieldLeq, b);
    var j := GetAt(u, key);
    assert b[j] in a;
    var k :| 0 <= k < |a| && a[k] == b[j];
    assert t[k].key == key;
    var i := GetAt(t, key);
    assert a[i] in b;
    var l :| 0 <= l < |b| && b[l] == a[i];
    assert u[l].key == u[j].key;
    OnlyKey(u, j, l);
    assert PythonEqual(t[i].value, u[j].value);
    EqualShapes(t[i].value, u[j].value);
  }

  lemma {:induction false} OnlyKey(u: seq<Field>, i: nat, j: nat)
    requires UniqueKeys(JObj(u)) && i < |u| && j < |u| && u[i].key == u[j].key
    ensures i == j
  {}

  // ---------------------------------------------------------------- the aggregate

  /** A dictionary without repeated keys that holds what `w` holds. */
  ghost predicate SameDictionary(v: Json, w: Json) { UniqueKeys(v) && EqualValues(v, w) }

  /** The official aggregate holds one such dictionary for each measured trial, and nothing else. */
  ghost predicate AggregateIs(obs: seq<Observation>, aggregate: seq<Json>) {
    exists listed ::
      multiset(listed) == multiset(aggregate) && Pairwise(SameDictionary, listed, Map(StoredObservation, obs))
  }

  /** The same through Python's `==`. */
  ghost predicate AggregateEquals(obs: seq<Observation>, aggregate: seq<Json>) {
    exists listed ::
      multiset(listed) == multiset(aggregate) && Pairwise(PythonEqual, listed, Map(StoredObservation, obs))
  }

  lemma {:induction false} StoredEqual(v: Json, o: Observation)
    ensures PythonEqual(v, StoredObservation(o)) <==> SameDictionary(v, StoredObservation(o))
  {
    hide PythonEqual, EqualValues, UniqueKeys, ObservationFields;
    StoredKeysUnique(o);
    if PythonEqual(v, StoredObservation(o)) { PythonEqualUnique(v, StoredObservation(o)); }
    if UniqueKeys(v) { PythonEqualExact(v, StoredObservation(o)); }
  }

  lemma {:induction false} ListedEqual(obs: seq<Observation>, listed: seq<Json>)
    ensures Pairwise(PythonEqual, listed, Map(StoredObservation, obs)) <==>
            Pairwise(SameDictionary, listed, Map(StoredObservation, obs))
  {
    hide PythonEqual, SameDictionary, ObservationFields;
    if |listed| == |obs| {
      forall i | 0 <= i < |obs|
        ensures PythonEqual(listed[i], StoredObservation(obs[i])) <==>
                SameDictionary(listed[i], StoredObservation(obs[i]))
      {
        StoredEqual(listed[i], obs[i]);
      }
    }
  }

  lemma {:induction false} AggregateByValues(obs: seq<Observation>, aggregate: seq<Json>)
    ensures AggregateEquals(obs, aggregate) <==> AggregateIs(obs, aggregate)
  {
    hide Pairwise, SameDictionary, PythonEqual, StoredObservation;
    if AggregateEquals(obs, aggregate) {
      var listed :|
        multiset(listed) == multiset(aggregate) && Pairwise(PythonEqual, listed, Map(StoredObservation, obs));
      ListedEqual(obs, listed);
    }
    if AggregateIs(obs, aggregate) {
      var listed :|
        multiset(listed) == multiset(aggregate) && Pairwise(SameDictionary, listed, Map(StoredObservation, obs));
      ListedEqual(obs, listed);
    }
  }

  lemma {:induction false} EqualKey(p: Platform, t: Trial, o: Observation)
    requires PythonEqual(JObj(t), StoredObservation(o))
    ensures AggregateKey(p, t) == [o.caseId, o.trialId]
  {
    hide ObservationFields, PythonEqual, UniqueKeys;
    StoredKeysUnique(o);
    HasIdentityKeys(o);
    ReadIdentity(o);
    EqualText(t, ObservationFields(o), "case_id");
    EqualText(t, ObservationFields(o), "trial_id");
  }

  /** Equal dictionaries in the same place of the order. */
  function SameTrial(p: Platform): (Trial, Trial) -> bool {
    (a: Trial, b: Trial) => PythonEqual(JObj(a), JObj(b)) && AggregateKey(p, a) == AggregateKey(p, b)
  }

  lemma {:induction false} ListedTrials(p: Platform, obs: seq<Observation>, listed: seq<Json>)
    requires Pairwise(PythonEqual, listed, Map(StoredObservation, obs))
    ensures forall v | v in listed :: v.JObj?
    ensures Pairwise(SameTrial(p), Map(FieldsOf, listed), StoredTrialsOf(obs))
    ensures forall i | 0 <= i < |obs| :: AggregateKey(p, Map(FieldsOf, listed)[i]) == [obs[i].caseId, obs[i].trialId]
  {
    hide ObservationFields, PythonEqual, AggregateKey;
    forall i | 0 <= i < |obs|
      ensures listed[i].JObj? && SameTrial(p)(Map(FieldsOf, listed)[i], StoredTrialsOf(obs)[i])
      ensures AggregateKey(p, Map(FieldsOf, listed)[i]) == [obs[i].caseId, obs[i].trialId]
    {
      PairAt(PythonEqual, listed, Map(StoredObservation, obs), i);
      EqualShapes(listed[i], StoredObservation(obs[i]));
      EqualKey(p, FieldsOf(listed[i]), obs[i]);
      AggregateKeyRead(p, obs[i]);
    }
  }

  lemma {:induction false} ListedNoTies(p: Platform, obs: seq<Observation>, trials: seq<Trial>, a: Trial, b: Trial)
    requires UniqueTrials(obs) && |trials| == |obs|
    requires forall i | 0 <= i < |obs| :: AggregateKey(p, trials[i]) == [obs[i].caseId, obs[i].trialId]
    requires a in trials && b in trials && AggregateLeq(p)(a, b) && AggregateLeq(p)(b, a)
    ensures a == b
  {
    hide AggregateKey;
    var i :| 0 <= i < |trials| && trials[i] == a;
    var j :| 0 <= j < |trials| && trials[j] == b;
    KeyOrder();
    assert [obs[i].caseId, obs[i].trialId] == [obs[j].caseId, obs[j].trialId];
    assert [obs[i].caseId, obs[i].trialId][0] == obs[j].caseId;
    assert [obs[i].caseId, obs[i].trialId][1] == obs[j].trialId;
    assert Map(IdOf, obs)[i] == Map(IdOf, obs)[j];
  }

  lemma {:induction false} AggregateAccepted(p: Platform, obs: seq<Observation>, aggregate: seq<Json>)
    requires UniqueTrials(obs) && AggregateEquals(obs, aggregate)
    ensures forall v | v in aggregate :: v.JObj?
    ensures PythonEqual(Aggregate(p, StoredTrialsOf(obs)), Aggregate(p, Map(FieldsOf, aggregate)))
  {
    hide ObservationFields, PythonEqual, AggregateKey, Sorted;
    var listed :|
      multiset(listed) == multiset(aggregate) && Pairwise(PythonEqual, listed, Map(StoredObservation, obs));
    var trials, official := Map(FieldsOf, listed), Map(FieldsOf, aggregate);
    ListedTrials(p, obs, listed);
    PermutationMembers(listed, aggregate);
    KeyOrder();
    forall x, y | x in trials && y in trials && AggregateLeq(p)(x, y) && AggregateLeq(p)(y, x) ensures x == y {
      ListedNoTies(p, obs, trials, x, y);
    }
    MapPermutation(FieldsOf, listed, aggregate);
    SortedPermutationInvariant(AggregateLeq(p), trials, official);
    SortedTogether(SameTrial(p), AggregateLeq(p), trials, StoredTrialsOf(obs));
    EqualAggregates(p, official, StoredTrialsOf(obs));
  }

  lemma {:induction false} EqualAggregates(p: Platform, a: seq<Trial>, b: seq<Trial>)
    requires Pairwise(SameTrial(p), Sorted(AggregateLeq(p), a), Sorted(AggregateLeq(p), b))
    ensures PythonEqual(Aggregate(p, b), Aggregate(p, a))
  {
    hide PythonEqual, AggregateKey, Sorted;
    var xs, ys := Aggregate(p, a).items, Aggregate(p, b).items;
    forall i | 0 <= i < |ys| ensures PythonEqual(ys[i], xs[i]) {
      PairAt(SameTrial(p), Sorted(AggregateLeq(p), a), Sorted(AggregateLeq(p), b), i);
      EqualSymmetric(xs[i], ys[i]);
    }
    EqualArrays(ys, xs);
  }

  lemma {:induction false} EqualSymmetric(v: Json, w: Json)
    ensures PythonEqual(v, w) <==> PythonEqual(w, v)
  {}

  lemma {:induction false} AggregateFound(p: Platform, obs: seq<Observation>, aggregate: seq<Json>)
    requires forall v | v in aggregate :: v.JObj?
    requires PythonEqual(Aggregate(p, StoredTrialsOf(obs)), Aggregate(p, Map(FieldsOf, aggregate)))
    ensures AggregateEquals(obs, aggregate)
  {
    hide ObservationFields, PythonEqual, AggregateLeq, Sorted;
    var measured := Sorted(AggregateLeq(p), StoredTrialsOf(obs));
    var official := Sorted(AggregateLeq(p), Map(FieldsOf, aggregate));
    SortedPermutes(AggregateLeq(p), StoredTrialsOf(obs));
    SortedPermutes(AggregateLeq(p), Map(FieldsOf, aggregate));
    var obs' := Unmap(ObservationFields, measured, obs);
    var listed := Unmap(FieldsOf, official, aggregate);
    PermutationMembers(listed, aggregate);
    var xs, ys := Aggregate(p, StoredTrialsOf(obs)).items, Aggregate(p, Map(FieldsOf, aggregate)).items;
    EqualArrays(xs, ys);
    forall i | 0 <= i < |listed| ensures PythonEqual(listed[i], Map(StoredObservation, obs')[i]) {
      assert listed[i] in listed;
      PairAt(PythonEqual, xs, ys, i);
      assert xs[i] == Map(StoredObservation, obs')[i] && ys[i] == listed[i];
      EqualSymmetric(xs[i], ys[i]);
    }
    MapPermutation(StoredObservation, obs', obs);
    listed := Realign(PythonEqual, listed, Map(StoredObservation, obs'), Map(StoredObservation, obs));
  }

  // ---------------------------------------------------------------- summary, ledger and routes

  /** The official summary is the stored form of one that, its lists sorted, equals `s`. */
  ghost predicate SummaryIs(raw: RawSummary, s: Summary) {
    exists listed :: WellFormedSummary(listed) && raw == StoredSummary(listed) && SameSummary(s, SortedSummary(listed))
  }

  lemma {:induction false} SummaryConfirmed(raw: RawSummary, s: Summary)
    ensures NewSummary(raw).Ok? && SameSummary(s, NewSummary(raw).value) <==> SummaryIs(raw, s)
  {
    hide NewSummary, WellFormedSummary, StoredSummary, SortedSummary, SameSummary;
    if NewSummary(raw).Ok? { SummaryAccepted(raw, NewSummary(raw).value); }
    if SummaryIs(raw, s) {
      var listed :| WellFormedSummary(listed) && raw == StoredSummary(listed) && SameSummary(s, SortedSummary(listed));
      SummaryAccepted(raw, SortedSummary(listed));
    }
  }

  /** The official ledger lists exactly these gates: a list of their texts or, through the
      iteration of Python, a text of one-letter gates or a dictionary keyed by them; anything false
      in Python stands for none. */
  ghost predicate LedgerIs(failures: Json, gates: seq<string>) {
    match failures
    case JArr(items) => multiset(items) == multiset(Map(Text, gates))
    case JStr(s) => multiset(seq(|s|, i requires 0 <= i < |s| => [s[i]])) == multiset(gates)
    case JObj(fields) => multiset(Map(FieldKey, fields)) == multiset(gates)
    case _ => failures in {JNull, JBool(false), JInt(0)} && gates == []
  }

  lemma {:induction false} LedgerIterates(failures: Json, gates: seq<string>)
    ensures LedgerIs(failures, gates) <==>
      Iterated(failures).Some? && multiset(Iterated(failures).value) == multiset(Map(Text, gates))
  {
    match failures
    case JStr(s) => LettersIterate(s, gates);
    case JObj(fields) => KeysIterate(fields, gates);
    case JArr(_) =>
    case _ => NothingIterates(failures, gates);
  }

  lemma {:induction false} LettersIterate(s: string, gates: seq<string>)
    ensures LedgerIs(JStr(s), gates) <==> multiset(Iterated(JStr(s)).value) == multiset(Map(Text, gates))
  {
    var letters := seq(|s|, i requires 0 <= i < |s| => [s[i]]);
    assert Iterated(JStr(s)).value == Map(Text, letters);
    TextsDecide(letters, gates);
  }

  lemma {:induction false} KeysIterate(fields: seq<Field>, gates: seq<string>)
    ensures LedgerIs(JObj(fields), gates) <==> multiset(Iterated(JObj(fields)).value) == multiset(Map(Text, gates))
  {
    assert Iterated(JObj(fields)).value == Map(Text, Map(FieldKey, fields));
    TextsDecide(Map(FieldKey, fields), gates);
  }

  lemma {:induction false} NothingIterates(v: Json, gates: seq<string>)
    requires !v.JArr? && !v.JStr? && !v.JObj?
    ensures v in {JNull, JBool(false), JInt(0)} && gates == [] <==>
      Iterated(v).Some? && multiset(Iterated(v).value) == multiset(Map(Text, gates))
  {
    if gates != [] { assert Map(Text, gates)[0] in multiset(Map(Text, gates)); }
  }

  /** Texts are a reordering of others exactly when their JSON is. */
  lemma {:induction false} TextsDecide(xs: seq<string>, ys: seq<string>)
    ensures multiset(Map(Text, xs)) == multiset(Map(Text, ys)) <==> multiset(xs) == multiset(ys)
  {
    if multiset(xs) == multiset(ys) { MapPermutation(Text, xs, ys); }
    if multiset(Map(Text, xs)) == multiset(Map(Text, ys)) {
      MapPermutation(TextOf, Map(Text, xs), Map(Text, ys));
      TextsAreTexts(xs);
      TextsAreTexts(ys);
    }
  }

  lemma {:induction false} LedgerConfirmed(failures: Json, gates: seq<string>)
    requires Sorted(StrLeq, gates) == gates
    ensures OfficialGates(failures) == Ok(Some(gates)) <==> LedgerIs(failures, gates)
  {
    hide OfficialGates, Iterated, LedgerIs, Sorted, ReadsAs;
    LedgerIterates(failures, gates);
    OfficialGatesOk(failures, gates);
    if Iterated(failures).Some? { TextsConfirmed(Iterated(failures).value, gates); }
  }

  ghost predicate ReadsAs(items: seq<Json>, gates: seq<string>) {
    (forall v | v in items :: v.JStr?) && Sorted(StrLeq, Map(TextOf, items)) == gates
  }

  lemma {:induction false} OfficialGatesOk(failures: Json, gates: seq<string>)
    ensures OfficialGates(failures) == Ok(Some(gates)) <==>
      Iterated(failures).Some? && ReadsAs(Iterated(failures).value, gates)
  {
    hide Sorted, Iterated, Map;
  }

  lemma {:induction false} TextsConfirmed(items: seq<Json>, gates: seq<string>)
    requires Sorted(StrLeq, gates) == gates
    ensures ReadsAs(items, gates) <==> multiset(items) == multiset(Map(Text, gates))
  {
    hide Sorted, Map, StrLeq;
    StrOrder();
    SortedAgree(StrLeq, Map(TextOf, items), gates);
    if multiset(items) == multiset(Map(Text, gates)) { ReadTexts(items, gates); }
    if ReadsAs(items, gates) { WrittenTexts(items, gates); }
  }

  lemma {:induction false} ReadTexts(items: seq<Json>, texts: seq<string>)
    requires multiset(items) == multiset(Map(Text, texts))
    ensures (forall v | v in items :: v.JStr?) && multiset(Map(TextOf, items)) == multiset(texts)
  {
    var written := Map(Text, texts);
    TextsAreTexts(texts);
    PermutationMembers(items, written);
    assert forall v | v in items :: v in written;
    MapPermutation(TextOf, items, written);
  }

  lemma {:induction false} TextsAreTexts(texts: seq<string>)
    ensures forall v | v in Map(Text, texts) :: v.JStr?
    ensures Map(TextOf, Map(Text, texts)) == texts
  {}

  lemma {:induction false} WrittenTexts(items: seq<Json>, texts: seq<string>)
    requires (forall v | v in items :: v.JStr?) && multiset(Map(TextOf, items)) == multiset(texts)
    ensures multiset(items) == multiset(Map(Text, texts))
  {
    var written := Map(Text, Map(TextOf, items));
    forall i | 0 <= i < |items| ensures written[i] == items[i] {
      assert items[i] in items;
    }
    assert written == items;
    MapPermutation(Text, Map(TextOf, items), texts);
  }

  function Accepted(r: RouteIdentity): Result<RouteIdentity> { Ok(r) }

  /** The official routes read as exactly these. */
  ghost predicate RoutesAre(routes: seq<Json>, measured: seq<RouteIdentity>) {
    multiset(Map(RouteFromJson, routes)) == multiset(Map(Accepted, measured))
  }

  lemma {:induction false} AllOrFirstOk<A>(rs: seq<Result<A>>)
    requires AllOrFirst(rs).Ok?
    ensures |rs| == |AllOrFirst(rs).value|
    ensures forall i | 0 <= i < |rs| :: rs[i] == Ok(AllOrFirst(rs).value[i])
  {
    if rs != [] { AllOrFirstOk(rs[1..]); }
  }

  lemma {:induction false} RoutesConfirmed(routes: seq<Json>, measured: seq<RouteIdentity>)
    requires Sorted(RouteLeq, measured) == measured
    requires forall a, b | a in measured && b in measured && RouteLeq(a, b) && RouteLeq(b, a) :: a == b
    ensures OfficialRoutes(routes) == Ok(measured) <==> RoutesAre(routes, measured)
  {
    hide Sorted, RouteFromJson, RouteLeq;
    var results := Map(RouteFromJson, routes);
    RoutePreorder();
    if AllOrFirst(results).Ok? {
      AllOrFirstOk(results);
      var read := AllOrFirst(results).value;
      assert results == Map(Accepted, read);
      SortedAgree(RouteLeq, read, measured);
      if OfficialRoutes(routes) == Ok(measured) { MapPermutation(Accepted, read, measured); }
    }
    if RoutesAre(routes, measured) {
      var read := Unmap(Accepted, results, measured);
      AllAccepted(results, (r: RouteIdentity) => r, read);
      assert Map((r: RouteIdentity) => r, read) == read;
      SortedAgree(RouteLeq, read, measured);
    }
  }

  lemma {:induction false} RoutePreorder()
    ensures TotalPreorder(RouteLeq)
  {
    KeyOrder();
  }

  lemma {:induction false} MeasuredNoTies(obs: seq<Observation>, a: RouteIdentity, b: RouteIdentity)
    requires AllValid(obs) && AuthorizedRouteBindings(obs).Ok?
    requires var routes := Map(IdentityOf, AuthorizedRouteBindings(obs).value); a in routes && b in routes
    requires RouteLeq(a, b) && RouteLeq(b, a)
    ensures a == b
  {
    hide ValidObservation, GroupedBindings;
    var bindings := AuthorizedRouteBindings(obs).value;
    var routes := Map(IdentityOf, bindings);
    var i :| 0 <= i < |routes| && routes[i] == a;
    var j :| 0 <= j < |routes| && routes[j] == b;
    SortedMembers(BindingLeq, GroupedBindings(obs));
    assert bindings[i] in bindings && bindings[j] in bindings;
    ValidProfiles(obs);
    GroupedNoTies(obs, bindings[i], bindings[j]);
  }

  // ---------------------------------------------------------------- the theorem

  /** The run identifies itself: manifest and run state hold the same five texts, in their formats,
      and the measurement identity reads. */
  ghost predicate Identified(run: Run) {
    && run.manifest == run.state && run.measurement.Ok?
    && run.state.baselineId.JStr? && IsIdentifier(run.state.baselineId.s, 192)
    && run.state.measurementCommit.JStr? && IsGitSha(run.state.measurementCommit.s)
    && run.state.deterministicDigest.JStr? && IsDigest(run.state.deterministicDigest.s)
    && run.state.liveDigest.JStr? && IsDigest(run.state.liveDigest.s)
    && run.state.reportDigest.JStr? && IsDigest(run.state.reportDigest.s)
  }

  lemma {:induction false} IdentityRead(run: Run)
    ensures Identified(run) <==>
      && run.manifest.liveDigest == run.state.liveDigest && run.measurement.Ok?
      && AnchorsAgree(run.manifest, run.state) && IsAnchors(run.state) && ValidAnchors(AnchorTexts(run.state))
  {
    hide IsIdentifier, IsGitSha, IsDigest;
    assert forall v, w: Json | w.JStr? :: PythonEqual(w, v) <==> v == w;
  }

  /** What is false in Python. */
  const FALSE_VALUES: set<Json> := {JNull, JBool(false), JInt(0), JStr(""), JArr([]), JObj([])}

  /** Every official artifact is the measured one, up to order. */
  ghost predicate Confirmed(p: Platform, obs: seq<Observation>, run: Run)
    requires AuthorizedRouteBindings(obs).Ok?
  {
    && AggregateIs(obs, run.aggregate)
    && SummaryIs(run.summary, OperatingSummary(obs))
    && LedgerIs(run.failures, HardGateFailures(obs))
    && (run.allPass in FALSE_VALUES <==> HardGateFailures(obs) != [])
    && RoutesAre(run.routes, Map(IdentityOf, AuthorizedRouteBindings(obs).value))
    && run.state.liveDigest == JStr(Digest(p.sha256, Aggregate(p, StoredTrialsOf(obs))))
  }

  lemma {:induction false} AggregateConfirmed(p: Platform, obs: seq<Observation>, run: Run)
    requires UniqueTrials(obs) && multiset(run.trials) == multiset(StoredTrialsOf(obs))
    ensures (forall v | v in run.aggregate :: v.JObj?) && AggregateMatches(p, run) <==> AggregateIs(obs, run.aggregate)
  {
    hide ObservationFields, PythonEqual, Aggregate, AggregateIs, AggregateEquals;
    AggregateByValues(obs, run.aggregate);
    AggregateReordered(p, obs, run.trials, StoredTrialsOf(obs));
    if AggregateIs(obs, run.aggregate) { AggregateAccepted(p, obs, run.aggregate); }
    if (forall v | v in run.aggregate :: v.JObj?) && AggregateMatches(p, run) { AggregateFound(p, obs, run.aggregate); }
  }

  lemma {:induction false} TruthRead(v: Json)
    ensures Truthy(v) <==> v !in FALSE_VALUES
  {}

  lemma {:induction false} GatesConfirmed(obs: seq<Observation>, run: Run)
    requires AllValid(obs)
    ensures var gates, official := HardGateFailures(obs), OfficialGates(run.failures);
      official.Ok? && GatesMatch(run, gates, official.value) <==>
        LedgerIs(run.failures, gates) && (run.allPass in FALSE_VALUES <==> gates != [])
  {
    hide ValidObservation, HardGateFailures, OfficialGates, LedgerIs, Truthy, Sorted;
    TruthRead(run.allPass);
    GatesNormal(obs);
    SortedFixpoint(StrLeq, HardGateFailures(obs));
    LedgerConfirmed(run.failures, HardGateFailures(obs));
  }

  lemma {:induction false} MeasuredRoutesConfirmed(obs: seq<Observation>, routes: seq<Json>)
    requires AllValid(obs) && AuthorizedRouteBindings(obs).Ok?
    ensures var measured := Map(IdentityOf, AuthorizedRouteBindings(obs).value);
      OfficialRoutes(routes) == Ok(measured) <==> RoutesAre(routes, measured)
  {
    hide ValidObservation, AuthorizedRouteBindings, RouteLeq, OfficialRoutes, RoutesAre, Sorted;
    var measured := Map(IdentityOf, AuthorizedRouteBindings(obs).value);
    OfficialRoutesRead(obs);
    forall a, b | a in measured && b in measured && RouteLeq(a, b) && RouteLeq(b, a) ensures a == b {
      MeasuredNoTies(obs, a, b);
    }
    RoutesConfirmed(routes, measured);
  }

  lemma {:induction false} DigestConfirmed(p: Platform, obs: seq<Observation>, run: Run)
    requires UniqueTrials(obs) && multiset(run.trials) == multiset(StoredTrialsOf(obs))
    ensures LiveDigestMatches(p, run) <==>
      && run.manifest.liveDigest == run.state.liveDigest
      && run.state.liveDigest == JStr(Digest(p.sha256, Aggregate(p, StoredTrialsOf(obs))))
  {
    hide ObservationFields, Aggregate, Digest;
    AggregateReordered(p, obs, run.trials, StoredTrialsOf(obs));
  }

  /** The five flags of a run over the measured trials. */
  function FlagsOf(p: Platform, obs: seq<Observation>, run: Run): Flags
    requires AuthorizedRouteBindings(obs).Ok?
  {
    var gates, official := HardGateFailures(obs), OfficialGates(run.failures);
    Flags(AggregateMatches(p, run), LiveDigestMatches(p, run),
          NewSummary(run.summary).Ok? && SameSummary(OperatingSummary(obs), NewSummary(run.summary).value),
          official.Ok? && GatesMatch(run, gates, official.value),
          OfficialRoutes(run.routes) == Ok(Map(IdentityOf, AuthorizedRouteBindings(obs).value)))
  }

  lemma {:induction false} SnapshotDecided(obs: seq<Observation>, a: Anchors, m: Measurement, flags: Flags)
    requires obs != [] && AllValid(obs) && AuthorizedRouteBindings(obs).Ok?
    ensures var s := MeasuredSnapshot(obs, a, m).(flags := flags);
      NewSnapshot(s) == if ValidAnchors(a) then Ok(s) else Raise("d139_snapshot_anchor_invalid")
  {
    hide ValidObservation, AuthorizedRouteBindings, OperatingSummary, HardGateFailures, SortedItems, WellFormedPairs,
         ValidAnchors;
    if ValidAnchors(a) { SnapshotAccepted(obs, a, m); }
  }

  /** Loading the trial files of a measured run returns an intact snapshot exactly when the run
      identifies itself and every official artifact is the measured one, up to order; the snapshot
      is then the measured one. */
  lemma {:induction false} IntactMeansMeasured(p: Platform, obs: seq<Observation>, run: Run)
    requires obs != [] && AllValid(obs) && UniqueTrials(obs) && AuthorizedRouteBindings(obs).Ok?
    requires multiset(run.trials) == multiset(StoredTrialsOf(obs))
    ensures var r := LoadRunEvidence(p, run);
      && (r.Ok? && r.value.Intact() <==> Identified(run) && Confirmed(p, obs, run))
      && (r.Ok? && r.value.Intact() ==>
            r.value == MeasuredSnapshot(obs, AnchorTexts(run.state), run.measurement.value))
  {
    hide ValidObservation, ObservationFields, AuthorizedRouteBindings, OperatingSummary, HardGateFailures, SortedItems,
         SummaryFromTrials, NewSummary, GatesFromTrials, OfficialGates, RoutesFromTrials, OfficialRoutes, PairCounts,
         NewSnapshot, Aggregate, ValidAnchors, AnchorsAgree, AnchorTexts, IsAnchors, SummaryIs, LedgerIs, RoutesAre,
         AggregateIs, SameSummary, AggregateMatches, LiveDigestMatches, GatesMatch, Identified;
    RegeneratedInAnyOrder(p, obs, run.trials);
    AggregateConfirmed(p, obs, run);
    SummaryConfirmed(run.summary, OperatingSummary(obs));
    GatesConfirmed(obs, run);
    MeasuredRoutesConfirmed(obs, run.routes);
    DigestConfirmed(p, obs, run);
    IdentityRead(run);
    if run.measurement.Ok? {
      SnapshotDecided(obs, AnchorTexts(run.state), run.measurement.value, FlagsOf(p, obs, run));
    }
  }

  // ---------------------------------------------------------------- changed trials

  /** Equal dictionaries hold equal values under each key. */
  lemma {:induction false} EqualAt(t: seq<Field>, u: seq<Field>, key: string)
    requires UniqueKeys(JObj(t)) && UniqueKeys(JObj(u)) && EqualValues(JObj(t), JObj(u)) && HasKey(u, key)
    ensures EqualValues(Get(t, key), Get(u, key))
  {
    PythonEqualExact(JObj(t), JObj(u));
    PythonEqualKeys(t, u, key);
    var j := GetAt(u, key);
    var i := GetAt(t, key);
    var k :| 0 <= k < |u| && t[i].key == u[k].key && EqualValues(t[i].value, u[k].value);
    OnlyKey(u, j, k);
  }

  lemma {:induction false} PythonEqualKeys(t: seq<Field>, u: seq<Field>, key: string)
    requires PythonEqual(JObj(t), JObj(u)) && HasKey(u, key)
    ensures HasKey(t, key)
  {
    hide Sorted;
    var a, b := SortValues(ValuesAsInts(t)), SortValues(ValuesAsInts(u));
    assert Sorted(FieldLeq, a) == Sorted(FieldLeq, b);
    SortedMembers(FieldLeq, a);
    SortedMembers(FieldLeq, b);
    var j := GetAt(u, key);
    assert b[j] in a;
    var k :| 0 <= k < |a| && a[k] == b[j];
    assert t[k].key == key;
  }

  /** An official trial that holds another value than the measured one under some key is detected,
      whatever else the run holds. */
  lemma {:induction false} ChangedTrialDetected(
      p: Platform, obs: seq<Observation>, run: Run, i: nat, t: seq<Field>, key: string)
    requires obs != [] && AllValid(obs) && UniqueTrials(obs) && AuthorizedRouteBindings(obs).Ok?
    requires multiset(run.trials) == multiset(StoredTrialsOf(obs))
    requires i < |obs| && JObj(t) in run.aggregate
    requires Get(t, "case_id") == JStr(obs[i].caseId) && Get(t, "trial_id") == JStr(obs[i].trialId)
    requires HasKey(ObservationFields(obs[i]), key)
    requires !EqualValues(Get(t, key), Get(ObservationFields(obs[i]), key))
    ensures LoadRunEvidence(p, run).Ok? ==> !LoadRunEvidence(p, run).value.Intact()
  {
    hide ValidObservation, ObservationFields, AuthorizedRouteBindings, LoadRunEvidence, EqualValues, UniqueKeys,
         Identified, SummaryIs, LedgerIs, RoutesAre, Get, HasKey, Aggregate, Digest;
    IntactMeansMeasured(p, obs, run);
    if AggregateIs(obs, run.aggregate) {
      var listed :|
        multiset(listed) == multiset(run.aggregate) && Pairwise(SameDictionary, listed, Map(StoredObservation, obs));
      PermutationMembers(listed, run.aggregate);
      var j :| 0 <= j < |listed| && listed[j] == JObj(t);
      PairAt(SameDictionary, listed, Map(StoredObservation, obs), j);
      SameTrialOnly(obs, i, j, t);
      StoredKeysUnique(obs[i]);
      EqualAt(t, ObservationFields(obs[i]), key);
      assert false;
    }
  }

  /** A trial equal to the measured one with its identity is equal to no other. */
  lemma {:induction false} SameTrialOnly(obs: seq<Observation>, i: nat, j: nat, t: seq<Field>)
    requires UniqueTrials(obs) && i < |obs| && j < |obs| && SameDictionary(JObj(t), StoredObservation(obs[j]))
    requires Get(t, "case_id") == JStr(obs[i].caseId) && Get(t, "trial_id") == JStr(obs[i].trialId)
    ensures i == j
  {
    hide ObservationFields, EqualValues, UniqueKeys, Get, HasKey;
    StoredKeysUnique(obs[j]);
    HasIdentityKeys(obs[j]);
    ReadIdentity(obs[j]);
    EqualAt(t, ObservationFields(obs[j]), "case_id");
    EqualAt(t, ObservationFields(obs[j]), "trial_id");
    EqualTexts(obs[i].caseId, obs[j].caseId);
    EqualTexts(obs[i].trialId, obs[j].trialId);
    assert Map(IdOf, obs)[i] == Map(IdOf, obs)[j];
  }

  lemma {:induction false} EqualTexts(s: string, t: string)
    requires EqualValues(JStr(s), JStr(t))
    ensures s == t
  {}

  lemma {:induction false} ChangedNumber(t: seq<Field>, u: seq<Field>, key: string)
    requires Get(t, key).JInt? && Get(u, key).JInt? && Get(t, key) != Get(u, key)
    ensures !EqualValues(Get(t, key), Get(u, key))
  {}

  /** So is one changed number, a duration say, and one negated property result. */
  lemma {:induction false} ChangedDurationDetected(
      p: Platform, obs: seq<Observation>, run: Run, i: nat, t: seq<Field>, n: int)
    requires obs != [] && AllValid(obs) && UniqueTrials(obs) && AuthorizedRouteBindings(obs).Ok?
    requires multiset(run.trials) == multiset(StoredTrialsOf(obs))
    requires i < |obs| && JObj(t) in run.aggregate
    requires Get(t, "case_id") == JStr(obs[i].caseId) && Get(t, "trial_id") == JStr(obs[i].trialId)
    requires Get(t, "duration_ms") == JInt(n) && n != obs[i].durationMs
    ensures LoadRunEvidence(p, run).Ok? ==> !LoadRunEvidence(p, run).value.Intact()
  {
    hide ValidObservation, ObservationFields, AuthorizedRouteBindings, LoadRunEvidence;
    ReadDuration(obs[i]);
    MeasuredKeys(obs[i]);
    ChangedNumber(t, ObservationFields(obs[i]), "duration_ms");
    ChangedTrialDetected(p, obs, run, i, t, "duration_ms");
  }

  lemma {:induction false} NegatedResultDetected(
      p: Platform, obs: seq<Observation>, run: Run, i: nat, t: seq<Field>, results: seq<Json>, k: nat)
    requires obs != [] && AllValid(obs) && UniqueTrials(obs) && AuthorizedRouteBindings(obs).Ok?
    requires multiset(run.trials) == multiset(StoredTrialsOf(obs))
    requires i < |obs| && JObj(t) in run.aggregate
    requires Get(t, "case_id") == JStr(obs[i].caseId) && Get(t, "trial_id") == JStr(obs[i].trialId)
    requires Get(t, "property_results") == JArr(results) && k < |results| && k < |obs[i].propertyResults|
    requires results[k] == JArr([JStr(obs[i].propertyResults[k].0), JBool(!obs[i].propertyResults[k].1)])
    ensures LoadRunEvidence(p, run).Ok? ==> !LoadRunEvidence(p, run).value.Intact()
  {
    hide ValidObservation, ObservationFields, AuthorizedRouteBindings, LoadRunEvidence;
    StoredOutcome(obs[i]);
    MeasuredKeys(obs[i]);
    NegatedResult(obs[i].propertyResults, results, k);
    ChangedTrialDetected(p, obs, run, i, t, "property_results");
  }

  lemma {:induction false} NegatedResult(measured: seq<(string, bool)>, results: seq<Json>, k: nat)
    requires k < |results| && k < |measured|
    requires results[k] == JArr([JStr(measured[k].0), JBool(!measured[k].1)])
    ensures !EqualValues(JArr(results), JArr(Map(StoredResult, measured)))
  {
    var x, y := results[k], StoredResult(measured[k]);
    assert Map(StoredResult, measured)[k] == y;
    assert x.items[1] == JBool(!measured[k].1) && y.items[1] == JBool(measured[k].1);
    assert !EqualValues(x.items[1], y.items[1]);
    assert !EqualValues(x, y);
  }

  lemma {:induction false} MeasuredKeys(o: Observation)
    ensures HasKey(ObservationFields(o), "duration_ms") && HasKey(ObservationFields(o), "property_results")
  {
    hide ObservationFields;
    PartsAt(o);
    var f := ObservationFields(o);
    assert f[12] == f[12..14][0] && f[17] == f[14..18][3];
    assert f[12].key == "property_results" && f[17].key == "duration_ms";
  }
}
