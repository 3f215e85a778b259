/** D139 regeneration of a completed run from its stored trials: the summary, routes, hard
    gates and digest are computed again from the JSON and compared with the official
    artifacts. A trial is a JSON object, that is a list of fields. */
module RunEvidence {
  import opened BenchmarkContracts
  import opened CanonicalJson
  import opened GovernanceContracts
  import opened OperatingSummaries
  import opened OrderStatistics
  import opened Ordering
  import opened PythonEquality
  import opened Results
  import opened Sequences

  type Trial = seq<Field>

  /** What Python supplies: SHA-256, and `str` of a list or dictionary. */
  datatype Platform = Platform(sha256: string -> string, repr: Json -> string)

  // ---------------------------------------------------------------- columns

  function IntText(n: int): string { if n < 0 then "-" + Digits(-n) else Digits(n) }

  /** `str(value)` */
  function PythonText(p: Platform, v: Json): string {
    match v
    case JNull => "None"
    case JBool(b) => if b then "True" else "False"
    case JInt(n) => IntText(n)
    case JStr(s) => s
    case _ => p.repr(v)
  }

  function ValueOf(key: string): Trial -> Json { (t: Trial) => Get(t, key) }

  /** `[item.get(key) for item in trials]` */
  function Values(key: string, trials: seq<Trial>): seq<Json> { Map(ValueOf(key), trials) }

  function TextOf(v: Json): string { if v.JStr? then v.s else "" }

  function IsPresent(v: Json): bool { !v.JNull? }

  predicate IsNumber(v: Json) { v.JInt? || v.JBool? }

  /** Python's True and False are the integers 1 and 0. */
  function IntegerOf(v: Json): int { if v.JInt? then v.n else if v.JBool? && v.b then 1 else 0 }

  predicate Hashable(v: Json) { !v.JArr? && !v.JObj? }

  /** `(key, counter[key]) for key in sorted(counter)` over text */
  function CountedTexts(texts: seq<string>): seq<(string, int)> {
    PairsFor(texts, Sorted(StrLeq, Dedup(texts)))
  }

  /** The text of the first value equal to `n`, the one a counter keeps as its key. */
  function KeyText(p: Platform, values: seq<Json>, n: int): string {
    if values == [] then ""
    else if IntegerOf(values[0]) == n then PythonText(p, values[0])
    else KeyText(p, values[1..], n)
  }

  /** The same over numbers, in numeric order. */
  function CountedNumbers(p: Platform, values: seq<Json>): seq<(string, int)> {
    var numbers := Map(IntegerOf, values);
    Map(n => (KeyText(p, values, n), multiset(numbers)[n]), Sorted(IntLeq, Dedup(numbers)))
  }

  /** `_pair_counts` of the evidence module; keys of different kinds cannot be sorted. */
  function PairCounts(p: Platform, values: seq<Json>): Result<seq<(string, int)>> {
    if exists v | v in values :: !Hashable(v) then Raise("TypeError")
    else if forall v | v in values :: v.JStr? then Ok(CountedTexts(Map(TextOf, values)))
    else if forall v | v in values :: v.JNull? then Ok([("None", |values|)])
    else if forall v | v in values :: IsNumber(v) then Ok(CountedNumbers(p, values))
    else Raise("TypeError")
  }

  // ---------------------------------------------------------------- summary

  function MeasuredDuration(t: Trial): seq<Json> {
    if Get(t, "route_status") == JStr("unavailable") then [] else [Get(t, "duration_ms")]
  }

  predicate AllCounts(values: seq<Json>) { forall v | v in values :: IsCount(v, 0) }

  function ColumnError(trials: seq<Trial>): string {
    if exists v | v in Values("route_status", trials) :: !Hashable(v) then "TypeError"
    else if !AllCounts(Collect(MeasuredDuration, trials)) then "d139_evidence_duration_invalid"
    else if !AllCounts(Values("invocation_count", trials)) then "d139_evidence_invocation_invalid"
    else if !AllCounts(Values("draft_generation_count", trials)) then "d139_evidence_draft_invalid"
    else if !AllCounts(Values("revision_count", trials)) then "d139_evidence_revision_invalid"
    else ""
  }

  function StatusCount(trials: seq<Trial>, status: string): Json {
    JInt(multiset(Values("route_status", trials))[JStr(status)])
  }

  /** `_summary_from_trials` up to the constructor call. */
  function RawFromTrials(trials: seq<Trial>, terminal: seq<(string, int)>, failures: seq<(string, int)>): RawSummary {
    var durations := Map(IntegerOf, Collect(MeasuredDuration, trials));
    RawSummary(
      JInt(|trials|),
      StatusCount(trials, "completed"), StatusCount(trials, "insufficient"), StatusCount(trials, "blocked"),
      StatusCount(trials, "failed"), StatusCount(trials, "unavailable"),
      JArr(StoredPairs(terminal)), JArr(StoredPairs(failures)),
      JArr(Values("invocation_count", trials)), JArr(Values("draft_generation_count", trials)),
      JArr(Values("revision_count", trials)),
      OptionalInt(Min(durations)), StoredMedian(Median(durations)),
      OptionalInt(NearestRankP95(durations)), OptionalInt(Max(durations)))
  }

  function SummaryFromTrials(p: Platform, trials: seq<Trial>): Result<Summary> {
    if ColumnError(trials) != "" then Raise(ColumnError(trials))
    else
      match PairCounts(p, Values("terminal_state", trials))
      case Raise(code) => Raise(code)
      case Ok(terminal) =>
        match PairCounts(p, Filter(IsPresent, Values("safe_failure_class", trials)))
        case Raise(code) => Raise(code)
        case Ok(failures) => NewSummary(RawFromTrials(trials, terminal, failures))
  }

  // ---------------------------------------------------------------- routes

  datatype TrialKey = TrialKey(taskKind: string, adapterId: string, modelId: string, profile: Json)

  predicate InvokedTrial(t: Trial) { Get(t, "invocation_count") != JInt(0) }

  function TrialKeyOf(t: Trial): TrialKey {
    TrialKey(TextOf(Get(t, "task_kind")), TextOf(Get(t, "adapter_id")), TextOf(Get(t, "model_id")),
        Get(t, "profile_id"))
  }

  function TrialKeys(t: Trial): seq<TrialKey> { if InvokedTrial(t) then [TrialKeyOf(t)] else [] }

  /** Why the grouping loop stops at this trial; the empty string when it goes on. */
  function TrialError(t: Trial): string {
    if !IsCount(Get(t, "invocation_count"), 0) then "d139_evidence_invocation_invalid"
    else if !InvokedTrial(t) then ""
    else if !Get(t, "task_kind").JStr? || !Get(t, "adapter_id").JStr? || !Get(t, "model_id").JStr?
    then "d139_evidence_invoked_binding_missing"
    else if !Hashable(Get(t, "profile_id")) then "TypeError"
    else ""
  }

  function FirstTrialError(trials: seq<Trial>): string {
    if trials == [] then ""
    else if TrialError(trials[0]) != "" then TrialError(trials[0])
    else FirstTrialError(trials[1..])
  }

  function LaneTexts(p: Platform, trials: seq<Trial>): seq<string> {
    Map((t: Trial) => PythonText(p, Get(t, "task_kind")), trials)
  }

  /** The constructor call for one group. */
  function RouteOf(k: TrialKey, lane: int, invoked: int): Result<RouteIdentity> {
    NewRoute(JStr(k.taskKind), JStr(k.adapterId), JStr(k.modelId), k.profile, JInt(lane), JInt(invoked))
  }

  function RoutesOf(
      keys: seq<TrialKey>, lanes: multiset<string>, groups: multiset<TrialKey>): (r: seq<Result<RouteIdentity>>)
    ensures |r| == |keys|
    ensures forall i | 0 <= i < |r| :: r[i] == RouteOf(keys[i], lanes[keys[i].taskKind], groups[keys[i]])
  {
    if keys == [] then [] else [RouteOf(keys[0], lanes[keys[0].taskKind], groups[keys[0]])] + RoutesOf(keys[1..],
        lanes, groups)
  }

  /** All values of a list of constructor calls, or the first exception. */
  function AllOrFirst<A>(rs: seq<Result<A>>): Result<seq<A>> {
    if rs == [] then Ok([])
    else
      match rs[0]
      case Raise(code) => Raise(code)
      case Ok(value) =>
        match AllOrFirst(rs[1..])
        case Raise(code) => Raise(code)
        case Ok(values) => Ok([value] + values)
  }

  function SortedOrRaise(r: Result<seq<RouteIdentity>>): Result<seq<RouteIdentity>> {
    match r
    case Raise(code) => Raise(code)
    case Ok(routes) => Ok(Sorted(RouteLeq, routes))
  }

  function RoutesFromTrials(p: Platform, trials: seq<Trial>): Result<seq<RouteIdentity>> {
    if FirstTrialError(trials) != "" then Raise(FirstTrialError(trials))
    else
      var keys := Collect(TrialKeys, trials);
      SortedOrRaise(AllOrFirst(RoutesOf(Dedup(keys), multiset(LaneTexts(p, trials)), multiset(keys))))
  }

  /** `_routes_from_trials`: a dictionary of counters in insertion order, then the constructor
      of every group. */
  method GroupTrials(p: Platform, trials: seq<Trial>) returns (r: Result<seq<RouteIdentity>>)
    ensures r == RoutesFromTrials(p, trials)
  {
    var order, groups, code := CountGroups(trials);
    if code != "" { return Raise(code); }
    var lanes := multiset(LaneTexts(p, trials));
    ghost var keys := Collect(TrialKeys, trials);
    r := BuildRoutes(order, lanes, groups, RoutesOf(order, lanes, multiset(keys)));
  }

  method BuildRoutes(
      order: seq<TrialKey>, lanes: multiset<string>, groups: map<TrialKey, int>,
      ghost all: seq<Result<RouteIdentity>>)
    returns (r: Result<seq<RouteIdentity>>)
    requires |all| == |order|
    requires forall i | 0 <= i < |order| ::
      order[i] in groups && all[i] == RouteOf(order[i], lanes[order[i].taskKind], groups[order[i]])
    ensures r == SortedOrRaise(AllOrFirst(all))
  {
    var routes: seq<RouteIdentity> := [];
    Prefixed([], AllOrFirst(all));
    assert all[0..] == all;
    for i := 0 to |order|
      invariant AllOrFirst(all) == Prefix(routes, AllOrFirst(all[i..]))
    {
      var key := order[i];
      var route := NewRoute(JStr(key.taskKind), JStr(key.adapterId), JStr(key.modelId), key.profile,
                            JInt(lanes[key.taskKind]), JInt(groups[key]));
      assert all[i..][0] == route && all[i..][1..] == all[i + 1..];
      if route.Raise? { return Raise(route.code); }
      PrefixedTwice(routes, route.value, AllOrFirst(all[i + 1..]));
      routes := routes + [route.value];
    }
    assert all[|order|..] == [] && routes + [] == routes;
    r := Ok(Sorted(RouteLeq, routes));
  }

  ghost function Prefix<A>(done: seq<A>, r: Result<seq<A>>): Result<seq<A>> {
    match r
    case Raise(code) => Raise(code)
    case Ok(rest) => Ok(done + rest)
  }

  lemma {:induction false} Prefixed<A>(done: seq<A>, r: Result<seq<A>>)
    ensures done == [] ==> Prefix(done, r) == r
  {
    if r.Ok? { assert [] + r.value == r.value; }
  }

  lemma {:induction false} PrefixedTwice<A>(done: seq<A>, x: A, r: Result<seq<A>>)
    ensures Prefix(done, Prefix([x], r)) == Prefix(done + [x], r)
  {
    if r.Ok? { assert done + ([x] + r.value) == done + [x] + r.value; }
  }

  /** Its first loop: `groups[key] += 1` on a default dictionary. */
  method CountGroups(trials: seq<Trial>) returns (order: seq<TrialKey>, groups: map<TrialKey, int>, code: string)
    ensures code == FirstTrialError(trials)
    ensures code == "" ==> order == Dedup(Collect(TrialKeys, trials)) && CountsKeys(Collect(TrialKeys, trials), groups)
  {
    order, groups, code := [], map[], "";
    ghost var keys: seq<TrialKey> := [];
    for i := 0 to |trials|
      invariant FirstTrialError(trials) == FirstTrialError(trials[i..])
      invariant keys == Collect(TrialKeys, trials[..i])
      invariant order == Dedup(keys) && CountsKeys(keys, groups)
    {
      var item := trials[i];
      assert trials[i..][0] == item && trials[i..][1..] == trials[i + 1..];
      TakeOneMore(trials, i);
      CollectSnoc(TrialKeys, trials[..i], item);
      var count := Get(item, "invocation_count");
      if !count.JInt? || count.n < 0 { return order, groups, "d139_evidence_invocation_invalid"; }
      if count.n != 0 {
        var kind, adapter, model := Get(item, "task_kind"), Get(item, "adapter_id"), Get(item, "model_id");
        if !kind.JStr? || !adapter.JStr? || !model.JStr? {
          return order, groups, "d139_evidence_invoked_binding_missing";
        }
        var profile := Get(item, "profile_id");
        if !Hashable(profile) { return order, groups, "TypeError"; }
        var key := TrialKey(kind.s, adapter.s, model.s, profile);
        order, groups := CountKey(keys, order, groups, key);
        keys := keys + [key];
      } else {
        assert keys + [] == keys;
      }
    }
    assert trials[..|trials|] == trials && trials[|trials|..] == [];
  }

  ghost predicate CountsKeys(keys: seq<TrialKey>, groups: map<TrialKey, int>) {
    && (forall k :: k in groups <==> k in keys)
    && (forall k | k in groups :: groups[k] == multiset(keys)[k])
  }

  method CountKey(ghost keys: seq<TrialKey>, order: seq<TrialKey>, groups: map<TrialKey, int>, key: TrialKey)
    returns (order': seq<TrialKey>, groups': map<TrialKey, int>)
    requires order == Dedup(keys) && CountsKeys(keys, groups)
    ensures order' == Dedup(keys + [key]) && CountsKeys(keys + [key], groups')
  {
    assert (keys + [key])[..|keys|] == keys;
    order' := if key in groups then order else order + [key];
    groups' := groups[key := (if key in groups then groups[key] else 0) + 1];
  }

  // ---------------------------------------------------------------- hard gates

  /** What `for x in (v or ())` yields, or None when `v` cannot be iterated. */
  function Iterated(v: Json): Option<seq<Json>> {
    match v
    case JArr(items) => Some(items)
    case JStr(s) => Some(Map(c => JStr([c]), s))
    case JObj(fields) => Some(Map((f: Field) => JStr(f.key), fields))
    case JNull => Some([])
    case JBool(b) => if b then None else Some([])
    case JInt(n) => if n == 0 then Some([]) else None
  }

  function GateValues(t: Trial): seq<Json> { Iterated(Get(t, "hard_gate_failures")).GetOr([]) }

  /** The regenerated failures: the set of all gate values, sorted. */
  function GatesFromTrials(trials: seq<Trial>): Result<seq<string>> {
    var values := Collect(GateValues, trials);
    if (exists t | t in trials :: Iterated(Get(t, "hard_gate_failures")).None?) ||
        (exists v | v in values :: !Hashable(v))
    then Raise("TypeError")
    else if forall v | v in values :: v.JStr? then Ok(Sorted(StrLeq, Dedup(Map(TextOf, values))))
    else Raise("d139_snapshot_hard_gate_invalid")
  }

  /** The official failures, sorted with repeats; None when they are not all text. */
  function OfficialGates(v: Json): Result<Option<seq<string>>> {
    match Iterated(v)
    case None => Raise("TypeError")
    case Some(items) =>
      if forall x | x in items :: x.JStr? then Ok(Some(Sorted(StrLeq, Map(TextOf, items))))
      else if |items| == 1 || forall x | x in items :: IsNumber(x) then Ok(None)
      else Raise("TypeError")
  }

  /** `bool(value)` */
  predicate Truthy(v: Json) {
    match v
    case JNull => false
    case JBool(b) => b
    case JInt(n) => n != 0
    case JStr(s) => s != ""
    case JArr(items) => items != []
    case JObj(fields) => fields != []
  }

  // ---------------------------------------------------------------- the run

  datatype RawAnchors = RawAnchors(
    baselineId: Json, measurementCommit: Json, deterministicDigest: Json, liveDigest: Json, reportDigest: Json)

  /** The decoded artifacts of a run, the trial files in name order. */
  datatype Run = Run(
    manifest: RawAnchors,
    state: RawAnchors,
    measurement: Result<Measurement>,
    trials: seq<Trial>,
    aggregate: seq<Json>,
    summary: RawSummary,
    failures: Json,
    allPass: Json,
    routes: seq<Json>)

  function HasKey(fields: seq<Field>, key: string): bool { exists i | 0 <= i < |fields| :: fields[i].key == key }

  /** `(str(item.get("case_id")), str(item.get("trial_id")))` */
  function Identity(p: Platform): Trial -> (string, string) {
    (t: Trial) => (PythonText(p, Get(t, "case_id")), PythonText(p, Get(t, "trial_id")))
  }

  /** `str(item.get(key, ""))` */
  function KeyPart(p: Platform, t: Trial, key: string): string {
    if HasKey(t, key) then PythonText(p, Get(t, key)) else ""
  }

  function AggregateKey(p: Platform, t: Trial): seq<string> { [KeyPart(p, t, "case_id"), KeyPart(p, t, "trial_id")] }

  function AggregateLeq(p: Platform): (Trial, Trial) -> bool {
    (a: Trial, b: Trial) => KeyLeq(AggregateKey(p, a), AggregateKey(p, b))
  }

  /** Trials in (case, trial) order, as one JSON list. */
  function Aggregate(p: Platform, trials: seq<Trial>): Json {
    JArr(Map((t: Trial) => JObj(t), Sorted(AggregateLeq(p), trials)))
  }

  function FieldsOf(v: Json): seq<Field> { if v.JObj? then v.fields else [] }

  predicate SameAnchor(a: Json, b: Json) { PythonEqual(a, b) }

  predicate AnchorsAgree(manifest: RawAnchors, state: RawAnchors) {
    && SameAnchor(state.baselineId, manifest.baselineId)
    && SameAnchor(state.measurementCommit, manifest.measurementCommit)
    && SameAnchor(state.deterministicDigest, manifest.deterministicDigest)
    && SameAnchor(state.reportDigest, manifest.reportDigest)
  }

  predicate IsAnchors(a: RawAnchors) {
    a.baselineId.JStr? && a.measurementCommit.JStr? && a.deterministicDigest.JStr? && a.liveDigest.JStr? &&
        a.reportDigest.JStr?
  }

  function AnchorTexts(a: RawAnchors): Anchors {
    Anchors(TextOf(a.baselineId), TextOf(a.measurementCommit), TextOf(a.deterministicDigest), TextOf(a.liveDigest),
        TextOf(a.reportDigest))
  }

  function RouteFromJson(v: Json): Result<RouteIdentity> {
    if !v.JObj? then Raise("d139_evidence_route_invalid")
    else NewRoute(Get(v.fields, "task_kind"), Get(v.fields, "adapter_id"), Get(v.fields, "model_id"),
                  Get(v.fields, "profile_id"), Get(v.fields, "lane_trial_count"), Get(v.fields, "invoked_trial_count"))
  }

  function OfficialRoutes(routes: seq<Json>): Result<seq<RouteIdentity>> {
    SortedOrRaise(AllOrFirst(Map(RouteFromJson, routes)))
  }

  function AggregateMatches(p: Platform, run: Run): bool {
    PythonEqual(Aggregate(p, run.trials), Aggregate(p, Map(FieldsOf, run.aggregate)))
  }

  /** The regenerated digest equals the one both the manifest and the run state hold. */
  function LiveDigestMatches(p: Platform, run: Run): bool {
    && run.manifest.liveDigest.JStr?
    && run.manifest.liveDigest == run.state.liveDigest
    && Digest(p.sha256, Aggregate(p, run.trials)) == run.manifest.liveDigest.s
  }

  function GatesMatch(run: Run, gates: seq<string>, official: Option<seq<string>>): bool {
    Some(gates) == official && Truthy(run.allPass) == (gates == [])
  }

  /** `load_run_evidence` after the files are decoded. */
  function LoadRunEvidence(p: Platform, run: Run): Result<Snapshot> {
    if run.trials == [] then Raise("d139_normalized_evidence_empty")
    else if |set x | x in Map(Identity(p), run.trials)| != |run.trials| then Raise("d139_normalized_trial_duplicate")
    else if exists v | v in run.aggregate :: !v.JObj? then Raise("AttributeError")
    else
      match SummaryFromTrials(p, run.trials) case Raise(code) => Raise(code) case Ok(summary) =>
      match NewSummary(run.summary) case Raise(code) => Raise(code) case Ok(officialSummary) =>
      match GatesFromTrials(run.trials) case Raise(code) => Raise(code) case Ok(gates) =>
      match OfficialGates(run.failures) case Raise(code) => Raise(code) case Ok(officialGates) =>
      match RoutesFromTrials(p, run.trials) case Raise(code) => Raise(code) case Ok(routes) =>
      match OfficialRoutes(run.routes) case Raise(code) => Raise(code) case Ok(officialRoutes) =>
      match PairCounts(p, Values("task_kind", run.trials)) case Raise(code) => Raise(code) case Ok(kinds) =>
        if !AnchorsAgree(run.manifest, run.state) then Raise("d139_run_anchor_mismatch")
        else
          match run.measurement case Raise(code) => Raise(code) case Ok(measurement) =>
            if !IsAnchors(run.state) then Raise("d139_snapshot_anchor_invalid")
            else NewSnapshot(Snapshot(
              AnchorTexts(run.state), |run.trials|, measurement, routes, summary, gates, kinds,
              Flags(AggregateMatches(p, run), LiveDigestMatches(p, run), SameSummary(summary, officialSummary),
                    GatesMatch(run, gates, officialGates), routes == officialRoutes)))
  }
}
