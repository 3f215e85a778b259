/** Task-kind lane completeness, hard-gate failures and the baseline decision, and what complete
    lanes imply about the routes. */
module LaneCompleteness {
  import opened BenchmarkContracts
  import opened Ordering
  import opened Results
  import opened RouteGrouping
  import opened Sequences

  function CaseIdOf(o: Observation): string { o.caseId }

  function TrialIdOf(o: Observation): string { o.trialId }

  /** `len({... for item in items})` */
  function DistinctCount<A(==)>(xs: seq<A>): nat { |set x | x in xs| }

  datatype Binding = Binding(adapterId: Option<string>, modelId: Option<string>, profileId: Option<string>)

  function BindingOf(o: Observation): Binding { Binding(o.adapterId, o.modelId, o.profileId) }

  function Lane(obs: seq<Observation>, k: TaskKind): seq<Observation> { Filter(OfKind(k), obs) }

  /** The counting conditions on one lane. */
  predicate LaneCounts(lane: seq<Observation>) {
    && |lane| == TASK_KIND_TRIALS
    && DistinctCount(Map(CaseIdOf, lane)) == TASK_KIND_CASES
    && DistinctCount(Map(TrialIdOf, lane)) == TASK_KIND_TRIALS
  }

  /** The conditions on how one lane was served. */
  predicate LaneServed(lane: seq<Observation>) {
    var invoked := Filter(Invoked, lane);
    && (forall o | o in lane :: !o.routeStatus.Unavailable?)
    && invoked != []
    && DistinctCount(Map(BindingOf, invoked)) == 1
    && (forall o | o in invoked :: o.adapterId.Some? && o.modelId.Some? && o.bindingReference.Some?)
  }

  predicate RunCounts(obs: seq<Observation>) {
    && |obs| == OFFICIAL_TRIALS
    && DistinctCount(Map(TrialIdOf, obs)) == OFFICIAL_TRIALS
    && DistinctCount(Map(CaseIdOf, obs)) == OFFICIAL_CASES
  }

  /** `task_kind_lanes_complete` */
  predicate LanesComplete(obs: seq<Observation>) {
    && RunCounts(obs)
    && forall k | k in TASK_KINDS :: LaneCounts(Lane(obs, k)) && LaneServed(Lane(obs, k))
  }

  function GatesOf(o: Observation): seq<string> { o.hardGateFailures }

  /** `hard_gate_failures` */
  function HardGateFailures(obs: seq<Observation>): seq<string> { Sorted(StrLeq, Dedup(Collect(GatesOf, obs))) }

  function BaselineDecision(
    focusedValidation: bool, historicalRegression: bool, backendRegression: bool,
    obs: seq<Observation>, ownerReview: bool, aborted: bool): string
  {
    if aborted then "BLOCKED"
    else if !focusedValidation then "BLOCKED"
    else if !historicalRegression || !backendRegression then "BLOCKED"
    else if HardGateFailures(obs) != [] then "BLOCKED"
    else if !LanesComplete(obs) then "BLOCKED"
    else if !ownerReview then "BLOCKED"
    else "ESTABLISHED"
  }

  lemma {:induction false} LaneMember(obs: seq<Observation>, k: TaskKind, o: Observation)
    ensures o in Lane(obs, k) <==> o in obs && o.taskKind == k
    ensures o in Filter(Invoked, Lane(obs, k)) <==> o in obs && o.taskKind == k && Invoked(o)
  {
    FilterMember(OfKind(k), obs, o);
    FilterMember(Invoked, Lane(obs, k), o);
  }

  lemma {:induction false} MapMember<A, B>(f: A -> B, xs: seq<A>, x: A)
    requires x in xs
    ensures f(x) in Map(f, xs)
  {
    var i :| 0 <= i < |xs| && xs[i] == x;
    assert Map(f, xs)[i] == f(x);
  }

  lemma {:induction false} OnlyOne<A>(xs: seq<A>, x: A, y: A)
    requires DistinctCount(xs) == 1 && x in xs && y in xs
    ensures x == y
  {
    var s := set z | z in xs;
    assert x in s && y in s;
    assert |s - {x}| == 0;
    assert y !in s - {x};
  }

  /** In a served lane every invoked trial ran on one route. */
  lemma {:induction false} OneRoutePerLane(obs: seq<Observation>, k: TaskKind) returns (key: RouteKey)
    requires LaneServed(Lane(obs, k))
    ensures key.taskKind == k && key in InvokedKeys(obs)
    ensures forall o | o in obs && Invoked(o) && o.taskKind == k :: KeyOf(o) == key
  {
    var invoked := Filter(Invoked, Lane(obs, k));
    var first := invoked[0];
    key := KeyOf(first);
    LaneMember(obs, k, first);
    InvokedKeyMember(obs, key);
    forall o | o in obs && Invoked(o) && o.taskKind == k ensures KeyOf(o) == key {
      LaneMember(obs, k, o);
      MapMember(BindingOf, invoked, o);
      MapMember(BindingOf, invoked, first);
      OnlyOne(Map(BindingOf, invoked), BindingOf(o), BindingOf(first));
    }
  }

  // ---------------------------------------------------------------- what the decision means

  ghost predicate BothInvoked(a: Observation, b: Observation) { a.invocationCount != 0 && b.invocationCount != 0 }

  ghost predicate SomeInvoked(obs: seq<Observation>, k: TaskKind) {
    exists o :: o in obs && o.taskKind == k && o.invocationCount != 0
  }

  /** How the trials of one task kind ran: none without a route, at least one invoked, and all
      invoked ones on one adapter, model and profile. */
  ghost predicate RanOnOneRoute(obs: seq<Observation>, k: TaskKind) {
    && (forall o | o in obs && o.taskKind == k :: !o.routeStatus.Unavailable?)
    && SomeInvoked(obs, k)
    && (forall a, b | a in obs && b in obs && a.taskKind == b.taskKind == k && BothInvoked(a, b) ::
          a.adapterId == b.adapterId && a.modelId == b.modelId && a.profileId == b.profileId)
  }

  lemma {:induction false} ServedExactly(obs: seq<Observation>, k: TaskKind)
    requires AllValid(obs)
    ensures LaneServed(Lane(obs, k)) <==> RanOnOneRoute(obs, k)
  {
    hide ValidObservation, Filter, Lane, DistinctCount;
    var lane := Lane(obs, k);
    var invoked := Filter(Invoked, lane);
    forall o
      ensures o in lane <==> o in obs && o.taskKind == k
      ensures o in invoked <==> o in obs && o.taskKind == k && Invoked(o)
    {
      LaneMember(obs, k, o);
    }
    BoundTrials(obs, invoked);
    SomeMember(obs, k, invoked);
    if invoked != [] {
      OneValue(BindingOf, invoked);
      SameBindings(obs, k, invoked);
    }
  }

  lemma {:induction false} BoundTrials(obs: seq<Observation>, invoked: seq<Observation>)
    requires AllValid(obs) && forall o | o in invoked :: o in obs && Invoked(o)
    ensures forall o | o in invoked :: o.adapterId.Some? && o.modelId.Some? && o.bindingReference.Some?
  {
    hide ValidObservation;
    forall o | o in invoked ensures o.adapterId.Some? && o.modelId.Some? && o.bindingReference.Some? {
      ValidObservationBinding(o);
    }
  }

  lemma {:induction false} SomeMember(obs: seq<Observation>, k: TaskKind, invoked: seq<Observation>)
    requires forall o :: o in invoked <==> o in obs && o.taskKind == k && Invoked(o)
    ensures invoked != [] <==> SomeInvoked(obs, k)
  {
    if invoked != [] { assert invoked[0] in invoked; }
  }

  lemma {:induction false} SameBindings(obs: seq<Observation>, k: TaskKind, invoked: seq<Observation>)
    requires forall o :: o in invoked <==> o in obs && o.taskKind == k && Invoked(o)
    ensures (forall x, y | x in invoked && y in invoked :: BindingOf(x) == BindingOf(y)) <==>
      (forall a, b | a in obs && b in obs && a.taskKind == b.taskKind == k && BothInvoked(a, b) ::
         a.adapterId == b.adapterId && a.modelId == b.modelId && a.profileId == b.profileId)
  {}

  /** All entries of a nonempty list map to one value exactly when any two do. */
  lemma {:induction false} OneValue<A, B>(f: A -> B, xs: seq<A>)
    requires xs != []
    ensures DistinctCount(Map(f, xs)) == 1 <==> forall x, y | x in xs && y in xs :: f(x) == f(y)
  {
    var values := set z | z in Map(f, xs);
    if DistinctCount(Map(f, xs)) == 1 {
      forall x, y | x in xs && y in xs ensures f(x) == f(y) {
        MapMember(f, xs, x);
        MapMember(f, xs, y);
        OnlyOne(Map(f, xs), f(x), f(y));
      }
    }
    if forall x, y | x in xs && y in xs :: f(x) == f(y) {
      forall z | z in values ensures z == f(xs[0]) {
        var i :| 0 <= i < |xs| && Map(f, xs)[i] == z;
        assert xs[i] in xs && xs[0] in xs;
      }
      MapMember(f, xs, xs[0]);
      assert values == {f(xs[0])};
    }
  }

  lemma {:induction false} NoGateFailed(obs: seq<Observation>)
    ensures HardGateFailures(obs) == [] <==> forall o | o in obs :: o.hardGateFailures == []
  {
    var all := Collect(GatesOf, obs);
    SortedIsSortedPermutation(StrLeq, Dedup(all));
    if all != [] {
      assert all[0] in Dedup(all);
      CollectMember(GatesOf, obs, all[0]);
      var i :| 0 <= i < |obs| && all[0] in GatesOf(obs[i]);
      assert obs[i] in obs;
    }
    forall o | o in obs && o.hardGateFailures != [] ensures all != [] {
      var i :| 0 <= i < |obs| && obs[i] == o;
      CollectMember(GatesOf, obs, o.hardGateFailures[0]);
    }
  }

  ghost function TrialIds(obs: seq<Observation>): set<string> { set o | o in obs :: o.trialId }

  ghost function CaseIds(obs: seq<Observation>): set<string> { set o | o in obs :: o.caseId }

  ghost function TrialIdsOf(obs: seq<Observation>, k: TaskKind): set<string> {
    set o | o in obs && o.taskKind == k :: o.trialId
  }

  ghost function CaseIdsOf(obs: seq<Observation>, k: TaskKind): set<string> {
    set o | o in obs && o.taskKind == k :: o.caseId
  }

  ghost predicate Raised(obs: seq<Observation>, gate: string) { exists o :: o in obs && gate in o.hardGateFailures }

  /** The failed gates are those of all observations, each once, in ascending order. */
  lemma {:induction false} GatesCollected(obs: seq<Observation>)
    ensures forall g :: g in HardGateFailures(obs) <==> Raised(obs, g)
    ensures Distinct(HardGateFailures(obs)) && IsSorted(StrLeq, HardGateFailures(obs))
  {
    hide StrLeq;
    var all := Collect(GatesOf, obs);
    StrOrder();
    SortedIsSortedPermutation(StrLeq, Dedup(all));
    DistinctPermutation(Dedup(all), HardGateFailures(obs));
    SortedMembers(StrLeq, Dedup(all));
    forall g ensures g in HardGateFailures(obs) <==> Raised(obs, g) {
      CollectMember(GatesOf, obs, g);
      assert g in Dedup(all) <==> g in all;
      if g in all {
        var i :| 0 <= i < |obs| && g in GatesOf(obs[i]);
        assert obs[i] in obs;
      }
      if o :| o in obs && g in o.hardGateFailures {
        var i :| 0 <= i < |obs| && obs[i] == o;
        assert g in GatesOf(obs[i]);
      }
    }
  }

  /** The counts of a full run, as numbers of distinct identifiers. */
  ghost predicate CountsRight(obs: seq<Observation>) {
    && |obs| == 144 && |TrialIds(obs)| == 144 && |CaseIds(obs)| == 48
    && forall k: TaskKind :: |TrialIdsOf(obs, k)| == 72 && |CaseIdsOf(obs, k)| == 24
  }

  lemma {:induction false} DistinctAtMost<A>(xs: seq<A>)
    ensures DistinctCount(xs) <= |xs|
  {
    if xs != [] {
      DistinctAtMost(xs[1..]);
      var rest := set x | x in xs[1..];
      assert (set x | x in xs) == {xs[0]} + rest;
    }
  }

  lemma {:induction false} LanesPartition(obs: seq<Observation>)
    ensures |Lane(obs, GeneralChat)| + |Lane(obs, SoftwareEngineering)| == |obs|
  {
    if obs != [] {
      LanesPartition(obs[1..]);
      assert obs == [obs[0]] + obs[1..];
      FilterAppend(OfKind(GeneralChat), [obs[0]], obs[1..]);
      FilterAppend(OfKind(SoftwareEngineering), [obs[0]], obs[1..]);
      FilterSnoc(OfKind(GeneralChat), [], obs[0]);
      FilterSnoc(OfKind(SoftwareEngineering), [], obs[0]);
      assert [] + [obs[0]] == [obs[0]];
    }
  }

  lemma {:induction false} MappedMember<A, B>(f: A -> B, xs: seq<A>, z: B)
    ensures z in Map(f, xs) <==> exists x :: x in xs && f(x) == z
  {
    if z in Map(f, xs) {
      var i :| 0 <= i < |xs| && Map(f, xs)[i] == z;
      assert xs[i] in xs;
    }
    if x :| x in xs && f(x) == z { MapMember(f, xs, x); }
  }

  lemma {:induction false} LaneTrialIds(obs: seq<Observation>, k: TaskKind)
    ensures DistinctCount(Map(TrialIdOf, Lane(obs, k))) == |TrialIdsOf(obs, k)|
  {
    hide Lane;
    var lane := Lane(obs, k);
    forall z ensures z in Map(TrialIdOf, lane) <==> z in TrialIdsOf(obs, k) {
      MappedMember(TrialIdOf, lane, z);
      forall o ensures o in lane <==> o in obs && o.taskKind == k { LaneMember(obs, k, o); }
    }
    assert (set z | z in Map(TrialIdOf, lane)) == TrialIdsOf(obs, k);
  }

  lemma {:induction false} LaneCaseIds(obs: seq<Observation>, k: TaskKind)
    ensures DistinctCount(Map(CaseIdOf, Lane(obs, k))) == |CaseIdsOf(obs, k)|
  {
    hide Lane;
    var lane := Lane(obs, k);
    forall z ensures z in Map(CaseIdOf, lane) <==> z in CaseIdsOf(obs, k) {
      MappedMember(CaseIdOf, lane, z);
      forall o ensures o in lane <==> o in obs && o.taskKind == k { LaneMember(obs, k, o); }
    }
    assert (set z | z in Map(CaseIdOf, lane)) == CaseIdsOf(obs, k);
  }

  lemma {:induction false} RunTrialIds(obs: seq<Observation>)
    ensures DistinctCount(Map(TrialIdOf, obs)) == |TrialIds(obs)|
  {
    forall z ensures z in Map(TrialIdOf, obs) <==> z in TrialIds(obs) { MappedMember(TrialIdOf, obs, z); }
    assert (set z | z in Map(TrialIdOf, obs)) == TrialIds(obs);
  }

  lemma {:induction false} RunCaseIds(obs: seq<Observation>)
    ensures DistinctCount(Map(CaseIdOf, obs)) == |CaseIds(obs)|
  {
    forall z ensures z in Map(CaseIdOf, obs) <==> z in CaseIds(obs) { MappedMember(CaseIdOf, obs, z); }
    assert (set z | z in Map(CaseIdOf, obs)) == CaseIds(obs);
  }

  lemma {:induction false} CountsExactly(obs: seq<Observation>)
    ensures RunCounts(obs) && (forall k | k in TASK_KINDS :: LaneCounts(Lane(obs, k))) <==> CountsRight(obs)
  {
    hide Lane, DistinctCount, TrialIdsOf, CaseIdsOf, TrialIds, CaseIds;
    RunTrialIds(obs);
    RunCaseIds(obs);
    LanesPartition(obs);
    forall k: TaskKind
      ensures LaneCounts(Lane(obs, k)) <==>
        |Lane(obs, k)| == 72 && |TrialIdsOf(obs, k)| == 72 && |CaseIdsOf(obs, k)| == 24
      ensures |TrialIdsOf(obs, k)| <= |Lane(obs, k)| && k in TASK_KINDS
    {
      LaneTrialIds(obs, k);
      LaneCaseIds(obs, k);
      DistinctAtMost(Map(TrialIdOf, Lane(obs, k)));
      EveryKindListed(k);
    }
    BothKinds(obs);
  }

  /** Two lanes of at least 72 trials each make up 144 only if they have 72 each. */
  lemma {:induction false} BothKinds(obs: seq<Observation>)
    requires |Lane(obs, GeneralChat)| + |Lane(obs, SoftwareEngineering)| == |obs|
    ensures |obs| == 144 && |Lane(obs, GeneralChat)| >= 72 && |Lane(obs, SoftwareEngineering)| >= 72 ==>
      forall k: TaskKind :: |Lane(obs, k)| == 72
  {}

  /** The lanes are complete exactly when the counts are right and each task kind ran on one route. */
  lemma {:induction false} CompletenessExactly(obs: seq<Observation>)
    requires AllValid(obs)
    ensures LanesComplete(obs) <==> CountsRight(obs) && forall k: TaskKind :: RanOnOneRoute(obs, k)
  {
    hide ValidObservation, Lane, LaneCounts, LaneServed, RunCounts, CountsRight, RanOnOneRoute;
    CountsExactly(obs);
    forall k: TaskKind ensures (LaneServed(Lane(obs, k)) <==> RanOnOneRoute(obs, k)) && k in TASK_KINDS {
      ServedExactly(obs, k);
      EveryKindListed(k);
    }
  }

  /** A baseline is established exactly when the run was not aborted, all reviews passed, no trial
      has a hard gate, the counts are right and each task kind ran on one route; else it is
      blocked. */
  lemma {:induction false} EstablishedExactly(
      focused: bool, historical: bool, backend: bool, obs: seq<Observation>, owner: bool, aborted: bool)
    requires AllValid(obs)
    ensures BaselineDecision(focused, historical, backend, obs, owner, aborted) ==
      if && !aborted && focused && historical && backend && owner
         && (forall o | o in obs :: o.hardGateFailures == [])
         && CountsRight(obs) && (forall k: TaskKind :: RanOnOneRoute(obs, k))
      then "ESTABLISHED" else "BLOCKED"
  {
    hide ValidObservation, LanesComplete, HardGateFailures, CountsRight, RanOnOneRoute;
    NoGateFailed(obs);
    CompletenessExactly(obs);
  }

  lemma {:induction false} GeneralChatFirst(a: RouteBinding, b: RouteBinding)
    requires a.key.taskKind.GeneralChat? && b.key.taskKind.SoftwareEngineering?
    ensures BindingLeq(a, b) && a != b
  {
    assert BindingSortKey(a)[0][0] == 'g' && BindingSortKey(b)[0][0] == 's';
    assert StrLeq(BindingSortKey(a)[0], BindingSortKey(b)[0]);
  }

  /** One binding per task kind, in order, each over the 72 trials of its lane and counting the
      invoked ones. */
  ghost predicate CanonicalRoutes(obs: seq<Observation>, routes: seq<RouteBinding>) {
    && |routes| == |TASK_KINDS|
    && forall i | 0 <= i < |routes| :: CanonicalFor(obs, TASK_KINDS[i], routes[i])
  }

  ghost predicate CanonicalFor(obs: seq<Observation>, k: TaskKind, b: RouteBinding) {
    && b.key.taskKind == k
    && b.laneTrialCount == TASK_KIND_TRIALS
    && b.invokedTrialCount == |Filter(Invoked, Lane(obs, k))|
  }

  /** Complete lanes give the canonical route table. */
  lemma {:induction false} CompleteLanesGiveCanonicalRoutes(obs: seq<Observation>)
    requires AllValid(obs) && LanesComplete(obs)
    ensures AuthorizedRouteBindings(obs).Ok?
    ensures CanonicalRoutes(obs, AuthorizedRouteBindings(obs).value)
  {
    hide ValidObservation, GroupedBindings, LaneCounts, LaneServed, RunCounts, Lane, InvokedKeys;
    var chat := CanonicalRoute(obs, GeneralChat);
    var engineering := CanonicalRoute(obs, SoftwareEngineering);
    forall b | b in GroupedBindings(obs) ensures b == chat || b == engineering {
      CanonicalOnly(obs, chat, engineering, b);
    }
    PairSorted(obs, chat, engineering);
    LaneSizes(obs);
    RoutesReturnIff(obs);
  }

  lemma {:induction false} PairSorted(obs: seq<Observation>, chat: RouteBinding, engineering: RouteBinding)
    requires AllValid(obs)
    requires chat in GroupedBindings(obs) && engineering in GroupedBindings(obs)
    requires chat.key.taskKind.GeneralChat? && engineering.key.taskKind.SoftwareEngineering?
    requires forall b | b in GroupedBindings(obs) :: b == chat || b == engineering
    ensures Sorted(BindingLeq, GroupedBindings(obs)) == [chat, engineering]
  {
    hide ValidObservation, GroupedBindings, BindingLeq;
    GeneralChatFirst(chat, engineering);
    ValidProfiles(obs);
    TwoInOrder(chat, engineering);
    SortedGrouped(obs, [chat, engineering]);
  }

  lemma {:induction false} TwoInOrder(a: RouteBinding, b: RouteBinding)
    requires BindingLeq(a, b) && a != b
    ensures Distinct([a, b]) && IsSorted(BindingLeq, [a, b])
  {}

  lemma {:induction false} CanonicalOnly(
      obs: seq<Observation>, chat: RouteBinding, engineering: RouteBinding, b: RouteBinding)
    requires forall o | o in obs && Invoked(o) && o.taskKind == GeneralChat :: BindingFor(obs, KeyOf(o)) == chat
    requires forall o | o in obs && Invoked(o) && o.taskKind == SoftwareEngineering ::
      BindingFor(obs, KeyOf(o)) == engineering
    requires b in GroupedBindings(obs)
    ensures b == chat || b == engineering
  {
    var o := TrialOfBinding(obs, b);
    assert o.taskKind == GeneralChat || o.taskKind == SoftwareEngineering;
  }

  lemma {:induction false} LaneSizes(obs: seq<Observation>)
    requires LanesComplete(obs)
    ensures forall k: TaskKind :: multiset(Kinds(obs))[k] == TASK_KIND_TRIALS
  {
    forall k: TaskKind ensures multiset(Kinds(obs))[k] == TASK_KIND_TRIALS {
      KindCount(obs, k);
      EveryKindListed(k);
    }
  }

  lemma {:induction false} EveryKindListed(k: TaskKind)
    ensures k in TASK_KINDS
  {
    assert TASK_KINDS[0] == k || TASK_KINDS[1] == k;
  }

  /** The one binding of a complete lane. */
  lemma {:induction false} CanonicalRoute(obs: seq<Observation>, k: TaskKind) returns (b: RouteBinding)
    requires LanesComplete(obs)
    ensures b in GroupedBindings(obs) && CanonicalFor(obs, k, b)
    ensures forall o | o in obs && Invoked(o) && o.taskKind == k :: BindingFor(obs, KeyOf(o)) == b
  {
    EveryKindListed(k);
    var key := OneRoutePerLane(obs, k);
    b := BindingFor(obs, key);
    LaneSizes(obs);
    GroupedMembers(obs, b);
    OnlyKeyCount(obs, key);
  }

  /** If a lane has one route, that route's count is the lane's invoked trials. */
  lemma {:induction false} OnlyKeyCount(obs: seq<Observation>, key: RouteKey)
    requires forall o | o in obs && Invoked(o) && o.taskKind == key.taskKind :: KeyOf(o) == key
    ensures multiset(InvokedKeys(obs))[key] == |Filter(Invoked, Lane(obs, key.taskKind))|
  {
    if obs != [] {
      OnlyKeyCount(obs[1..], key);
      var o := obs[0];
      var own := if o.taskKind == key.taskKind then [o] else [];
      assert InvokedKeys(obs) == KeysOf(o) + InvokedKeys(obs[1..]);
      assert Lane(obs, key.taskKind) == own + Lane(obs[1..], key.taskKind);
      FilterAppend(Invoked, own, Lane(obs[1..], key.taskKind));
      FilterSnoc(Invoked, [], o);
      assert [] + [o] == [o];
    }
  }
}
