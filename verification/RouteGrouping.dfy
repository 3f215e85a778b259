/** D138 grouping of invoked trials into authorized route bindings. */
module RouteGrouping {
  import opened BenchmarkContracts
  import opened Ordering
  import opened Results
  import opened Sequences

  function KeyOf(o: Observation): RouteKey {
    RouteKey(o.taskKind, o.adapterId.GetOr(""), o.modelId.GetOr(""), o.profileId)
  }

  function KeysOf(o: Observation): seq<RouteKey> { if Invoked(o) then [KeyOf(o)] else [] }

  /** The route of every invoked trial, in order. */
  function InvokedKeys(obs: seq<Observation>): seq<RouteKey> { Collect(KeysOf, obs) }

  function KindOf(o: Observation): TaskKind { o.taskKind }

  function OfKind(k: TaskKind): Observation -> bool { (o: Observation) => o.taskKind == k }

  function Kinds(obs: seq<Observation>): seq<TaskKind> { Map(KindOf, obs) }

  /** An invoked trial without adapter or model. */
  predicate BindingMissing(o: Observation) { Invoked(o) && (o.adapterId.None? || o.modelId.None?) }

  /** The binding of a route, with the trials of its lane and its own invoked trials. */
  function BindingFor(obs: seq<Observation>, k: RouteKey): RouteBinding {
    RouteBinding(k, multiset(Kinds(obs))[k.taskKind], multiset(InvokedKeys(obs))[k])
  }

  function BindingsFor(obs: seq<Observation>, keys: seq<RouteKey>): (r: seq<RouteBinding>)
    ensures |r| == |keys|
    ensures forall i | 0 <= i < |r| :: r[i] == BindingFor(obs, keys[i])
  {
    if keys == [] then [] else [BindingFor(obs, keys[0])] + BindingsFor(obs, keys[1..])
  }

  function GroupedBindings(obs: seq<Observation>): seq<RouteBinding> {
    BindingsFor(obs, Dedup(InvokedKeys(obs)))
  }

  /** The first constructor error in the list, or the empty string. */
  function FirstBindingError(bindings: seq<RouteBinding>): string {
    if bindings == [] then ""
    else if RouteBindingError(bindings[0]) != "" then RouteBindingError(bindings[0])
    else FirstBindingError(bindings[1..])
  }

  function AuthorizedRouteBindings(obs: seq<Observation>): Result<seq<RouteBinding>> {
    if exists o | o in obs :: BindingMissing(o) then Raise("d138_invoked_binding_missing")
    else if FirstBindingError(GroupedBindings(obs)) != "" then Raise(FirstBindingError(GroupedBindings(obs)))
    else Ok(Sorted(BindingLeq, GroupedBindings(obs)))
  }

  /** `authorized_route_bindings`. */
  method GroupRoutes(obs: seq<Observation>) returns (r: Result<seq<RouteBinding>>)
    ensures r == AuthorizedRouteBindings(obs)
  {
    var laneCounts := multiset(Kinds(obs));
    var missing, order, groups := CollectGroups(obs);
    if missing { return Raise("d138_invoked_binding_missing"); }
    hide InvokedKeys, Kinds, Dedup, BindingMissing, FirstBindingError, Sorted, BindingLeq;
    CollectedGroups(InvokedKeys(obs), groups);
    r := BuildBindings(order, laneCounts, groups, GroupedBindings(obs));
  }

  lemma {:induction false} CollectedGroups(keys: seq<RouteKey>, groups: map<RouteKey, seq<Observation>>)
    requires IsGrouping(multiset(keys), groups)
    ensures forall k | k in Dedup(keys) :: k in groups && |groups[k]| == multiset(keys)[k]
  {
    forall k | k in Dedup(keys) ensures k in groups && |groups[k]| == multiset(keys)[k] {
      assert k in keys && k in multiset(keys);
    }
  }

  /** Its grouping loop: a dictionary of lists, kept here with its insertion order. */
  method CollectGroups(obs: seq<Observation>)
    returns (missing: bool, order: seq<RouteKey>, groups: map<RouteKey, seq<Observation>>)
    ensures missing <==> exists o :: o in obs && BindingMissing(o)
    ensures !missing ==> order == Dedup(InvokedKeys(obs)) && IsGrouping(multiset(InvokedKeys(obs)), groups)
  {
    missing, order, groups := false, [], map[];
    ghost var keys: seq<RouteKey> := [];
    for i := 0 to |obs|
      invariant forall o | o in obs[..i] :: !BindingMissing(o)
      invariant keys == InvokedKeys(obs[..i])
      invariant order == Dedup(keys) && IsGrouping(multiset(keys), groups)
    {
      var o := obs[i];
      TakeOneMore(obs, i);
      CollectSnoc(KeysOf, obs[..i], o);
      if o.invocationCount != 0 {
        if o.adapterId.None? || o.modelId.None? {
          assert o in obs && BindingMissing(o);
          return true, order, groups;
        }
        var key := RouteKey(o.taskKind, o.adapterId.value, o.modelId.value, o.profileId);
        DedupSnoc(keys, key);
        SnocMultiset(keys, key);
        order, groups := AddToGroup(order, groups, key, o, multiset(keys));
        keys := keys + [key];
      } else {
        assert keys + [] == keys;
      }
    }
    assert obs[..|obs|] == obs;
  }

  /** The dictionary holds one group per key seen, as long as the key was seen often. */
  ghost predicate IsGrouping(counts: multiset<RouteKey>, groups: map<RouteKey, seq<Observation>>) {
    forall k :: if k in groups then |groups[k]| == counts[k] > 0 else counts[k] == 0
  }

  /** `groups[key].append(observation)` on a default dictionary. */
  method AddToGroup(
    order: seq<RouteKey>, groups: map<RouteKey, seq<Observation>>, key: RouteKey, o: Observation,
    ghost counts: multiset<RouteKey>)
    returns (order': seq<RouteKey>, groups': map<RouteKey, seq<Observation>>)
    requires IsGrouping(counts, groups)
    ensures order' == if counts[key] > 0 then order else order + [key]
    ensures IsGrouping(counts + multiset{key}, groups')
  {
    var group := if key in groups then groups[key] + [o] else [o];
    order' := if key in groups then order else order + [key];
    groups' := groups[key := group];
  }

  lemma {:induction false} SnocMultiset<A>(xs: seq<A>, x: A)
    ensures multiset(xs + [x]) == multiset(xs) + multiset{x}
  {}

  lemma {:induction false} DedupSnoc<A>(xs: seq<A>, x: A)
    ensures Dedup(xs + [x]) == if multiset(xs)[x] > 0 then Dedup(xs) else Dedup(xs) + [x]
  {
    assert (xs + [x])[..|xs|] == xs;
    assert x in Dedup(xs) <==> x in xs;
  }

  method BuildBindings(
    order: seq<RouteKey>, laneCounts: multiset<TaskKind>, groups: map<RouteKey, seq<Observation>>,
    ghost all: seq<RouteBinding>)
    returns (r: Result<seq<RouteBinding>>)
    requires forall k | k in order :: k in groups
    requires |all| == |order|
    requires forall i | 0 <= i < |order| ::
      all[i] == RouteBinding(order[i], laneCounts[order[i].taskKind], |groups[order[i]]|)
    ensures r == if FirstBindingError(all) != "" then Raise(FirstBindingError(all)) else Ok(Sorted(BindingLeq, all))
  {
    var result: seq<RouteBinding> := [];
    for i := 0 to |order|
      invariant result == all[..i]
      invariant FirstBindingError(all) == FirstBindingError(all[i..])
    {
      var key := order[i];
      var binding := RouteBinding(key, laneCounts[key.taskKind], |groups[key]|);
      assert all[i..][0] == binding && all[i..][1..] == all[i + 1..];
      if RouteBindingError(binding) != "" { return Raise(RouteBindingError(binding)); }
      TakeOneMore(all, i);
      result := result + [binding];
    }
    assert all[..|order|] == all && all[|order|..] == [];
    r := Ok(Sorted(BindingLeq, result));
  }

  // ---------------------------------------------------------------- what the grouping means

  lemma {:induction false} GroupedMembers(obs: seq<Observation>, b: RouteBinding)
    ensures b in GroupedBindings(obs) <==> b.key in InvokedKeys(obs) && b == BindingFor(obs, b.key)
  {
    var keys := Dedup(InvokedKeys(obs));
    if b.key in InvokedKeys(obs) && b == BindingFor(obs, b.key) {
      var i :| 0 <= i < |keys| && keys[i] == b.key;
      assert GroupedBindings(obs)[i] == b;
    }
  }

  lemma {:induction false} GroupedDistinct(obs: seq<Observation>)
    ensures Distinct(GroupedBindings(obs))
  {
    var keys, all := Dedup(InvokedKeys(obs)), GroupedBindings(obs);
    forall i, j | 0 <= i < j < |all| ensures all[i] != all[j] {
      assert all[i].key == keys[i] && all[j].key == keys[j];
    }
  }

  /** No invoked trial carries the empty profile, which the identifier format excludes. */
  ghost predicate ProfilesNamed(obs: seq<Observation>) {
    forall o | o in obs :: o.profileId != Some("")
  }

  lemma {:induction false} InvokedKeyMember(obs: seq<Observation>, k: RouteKey)
    ensures k in InvokedKeys(obs) <==> exists o :: o in obs && Invoked(o) && KeyOf(o) == k
  {
    CollectMember(KeysOf, obs, k);
    if k in InvokedKeys(obs) {
      var i :| 0 <= i < |obs| && k in KeysOf(obs[i]);
      assert obs[i] in obs && KeyOf(obs[i]) == k;
    }
    if o :| o in obs && Invoked(o) && KeyOf(o) == k {
      var i :| 0 <= i < |obs| && obs[i] == o;
      assert k in KeysOf(obs[i]);
    }
  }

  /** Two bindings of one grouping that tie in the sort are the same binding. */
  lemma {:induction false} GroupedNoTies(obs: seq<Observation>, a: RouteBinding, b: RouteBinding)
    requires ProfilesNamed(obs) && a in GroupedBindings(obs) && b in GroupedBindings(obs)
    requires BindingLeq(a, b) && BindingLeq(b, a)
    ensures a == b
  {
    GroupedMembers(obs, a);
    GroupedMembers(obs, b);
    InvokedKeyMember(obs, a.key);
    InvokedKeyMember(obs, b.key);
    KeyOrder();
    SortKeyInjective(a, b);
  }

  lemma {:induction false} GroupedPermutation(obs: seq<Observation>, obs': seq<Observation>)
    requires multiset(obs) == multiset(obs')
    ensures multiset(GroupedBindings(obs)) == multiset(GroupedBindings(obs'))
  {
    MapPermutation(KindOf, obs, obs');
    CollectPermutation(KeysOf, obs, obs');
    PermutationMembers(InvokedKeys(obs), InvokedKeys(obs'));
    forall b ensures b in GroupedBindings(obs) <==> b in GroupedBindings(obs') {
      GroupedMembers(obs, b);
      GroupedMembers(obs', b);
    }
    GroupedDistinct(obs);
    GroupedDistinct(obs');
    DistinctSameElements(GroupedBindings(obs), GroupedBindings(obs'));
  }

  lemma {:induction false} BindingPreorder()
    ensures TotalPreorder(BindingLeq)
  {
    KeyOrder();
  }

  /** The sorted bindings do not depend on the order of the observations. */
  lemma {:induction false} RoutesOrderIndependent(obs: seq<Observation>, obs': seq<Observation>)
    requires multiset(obs) == multiset(obs') && ProfilesNamed(obs)
    ensures Sorted(BindingLeq, GroupedBindings(obs)) == Sorted(BindingLeq, GroupedBindings(obs'))
  {
    GroupedPermutation(obs, obs');
    BindingPreorder();
    forall a, b | a in GroupedBindings(obs) && b in GroupedBindings(obs) && BindingLeq(a, b) && BindingLeq(b, a)
      ensures a == b
    {
      GroupedNoTies(obs, a, b);
    }
    SortedPermutationInvariant(BindingLeq, GroupedBindings(obs), GroupedBindings(obs'));
  }

  /** Any ordered listing of the grouped bindings is the sorted one. */
  lemma {:induction false} SortedGrouped(obs: seq<Observation>, listing: seq<RouteBinding>)
    requires ProfilesNamed(obs)
    requires Distinct(listing) && IsSorted(BindingLeq, listing)
    requires forall b :: b in listing <==> b in GroupedBindings(obs)
    ensures Sorted(BindingLeq, GroupedBindings(obs)) == listing
  {
    var all := GroupedBindings(obs);
    GroupedDistinct(obs);
    DistinctSameElements(all, listing);
    BindingPreorder();
    SortedIsSortedPermutation(BindingLeq, all);
    forall a, b | a in listing && b in listing && BindingLeq(a, b) && BindingLeq(b, a)
      ensures a == b
    {
      GroupedNoTies(obs, a, b);
    }
    SortedUnique(BindingLeq, listing, Sorted(BindingLeq, all));
  }

  /** The bindings come in ascending order of task kind, then adapter, then model, then profile. */
  lemma {:induction false} RoutesInOrder(obs: seq<Observation>)
    requires AuthorizedRouteBindings(obs).Ok?
    ensures var r := AuthorizedRouteBindings(obs).value;
      forall i, j | 0 <= i < j < |r| ::
        var (a, b) := (r[i].key, r[j].key);
        && StrLeq(a.taskKind.Value(), b.taskKind.Value())
        && (a.taskKind == b.taskKind ==>
              && StrLeq(a.adapterId, b.adapterId)
              && (a.adapterId == b.adapterId ==>
                    && StrLeq(a.modelId, b.modelId)
                    && (a.modelId == b.modelId && a.profileId.Some? && b.profileId.Some? ==>
                          StrLeq(a.profileId.value, b.profileId.value))))
  {
    hide GroupedBindings, StrLeq;
    BindingPreorder();
    SortedSorts(BindingLeq, GroupedBindings(obs));
    var r := AuthorizedRouteBindings(obs).value;
    forall i, j | 0 <= i < j < |r|
      ensures KeyLeq(BindingSortKey(r[i]), BindingSortKey(r[j]))
    {
      assert BindingLeq(r[i], r[j]);
    }
    forall i, j | 0 <= i < j < |r|
      ensures var (a, b) := (r[i].key, r[j].key);
        && StrLeq(a.taskKind.Value(), b.taskKind.Value())
        && (a.taskKind == b.taskKind ==>
              && StrLeq(a.adapterId, b.adapterId)
              && (a.adapterId == b.adapterId ==>
                    && StrLeq(a.modelId, b.modelId)
                    && (a.modelId == b.modelId && a.profileId.Some? && b.profileId.Some? ==>
                          StrLeq(a.profileId.value, b.profileId.value))))
    {
      KeyFromLeft(r[i].key, r[j].key);
    }
  }

  lemma {:induction false} KeyFromLeft(a: RouteKey, b: RouteKey)
    requires KeyLeq(SortKey(a.taskKind.Value(), a.adapterId, a.modelId, a.profileId),
                    SortKey(b.taskKind.Value(), b.adapterId, b.modelId, b.profileId))
    ensures StrLeq(a.taskKind.Value(), b.taskKind.Value())
    ensures a.taskKind == b.taskKind ==>
      && StrLeq(a.adapterId, b.adapterId)
      && (a.adapterId == b.adapterId ==>
            && StrLeq(a.modelId, b.modelId)
            && (a.modelId == b.modelId && a.profileId.Some? && b.profileId.Some? ==>
                  StrLeq(a.profileId.value, b.profileId.value)))
  {
    hide StrLeq;
    StrOrder();
    var x := SortKey(a.taskKind.Value(), a.adapterId, a.modelId, a.profileId);
    var y := SortKey(b.taskKind.Value(), b.adapterId, b.modelId, b.profileId);
    assert x[0] == y[0] ==> Lex(StrLeq, x[1..], y[1..]);
    assert x[1..][1..] == x[2..] && y[1..][1..] == y[2..];
    assert x[0] == y[0] && x[1] == y[1] ==> Lex(StrLeq, x[2..], y[2..]);
    assert x[2..][1..] == x[3..] && y[2..][1..] == y[3..];
    assert x[0] == y[0] && x[1] == y[1] && x[2] == y[2] ==> Lex(StrLeq, x[3..], y[3..]);
    assert x[3..][1..] == [] && y[3..][1..] == [];
  }

  ghost predicate AllValid(obs: seq<Observation>) { forall o | o in obs :: ValidObservation(o) }

  /** The lane of every invoked trial holds at most 72 trials. */
  ghost predicate LanesFit(obs: seq<Observation>) {
    forall o | o in obs && Invoked(o) :: multiset(Kinds(obs))[o.taskKind] <= TASK_KIND_TRIALS
  }

  lemma {:induction false} ValidProfiles(obs: seq<Observation>)
    requires AllValid(obs)
    ensures ProfilesNamed(obs) && !exists o | o in obs :: BindingMissing(o)
  {
    forall o | o in obs ensures o.profileId != Some("") && !BindingMissing(o) { ValidObservationBinding(o); }
  }

  /** Each invoked trial is a trial of its lane. */
  lemma {:induction false} InvokedAtMostLane(obs: seq<Observation>, k: RouteKey)
    ensures multiset(InvokedKeys(obs))[k] <= multiset(Kinds(obs))[k.taskKind]
  {
    if obs != [] {
      InvokedAtMostLane(obs[1..], k);
      assert InvokedKeys(obs) == KeysOf(obs[0]) + InvokedKeys(obs[1..]);
      assert Kinds(obs) == [KindOf(obs[0])] + Kinds(obs[1..]);
    }
  }

  lemma {:induction false} ValidBindingError(obs: seq<Observation>, o: Observation)
    requires AllValid(obs) && o in obs && Invoked(o)
    ensures RouteBindingError(BindingFor(obs, KeyOf(o))) ==
            if multiset(Kinds(obs))[o.taskKind] <= TASK_KIND_TRIALS then "" else "d138_route_binding_lane_count_invalid"
  {
    hide ValidObservation, InvokedKeys, Kinds, IsId;
    ValidKey(o);
    InvokedAtMostLane(obs, KeyOf(o));
    InvokedKeyMember(obs, KeyOf(o));
    assert KeyOf(o) in multiset(InvokedKeys(obs));
  }

  lemma {:induction false} ValidKey(o: Observation)
    requires ValidObservation(o) && Invoked(o)
    ensures IsId(KeyOf(o).adapterId) && IsId(KeyOf(o).modelId) && IsOptionalId(KeyOf(o).profileId)
  {
    ValidObservationBinding(o);
    assert IdentifierError(o) == "";
  }

  lemma {:induction false} FirstBindingErrorOf(bindings: seq<RouteBinding>, code: string)
    requires code != "" && forall b | b in bindings :: RouteBindingError(b) == "" || RouteBindingError(b) == code
    ensures FirstBindingError(bindings) == if exists b | b in bindings :: RouteBindingError(b) != "" then code else ""
  {
    if bindings != [] {
      FirstBindingErrorOf(bindings[1..], code);
      assert forall b :: b in bindings <==> b == bindings[0] || b in bindings[1..];
    }
  }

  /** On constructed observations the only way to fail is an oversized lane. */
  lemma {:induction false} RoutesReturnIff(obs: seq<Observation>)
    requires AllValid(obs)
    ensures AuthorizedRouteBindings(obs) == if LanesFit(obs) then Ok(Sorted(BindingLeq, GroupedBindings(obs)))
                                            else Raise("d138_route_binding_lane_count_invalid")
  {
    hide GroupedBindings, ValidObservation, RouteBindingError, FirstBindingError, LanesFit, BindingMissing;
    ValidProfiles(obs);
    FirstErrorOf(obs);
  }

  lemma {:induction false} FirstErrorOf(obs: seq<Observation>)
    requires AllValid(obs)
    ensures FirstBindingError(GroupedBindings(obs)) ==
        if LanesFit(obs) then "" else "d138_route_binding_lane_count_invalid"
  {
    hide GroupedBindings, ValidObservation, RouteBindingError, FirstBindingError, BindingFor, KeyOf;
    var all := GroupedBindings(obs);
    forall b | b in all
        ensures RouteBindingError(b) == "" || RouteBindingError(b) == "d138_route_binding_lane_count_invalid" {
      var o := TrialOfBinding(obs, b);
      ValidBindingError(obs, o);
    }
    FirstBindingErrorOf(all, "d138_route_binding_lane_count_invalid");
    if LanesFit(obs) {
      forall b | b in all ensures RouteBindingError(b) == "" {
        var o := TrialOfBinding(obs, b);
        ValidBindingError(obs, o);
      }
    } else {
      var o :| o in obs && Invoked(o) && multiset(Kinds(obs))[o.taskKind] > TASK_KIND_TRIALS;
      ValidBindingError(obs, o);
      BindingOfTrial(obs, o);
    }
  }

  lemma {:induction false} TrialOfBinding(obs: seq<Observation>, b: RouteBinding) returns (o: Observation)
    requires b in GroupedBindings(obs)
    ensures o in obs && Invoked(o) && b == BindingFor(obs, KeyOf(o))
  {
    GroupedMembers(obs, b);
    InvokedKeyMember(obs, b.key);
    o :| o in obs && Invoked(o) && KeyOf(o) == b.key;
  }

  lemma {:induction false} BindingOfTrial(obs: seq<Observation>, o: Observation)
    requires o in obs && Invoked(o)
    ensures BindingFor(obs, KeyOf(o)) in GroupedBindings(obs)
  {
    InvokedKeyMember(obs, KeyOf(o));
    GroupedMembers(obs, BindingFor(obs, KeyOf(o)));
  }

  function InvokedCountOf(b: RouteBinding): int { b.invokedTrialCount }

  function InvokedCounts(bindings: seq<RouteBinding>): seq<int> { Map(InvokedCountOf, bindings) }

  /** Invoked counts add up to the number of invoked trials; each is at most its lane. */
  lemma {:induction false} RoutesConserveTrials(obs: seq<Observation>)
    requires AuthorizedRouteBindings(obs).Ok?
    ensures var bindings := AuthorizedRouteBindings(obs).value;
      && Sum(InvokedCounts(bindings)) == |Filter(Invoked, obs)|
      && forall b | b in bindings ::
          1 <= b.invokedTrialCount <= b.laneTrialCount == |Filter(OfKind(b.key.taskKind), obs)|
  {
    hide GroupedBindings, Sorted, BindingLeq, FirstBindingError, BindingMissing, InvokedCounts, Filter;
    SortedMembers(BindingLeq, GroupedBindings(obs));
    InvokedCountsAddUp(obs);
    forall b | b in GroupedBindings(obs)
      ensures 1 <= b.invokedTrialCount <= b.laneTrialCount == |Filter(OfKind(b.key.taskKind), obs)|
    {
      CountsOfBinding(obs, b);
    }
  }

  lemma {:induction false} InvokedCountsAddUp(obs: seq<Observation>)
    ensures Sum(InvokedCounts(Sorted(BindingLeq, GroupedBindings(obs)))) == |Filter(Invoked, obs)|
  {
    hide BindingLeq, Sorted, Sum, Filter, Dedup;
    var all := GroupedBindings(obs);
    var keys := Dedup(InvokedKeys(obs));
    SortedPermutes(BindingLeq, all);
    MapPermutation(InvokedCountOf, Sorted(BindingLeq, all), all);
    SumPermutation(InvokedCounts(Sorted(BindingLeq, all)), InvokedCounts(all));
    CountsAddUp(InvokedKeys(obs), keys);
    GroupedCounts(obs);
    InvokedLength(obs);
  }

  lemma {:induction false} GroupedCounts(obs: seq<Observation>)
    ensures InvokedCounts(GroupedBindings(obs)) == CountsOf(InvokedKeys(obs), Dedup(InvokedKeys(obs)))
  {
    hide Dedup, InvokedKeys;
  }

  lemma {:induction false} CountsOfBinding(obs: seq<Observation>, b: RouteBinding)
    requires b in GroupedBindings(obs)
    ensures 1 <= b.invokedTrialCount <= b.laneTrialCount == |Filter(OfKind(b.key.taskKind), obs)|
  {
    hide GroupedBindings, InvokedKeys, Kinds, Filter;
    GroupedMembers(obs, b);
    InvokedAtMostLane(obs, b.key);
    KindCount(obs, b.key.taskKind);
    assert b.key in multiset(InvokedKeys(obs));
  }

  lemma {:induction false} InvokedLength(obs: seq<Observation>)
    ensures |InvokedKeys(obs)| == |Filter(Invoked, obs)|
  {
    if obs != [] {
      InvokedLength(obs[1..]);
      assert Filter(Invoked, obs) == (if Invoked(obs[0]) then [obs[0]] else []) + Filter(Invoked, obs[1..]);
    }
  }

  lemma {:induction false} KindCount(obs: seq<Observation>, k: TaskKind)
    ensures multiset(Kinds(obs))[k] == |Filter(OfKind(k), obs)|
  {
    var p := OfKind(k);
    if obs != [] {
      KindCount(obs[1..], k);
      assert Kinds(obs) == [KindOf(obs[0])] + Kinds(obs[1..]);
      assert Filter(p, obs) == (if p(obs[0]) then [obs[0]] else []) + Filter(p, obs[1..]);
    }
  }

  /** The bindings come out strictly ascending, so the manifest accepts them exactly when some
      trial was invoked. */
  lemma {:induction false} ManifestAcceptsIffInvoked(obs: seq<Observation>)
    requires AllValid(obs) && AuthorizedRouteBindings(obs).Ok?
    ensures ManifestAcceptsBindings(AuthorizedRouteBindings(obs).value) <==> exists o :: o in obs && Invoked(o)
  {
    var all := GroupedBindings(obs);
    var bindings := AuthorizedRouteBindings(obs).value;
    BindingPreorder();
    SortedIsSortedPermutation(BindingLeq, all);
    SortedFixpoint(BindingLeq, bindings);
    GroupedDistinct(obs);
    DistinctPermutation(all, bindings);
    DistinctCardinality(bindings);
    if bindings != [] {
      var o := TrialOfBinding(obs, all[0]);
    }
    if o :| o in obs && Invoked(o) {
      BindingOfTrial(obs, o);
    }
  }
}
