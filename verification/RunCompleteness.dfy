/** What a returned run satisfies: every counting condition of lane completeness. */
module RunCompleteness {
  import opened BenchmarkContracts
  import opened LaneCompleteness
  import opened LiveExecutor
  import opened LiveRun
  import opened RouteGrouping
  import opened Sequences
  import opened TurnEvidence

  function CaseOfKind(k: TaskKind): Case -> bool { (c: Case) => c.taskKind == k }

  function IdOfCase(c: Case): string { c.caseId }

  lemma {:induction false} FilterDistinct<A, B>(f: A -> B, p: A -> bool, xs: seq<A>)
    requires Distinct(Map(f, xs))
    ensures Distinct(Map(f, Filter(p, xs)))
  {
    if xs != [] {
      var rest := Filter(p, xs[1..]);
      assert Map(f, xs)[1..] == Map(f, xs[1..]);
      FilterDistinct(f, p, xs[1..]);
      if p(xs[0]) {
        assert Filter(p, xs) == [xs[0]] + rest;
        forall i | 0 <= i < |rest| ensures f(rest[i]) != f(xs[0]) {
          FilterMember(p, xs[1..], rest[i]);
          var j :| 0 <= j < |xs[1..]| && xs[1..][j] == rest[i];
          assert Map(f, xs)[j + 1] == f(rest[i]) && Map(f, xs)[0] == f(xs[0]);
        }
      } else {
        assert Filter(p, xs) == rest;
      }
    }
  }

  /** The identity of the observation of a slot. */
  lemma {:induction false} AnswerIdentity(slots: seq<Slot>, obs: seq<Observation>, i: nat)
    requires AnswersAll(slots, obs) && i < |slots|
    ensures |obs| == |slots| && obs[i].trialId == slots[i].Id()
    ensures obs[i].caseId == slots[i].c.caseId && obs[i].taskKind == slots[i].c.taskKind
  {
    PairAt(Answers, slots, obs, i);
  }

  lemma {:induction false} RunIds(cases: seq<Case>, obs: seq<Observation>)
    requires AnswersAll(Slots(cases), obs)
    ensures Map(TrialIdOf, obs) == Ids(Slots(cases))
    ensures Map(CaseIdOf, obs) == ThreeTimes(Map(IdOfCase, cases))
  {
    hide Answers, AnswersAll;
    var slots := Slots(cases);
    SameLength(slots, obs);
    forall i | 0 <= i < |slots| ensures obs[i].trialId == slots[i].Id() && obs[i].caseId == cases[i / 3].caseId {
      AnswerIdentity(slots, obs, i);
    }
  }

  lemma {:induction false} SameLength(slots: seq<Slot>, obs: seq<Observation>)
    requires AnswersAll(slots, obs)
    ensures |obs| == |slots|
  {}

  function ThreeTimes(names: seq<string>): (r: seq<string>)
    ensures |r| == 3 * |names| && forall i | 0 <= i < |r| :: r[i] == names[i / 3]
  {
    seq(3 * |names|, i requires 0 <= i < 3 * |names| => names[i / 3])
  }

  /** Distinct trial ids force distinct case ids. */
  lemma {:induction false} DistinctCases(cases: seq<Case>)
    requires Distinct(Ids(Slots(cases)))
    ensures Distinct(Map(IdOfCase, cases))
  {
    var slots := Slots(cases);
    forall i, j | 0 <= i < j < |cases| ensures cases[i].caseId != cases[j].caseId {
      SlotAt(cases, i, 1);
      SlotAt(cases, j, 1);
      assert Ids(slots)[3 * i] != Ids(slots)[3 * j];
    }
  }

  /** A run of n cases has 3n distinct trial ids and n distinct case ids. */
  lemma {:induction false} RunCountsOf(cases: seq<Case>, obs: seq<Observation>)
    requires AnswersAll(Slots(cases), obs) && Distinct(Map(TrialIdOf, obs))
    ensures |obs| == 3 * |cases|
    ensures DistinctCount(Map(TrialIdOf, obs)) == 3 * |cases|
    ensures DistinctCount(Map(CaseIdOf, obs)) == |cases|
  {
    RunIds(cases, obs);
    DistinctCases(cases);
    DistinctCardinality(Map(TrialIdOf, obs));
    DistinctCardinality(Map(IdOfCase, cases));
    SameDistinctCount(Map(IdOfCase, cases));
  }

  /** Repeating each entry three times does not change the distinct entries. */
  lemma {:induction false} SameDistinctCount(names: seq<string>)
    ensures DistinctCount(ThreeTimes(names)) == DistinctCount(names)
  {
    var ids := ThreeTimes(names);
    forall x | x in names ensures x in ids {
      var i :| 0 <= i < |names| && names[i] == x;
      assert (3 * i) / 3 == i;
      assert ids[3 * i] == x;
    }
    assert (set x | x in ids) == (set x | x in names);
  }

  /** A lane of a run is itself a run, of the cases of its kind. */
  lemma {:induction false} LaneIsRun(cases: seq<Case>, obs: seq<Observation>, k: TaskKind)
    requires AnswersAll(Slots(cases), obs)
    ensures AnswersAll(Slots(Filter(CaseOfKind(k), cases)), Lane(obs, k))
  {
    hide Answers;
    if cases != [] {
      var c, first, rest := cases[0], obs[..3], obs[3..];
      SlotsCons(c, cases[1..]);
      assert cases == [c] + cases[1..] && obs == first + rest;
      FirstCase(cases, obs);
      SplitAnswers(Slots([c]), Slots(cases[1..]), first, rest);
      LaneIsRun(cases[1..], rest, k);
      FilterAppend(OfKind(k), first, rest);
      KeepOrDrop(first, k, c.taskKind);
      FilterCons(CaseOfKind(k), c, cases[1..]);
      if c.taskKind == k {
        SlotsCons(c, Filter(CaseOfKind(k), cases[1..]));
        JoinAnswers(Slots([c]), Slots(Filter(CaseOfKind(k), cases[1..])), first, Lane(rest, k));
      } else {
        assert [] + Lane(rest, k) == Lane(rest, k);
      }
    }
  }

  lemma {:induction false} SlotsCons(c: Case, cases: seq<Case>)
    ensures Slots([c] + cases) == Slots([c]) + Slots(cases)
  {
    assert ([c] + cases)[1..] == cases;
  }

  lemma {:induction false} FilterCons<A>(p: A -> bool, x: A, xs: seq<A>)
    ensures Filter(p, [x] + xs) == if p(x) then [x] + Filter(p, xs) else Filter(p, xs)
  {
    CollectCons(y => if p(y) then [y] else [], x, xs);
  }

  lemma {:induction false} FirstCase(cases: seq<Case>, obs: seq<Observation>)
    requires cases != [] && AnswersAll(Slots(cases), obs)
    ensures |obs| >= 3 && forall i | 0 <= i < 3 :: obs[i].taskKind == cases[0].taskKind
  {
    hide Answers, Slots;
    SlotAt(cases, 0, 1);
    SlotAt(cases, 0, 2);
    SlotAt(cases, 0, 3);
    AnswerIdentity(Slots(cases), obs, 0);
    AnswerIdentity(Slots(cases), obs, 1);
    AnswerIdentity(Slots(cases), obs, 2);
  }

  lemma {:induction false} SplitAnswers(a: seq<Slot>, b: seq<Slot>, x: seq<Observation>, y: seq<Observation>)
    requires |a| == |x| && AnswersAll(a + b, x + y)
    ensures AnswersAll(a, x) && AnswersAll(b, y)
  {
    PairwiseSplit(Answers, a, b, x, y);
  }

  lemma {:induction false} JoinAnswers(a: seq<Slot>, b: seq<Slot>, x: seq<Observation>, y: seq<Observation>)
    requires AnswersAll(a, x) && AnswersAll(b, y)
    ensures AnswersAll(a + b, x + y)
  {
    PairwiseJoin(Answers, a, b, x, y);
  }

  /** A filter on the kind keeps all or nothing of observations of one kind. */
  lemma {:induction false} KeepOrDrop(obs: seq<Observation>, k: TaskKind, kind: TaskKind)
    requires forall i | 0 <= i < |obs| :: obs[i].taskKind == kind
    ensures Filter(OfKind(k), obs) == if k == kind then obs else []
  {
    if obs != [] {
      KeepOrDrop(obs[1..], k, kind);
      assert obs == [obs[0]] + obs[1..];
      assert Filter(OfKind(k), obs) == (if k == kind then [obs[0]] else []) + Filter(OfKind(k), obs[1..]);
    }
  }

  lemma {:induction false} AnswersAreValid(slots: seq<Slot>, obs: seq<Observation>)
    requires AnswersAll(slots, obs)
    ensures AllValid(obs)
  {
    hide ReportsCase, ValidObservation;
    forall o | o in obs ensures ValidObservation(o) {
      var i :| 0 <= i < |obs| && obs[i] == o;
      PairAt(Answers, slots, obs, i);
    }
  }

  /** A returned run over a corpus with 24 official cases per task kind meets every counting
      condition, so completeness is decided by how the lanes were served alone. */
  lemma {:induction false} ReturnedRunCounts(outside: Outside, baselineId: string, cases: seq<Case>)
    requires RunLive(outside, baselineId, FRESH, cases).1.Ok?
    requires forall k | k in TASK_KINDS ::
      |Filter(CaseOfKind(k), Filter(Official, cases))| == TASK_KIND_CASES
    ensures var obs := RunLive(outside, baselineId, FRESH, cases).1.value;
      && RunCounts(obs)
      && (forall k | k in TASK_KINDS :: LaneCounts(Lane(obs, k)))
      && AllValid(obs)
      && (LanesComplete(obs) <==> forall k: TaskKind :: RanOnOneRoute(obs, k))
  {
    hide Answers, RunLive, ValidObservation, RanOnOneRoute, CountsRight;
    OneShotRun(outside, baselineId, cases);
    var selected := Filter(Official, cases);
    var obs := RunLive(outside, baselineId, FRESH, cases).1.value;
    RunIds(selected, obs);
    RunCountsOf(selected, obs);
    forall k | k in TASK_KINDS ensures LaneCounts(Lane(obs, k)) {
      LaneIsRun(selected, obs, k);
      FilterDistinct(TrialIdOf, OfKind(k), obs);
      RunCountsOf(Filter(CaseOfKind(k), selected), Lane(obs, k));
    }
    AnswersAreValid(Slots(selected), obs);
    CountsExactly(obs);
    CompletenessExactly(obs);
  }
}
