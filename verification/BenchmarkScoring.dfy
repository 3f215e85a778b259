/** D138 scoring: the score of one observation, and the dimension scores of a run. */
module BenchmarkScoring {
  import opened BenchmarkContracts
  import opened Results
  import opened Sequences

  // ---------------------------------------------------------------- case scores

  datatype CaseScore = CaseScore(caseId: string, trialId: string, passed: nat, applicable: nat)

  /** `name` was observed with value `v`. */
  predicate Observed(o: Observation, name: string, v: bool) { (name, v) in o.propertyResults }

  function ObservedAs(o: Observation, v: bool): string -> bool { n => Observed(o, n, v) }

  function PropertyNames(o: Observation): seq<string> {
    Map(NameOf, o.propertyResults)
  }

  function Reported(o: Observation): set<string> { NameSet(PropertyNames(o)) }

  /** The required properties observed true and the forbidden ones observed false. */
  function Passed(c: Case, o: Observation): nat {
    |Filter(ObservedAs(o, true), c.required)| + |Filter(ObservedAs(o, false), c.forbidden)|
  }

  ghost predicate AllPropertiesRight(c: Case, o: Observation) {
    && (forall n | n in c.required :: Observed(o, n, true))
    && (forall n | n in c.forbidden :: Observed(o, n, false))
  }

  function ScoreOf(c: Case, o: Observation): Result<CaseScore> {
    if o.caseId != c.caseId then Raise("d138_case_observation_mismatch")
    else if o.taskKind != c.taskKind then Raise("d138_case_task_kind_mismatch")
    else if Reported(o) != c.PropertySet() then Raise("d138_observable_property_set_invalid")
    else Ok(CaseScore(c.caseId, o.trialId, Passed(c, o), |c.Properties()|))
  }

  /** A score never exceeds what applies, and is full exactly when every required property
      was observed and no forbidden one was. */
  lemma {:induction false} PassedBounded(c: Case, o: Observation)
    ensures Passed(c, o) <= |c.Properties()|
    ensures Passed(c, o) == |c.Properties()| <==> AllPropertiesRight(c, o)
  {
    FilterLength(ObservedAs(o, true), c.required);
    FilterLength(ObservedAs(o, false), c.forbidden);
  }

  /** `dict(observation.property_results)` */
  method PropertyMap(o: Observation) returns (m: map<string, bool>)
    requires Distinct(PropertyNames(o))
    ensures m.Keys == Reported(o)
    ensures forall n | n in m :: forall v :: m[n] == v <==> Observed(o, n, v)
  {
    m := map[];
    ghost var names := PropertyNames(o);
    for i := 0 to |o.propertyResults|
      invariant m.Keys == set n | n in names[..i]
      invariant forall n | n in m :: forall v :: m[n] == v <==> (n, v) in o.propertyResults[..i]
    {
      var r := o.propertyResults[i];
      TakeOneMore(names, i);
      assert o.propertyResults[..i + 1] == o.propertyResults[..i] + [r];
      assert names[i] == r.0 && forall j | 0 <= j < i :: names[j] != names[i];
      assert forall v :: (r.0, v) in o.propertyResults[..i] ==> r.0 in names[..i] by {
        assert forall j | 0 <= j < i :: names[j] == o.propertyResults[j].0;
      }
      m := m[r.0 := r.1];
    }
    assert names[..|o.propertyResults|] == names;
    assert o.propertyResults[..|o.propertyResults|] == o.propertyResults;
  }

  /** How many of `names` the observation reports with value `v`. */
  method CountObserved(names: seq<string>, v: bool, results: map<string, bool>, o: Observation) returns (count: nat)
    requires forall n | n in names :: n in results
    requires forall n | n in results :: forall w :: results[n] == w <==> Observed(o, n, w)
    ensures count == |Filter(ObservedAs(o, v), names)|
  {
    count := 0;
    ghost var p := ObservedAs(o, v);
    for i := 0 to |names|
      invariant count == |Filter(p, names[..i])|
    {
      count := count + if results[names[i]] == v then 1 else 0;
      TakeOneMore(names, i);
      FilterSnoc(p, names[..i], names[i]);
    }
    assert names[..|names|] == names;
  }

  method ScoreCase(c: Case, o: Observation) returns (r: Result<CaseScore>)
    requires c.ProperlySplit() && Distinct(PropertyNames(o))
    ensures r == ScoreOf(c, o)
  {
    if o.caseId != c.caseId { return Raise("d138_case_observation_mismatch"); }
    if o.taskKind != c.taskKind { return Raise("d138_case_task_kind_mismatch"); }
    var results := PropertyMap(o);
    var expected := c.PropertySet();
    if results.Keys != expected { return Raise("d138_observable_property_set_invalid"); }
    assert forall n | n in c.required || n in c.forbidden :: n in expected;
    var required := CountObserved(c.required, true, results, o);
    var forbidden := CountObserved(c.forbidden, false, results, o);
    ExpectedSize(c);
    var applicable := |expected|;
    assert applicable == |c.Properties()|;
    var score := CaseScore(c.caseId, o.trialId, required + forbidden, applicable);
    assert score == CaseScore(c.caseId, o.trialId, Passed(c, o), |c.Properties()|);
    r := Ok(score);
  }

  lemma {:induction false} ExpectedSize(c: Case)
    requires c.ProperlySplit()
    ensures |c.PropertySet()| == |c.Properties()|
  {
    DistinctCardinality(c.required);
    DistinctCardinality(c.forbidden);
    assert NameSet(c.required) !! NameSet(c.forbidden);
  }

  // ---------------------------------------------------------------- dimension scores

  datatype DimensionScore = DimensionScore(dimension: Dimension, passed: nat, applicable: nat) {
    function Rate(): real
      requires applicable > 0
    {
      passed as real / applicable as real
    }
  }

  datatype Totals = Totals(passed: nat, applicable: nat) {
    function Plus(t: Totals): Totals { Totals(passed + t.passed, applicable + t.applicable) }
  }

  function InSplit(cases: seq<Case>, split: Split): seq<Case> {
    Filter((c: Case) => c.split == split, cases)
  }

  /** `{case.case_id: case for case in cases}` */
  function CaseIndex(cases: seq<Case>): map<string, Case> {
    if cases == [] then map[]
    else
      var n := |cases| - 1;
      CaseIndex(cases[..n])[cases[n].caseId := cases[n]]
  }

  /** What one observation of a case adds. */
  function CaseTotals(c: Case, o: Observation): Totals { Totals(Passed(c, o), |c.Properties()|) }

  /** The observation is a trial of an indexed case in one of the dimensions. */
  predicate ScoresIn(index: map<string, Case>, dims: set<Dimension>, o: Observation) {
    o.caseId in index && index[o.caseId].primaryDimension in dims
  }

  /** The property totals over the observations scoring in `dims`. */
  function TotalsOf(index: map<string, Case>, dims: set<Dimension>, obs: seq<Observation>): Totals {
    if obs == [] then Totals(0, 0)
    else
      var o := obs[|obs| - 1];
      var t := TotalsOf(index, dims, obs[..|obs| - 1]);
      if ScoresIn(index, dims, o)
      then t.Plus(CaseTotals(index[o.caseId], o))
      else t
  }

  /** The first exception scoring raises, or the empty string. */
  function ScoringError(index: map<string, Case>, obs: seq<Observation>): string {
    if obs == [] then ""
    else
      var o := obs[|obs| - 1];
      var earlier := ScoringError(index, obs[..|obs| - 1]);
      if earlier != "" then earlier
      else if o.caseId in index && ScoreOf(index[o.caseId], o).Raise? then ScoreOf(index[o.caseId], o).code
      else ""
  }

  function DimensionScoreOf(index: map<string, Case>, d: Dimension, obs: seq<Observation>): DimensionScore {
    var t := TotalsOf(index, {d}, obs);
    DimensionScore(d, t.passed, t.applicable)
  }

  function ScoreTable(index: map<string, Case>, dims: seq<Dimension>, obs: seq<Observation>): seq<DimensionScore> {
    Map(d => DimensionScoreOf(index, d, obs), dims)
  }

  function DimensionScoresOf(cases: seq<Case>, obs: seq<Observation>, split: Split): Result<seq<DimensionScore>> {
    var chosen := InSplit(cases, split);
    var index := CaseIndex(chosen);
    if |index| != |chosen| then Raise("d138_duplicate_case_id")
    else if ScoringError(index, obs) != "" then Raise(ScoringError(index, obs))
    else if exists s | s in ScoreTable(index, DIMENSIONS, obs) :: s.applicable == 0
    then Raise("d138_dimension_observation_missing")
    else Ok(ScoreTable(index, DIMENSIONS, obs))
  }

  method ScoreDimensions(cases: seq<Case>, obs: seq<Observation>, split: Split)
    returns (r: Result<seq<DimensionScore>>)
    requires forall c | c in cases :: c.ProperlySplit()
    requires forall o | o in obs :: Distinct(PropertyNames(o))
    ensures r == DimensionScoresOf(cases, obs, split)
  {
    var chosen := InSplit(cases, split);
    var index := CaseIndex(chosen);
    IndexedCasesValid(cases, split);
    if |index| != |chosen| { return Raise("d138_duplicate_case_id"); }
    var error, totals := AccumulateTotals(index, obs);
    if error != "" { return Raise(error); }
    r := ReportScores(index, DIMENSIONS, obs, totals);
  }

  /** The loop over the dimensions: it raises at the first without an observation. */
  method ReportScores(
    ghost index: map<string, Case>, dims: seq<Dimension>, ghost obs: seq<Observation>, totals: map<Dimension, Totals>)
    returns (r: Result<seq<DimensionScore>>)
    requires forall d :: d in totals && totals[d] == TotalsOf(index, {d}, obs)
    ensures r == if exists s | s in ScoreTable(index, dims, obs) :: s.applicable == 0
                 then Raise("d138_dimension_observation_missing")
                 else Ok(ScoreTable(index, dims, obs))
  {
    var result := [];
    ghost var table := ScoreTable(index, dims, obs);
    for i := 0 to |dims|
      invariant result == table[..i]
      invariant forall s | s in result :: s.applicable != 0
    {
      var t := totals[dims[i]];
      assert table[i] == DimensionScore(dims[i], t.passed, t.applicable);
      if t.applicable == 0 {
        assert table[i] in table;
        return Raise("d138_dimension_observation_missing");
      }
      TakeOneMore(table, i);
      result := result + [DimensionScore(dims[i], t.passed, t.applicable)];
    }
    assert result == table;
    r := Ok(result);
  }

  /** The loop over the observations: it raises at the first that cannot be scored. */
  method AccumulateTotals(index: map<string, Case>, obs: seq<Observation>)
    returns (error: string, totals: map<Dimension, Totals>)
    requires ValidIndex(index)
    requires forall o | o in obs :: Distinct(PropertyNames(o))
    ensures error == ScoringError(index, obs)
    ensures error == "" ==> forall d :: d in totals && totals[d] == TotalsOf(index, {d}, obs)
  {
    EveryDimensionListed();
    totals := map d | d in DIMENSIONS :: Totals(0, 0);
    assert obs[..0] == [];
    for i := 0 to |obs|
      invariant ScoringError(index, obs[..i]) == ""
      invariant forall d :: d in totals && totals[d] == TotalsOf(index, {d}, obs[..i])
    {
      var o := obs[i];
      assert obs[..i + 1][..i] == obs[..i];
      if o.caseId in index {
        var score := ScoreCase(index[o.caseId], o);
        if score.Raise? {
          ScoreOfCodes(index[o.caseId], o);
          ScoringErrorStays(index, obs, i + 1);
          return score.code, totals;
        }
        var d := index[o.caseId].primaryDimension;
        totals := totals[d := totals[d].Plus(Totals(score.value.passed, score.value.applicable))];
      }
    }
    assert obs[..|obs|] == obs;
    error := "";
  }

  lemma {:induction false} ScoreOfCodes(c: Case, o: Observation)
    ensures ScoreOf(c, o).Raise? ==> ScoreOf(c, o).code != ""
  {}

  lemma {:induction false} IndexedCases(cases: seq<Case>)
    ensures forall id | id in CaseIndex(cases) ::
      CaseIndex(cases)[id] in cases && CaseIndex(cases)[id].caseId == id
  {
    if cases != [] {
      IndexedCases(cases[..|cases| - 1]);
      assert cases == cases[..|cases| - 1] + [cases[|cases| - 1]];
    }
  }

  ghost predicate ValidIndex(index: map<string, Case>) {
    forall id | id in index :: index[id].ProperlySplit() && index[id].caseId == id
  }

  lemma {:induction false} IndexedCasesValid(cases: seq<Case>, split: Split)
    requires forall c | c in cases :: c.ProperlySplit()
    ensures ValidIndex(CaseIndex(InSplit(cases, split)))
  {
    IndexedCases(InSplit(cases, split));
    forall c | c in InSplit(cases, split) ensures c in cases {
      FilterMember((c: Case) => c.split == split, cases, c);
    }
  }

  lemma {:induction false} ScoringErrorStays(index: map<string, Case>, obs: seq<Observation>, i: nat)
    requires i <= |obs| && ScoringError(index, obs[..i]) != ""
    ensures ScoringError(index, obs) == ScoringError(index, obs[..i])
  {
    if i < |obs| {
      var n := |obs| - 1;
      assert obs[..n][..i] == obs[..i];
      ScoringErrorStays(index, obs[..n], i);
    } else {
      assert obs[..i] == obs;
    }
  }

  // ---------------------------------------------------------------- conservation

  lemma {:induction false} TotalsStep(
      index: map<string, Case>, dims: set<Dimension>, obs: seq<Observation>, o: Observation)
    ensures TotalsOf(index, dims, obs + [o]) == TotalsOf(index, dims, obs).Plus(
              if ScoresIn(index, dims, o) then CaseTotals(index[o.caseId], o) else Totals(0, 0))
  {
    assert (obs + [o])[..|obs|] == obs;
  }

  lemma {:induction false} TotalsAdd(
      index: map<string, Case>, a: set<Dimension>, b: set<Dimension>, obs: seq<Observation>)
    requires a !! b
    ensures TotalsOf(index, a + b, obs) == TotalsOf(index, a, obs).Plus(TotalsOf(index, b, obs))
  {
    if obs != [] {
      var o, rest := obs[|obs| - 1], obs[..|obs| - 1];
      TotalsAdd(index, a, b, rest);
      TotalsStep(index, a + b, rest, o);
      TotalsStep(index, a, rest, o);
      TotalsStep(index, b, rest, o);
      assert obs == rest + [o];
      assert ScoresIn(index, a + b, o) == (ScoresIn(index, a, o) || ScoresIn(index, b, o));
      assert !(ScoresIn(index, a, o) && ScoresIn(index, b, o));
    }
  }

  /** The totals over every observation whose case is indexed, whatever its dimension. */
  function GrandTotals(index: map<string, Case>, obs: seq<Observation>): Totals {
    if obs == [] then Totals(0, 0)
    else
      var o := obs[|obs| - 1];
      var t := GrandTotals(index, obs[..|obs| - 1]);
      if o.caseId in index then t.Plus(CaseTotals(index[o.caseId], o)) else t
  }

  lemma {:induction false} TotalsOfAll(index: map<string, Case>, all: set<Dimension>, obs: seq<Observation>)
    requires forall d: Dimension :: d in all
    ensures TotalsOf(index, all, obs) == GrandTotals(index, obs)
  {
    if obs != [] { TotalsOfAll(index, all, obs[..|obs| - 1]); }
  }

  /** The sum of a list of dimension scores. */
  function SumOf(scores: seq<DimensionScore>): Totals {
    if scores == [] then Totals(0, 0)
    else Totals(scores[0].passed, scores[0].applicable).Plus(SumOf(scores[1..]))
  }

  function DimensionSet(dims: seq<Dimension>): set<Dimension> { set d | d in dims }

  lemma {:induction false} NoDimension(index: map<string, Case>, obs: seq<Observation>)
    ensures TotalsOf(index, {}, obs) == Totals(0, 0)
  {
    if obs != [] { NoDimension(index, obs[..|obs| - 1]); }
  }

  lemma {:induction false} UnconsDimensions(dims: seq<Dimension>)
    requires dims != []
    ensures DimensionSet(dims) == {dims[0]} + DimensionSet(dims[1..])
    ensures Distinct(dims) ==> dims[0] !in DimensionSet(dims[1..])
  {}

  lemma {:induction false} SumOverDimensions(
      index: map<string, Case>, dims: seq<Dimension>, obs: seq<Observation>, scores: seq<DimensionScore>)
    requires Distinct(dims) && |scores| == |dims|
    requires forall i | 0 <= i < |dims| ::
      Totals(scores[i].passed, scores[i].applicable) == TotalsOf(index, {dims[i]}, obs)
    ensures SumOf(scores) == TotalsOf(index, DimensionSet(dims), obs)
  {
    hide TotalsOf;
    if dims == [] {
      NoDimension(index, obs);
      assert DimensionSet(dims) == {};
    } else {
      hide DimensionSet;
      UnconsDimensions(dims);
      SumOverDimensions(index, dims[1..], obs, scores[1..]);
      TotalsAdd(index, {dims[0]}, DimensionSet(dims[1..]), obs);
    }
  }

  /** The scores are the nonempty totals of the twelve dimensions, in order. */
  ghost predicate IsScoreTable(index: map<string, Case>, obs: seq<Observation>, scores: seq<DimensionScore>) {
    && |scores| == |DIMENSIONS|
    && forall i | 0 <= i < |DIMENSIONS| ::
         && scores[i].dimension == DIMENSIONS[i] && scores[i].applicable > 0
         && Totals(scores[i].passed, scores[i].applicable) == TotalsOf(index, {DIMENSIONS[i]}, obs)
  }

  lemma {:induction false} TableForms(index: map<string, Case>, obs: seq<Observation>)
    requires forall s | s in ScoreTable(index, DIMENSIONS, obs) :: s.applicable != 0
    ensures IsScoreTable(index, obs, ScoreTable(index, DIMENSIONS, obs))
  {
    var scores := ScoreTable(index, DIMENSIONS, obs);
    forall i | 0 <= i < |scores| ensures scores[i].applicable > 0 {
      assert scores[i] in scores;
    }
  }

  lemma {:induction false} ScoresFormTable(cases: seq<Case>, obs: seq<Observation>, split: Split)
    requires DimensionScoresOf(cases, obs, split).Ok?
    ensures IsScoreTable(CaseIndex(InSplit(cases, split)), obs, DimensionScoresOf(cases, obs, split).value)
  {
    hide CaseIndex, InSplit, TotalsOf, ScoringError, ScoreTable, IsScoreTable;
    TableForms(CaseIndex(InSplit(cases, split)), obs);
  }

  lemma {:induction false} TableConserves(index: map<string, Case>, obs: seq<Observation>, scores: seq<DimensionScore>)
    requires IsScoreTable(index, obs, scores)
    ensures SumOf(scores) == GrandTotals(index, obs)
  {
    EveryDimensionListed();
    SumOverDimensions(index, DIMENSIONS, obs, scores);
    TotalsOfAll(index, DimensionSet(DIMENSIONS), obs);
  }

  /** Nothing is lost or counted twice: the twelve dimension totals add up to the totals of
      the observations whose case is in the split, each scored once. */
  lemma {:induction false} ScoreConservation(cases: seq<Case>, obs: seq<Observation>, split: Split)
    requires DimensionScoresOf(cases, obs, split).Ok?
    ensures SumOf(DimensionScoresOf(cases, obs, split).value)
         == GrandTotals(CaseIndex(InSplit(cases, split)), obs)
  {
    ScoresFormTable(cases, obs, split);
    TableConserves(CaseIndex(InSplit(cases, split)), obs, DimensionScoresOf(cases, obs, split).value);
  }

  lemma {:induction false} EveryDimensionListed()
    ensures Distinct(DIMENSIONS) && forall d: Dimension :: d in DIMENSIONS
  {
    forall d: Dimension ensures d in DIMENSIONS {
      match d
      case ContextFidelity => assert DIMENSIONS[0] == d;
      case ContextIsolation => assert DIMENSIONS[1] == d;
      case TaskUnderstanding => assert DIMENSIONS[2] == d;
      case ReasoningQuality => assert DIMENSIONS[3] == d;
      case PredictionQuality => assert DIMENSIONS[4] == d;
      case PlanningQuality => assert DIMENSIONS[5] == d;
      case DecisionQuality => assert DIMENSIONS[6] == d;
      case Metacognition => assert DIMENSIONS[7] == d;
      case CriticEffectiveness => assert DIMENSIONS[8] == d;
      case PublicationSafety => assert DIMENSIONS[9] == d;
      case ModelCapability => assert DIMENSIONS[10] == d;
      case EfficiencyReliability => assert DIMENSIONS[11] == d;
    }
  }

  lemma {:induction false} TotalsBounded(index: map<string, Case>, d: Dimension, obs: seq<Observation>)
    ensures TotalsOf(index, {d}, obs).passed <= TotalsOf(index, {d}, obs).applicable
    ensures TotalsOf(index, {d}, obs).passed == TotalsOf(index, {d}, obs).applicable <==>
              forall o | o in obs && ScoresIn(index, {d}, o) :: AllPropertiesRight(index[o.caseId], o)
  {
    if obs != [] {
      var n := |obs| - 1;
      TotalsBounded(index, d, obs[..n]);
      assert obs == obs[..n] + [obs[n]];
      if ScoresIn(index, {d}, obs[n]) { PassedBounded(index[obs[n].caseId], obs[n]); }
    }
  }

  /** A dimension's pass rate lies in [0, 1] and is 1 exactly when every observation in it
      got every required property right and no forbidden one wrong. */
  lemma {:induction false} PerfectRate(cases: seq<Case>, obs: seq<Observation>, split: Split, i: nat)
    requires DimensionScoresOf(cases, obs, split).Ok? && i < |DIMENSIONS|
    ensures var scores := DimensionScoresOf(cases, obs, split).value;
      var index := CaseIndex(InSplit(cases, split));
      && |scores| == |DIMENSIONS| && scores[i].applicable > 0 && 0.0 <= scores[i].Rate() <= 1.0
      && (scores[i].Rate() == 1.0 <==>
            forall o | o in obs && ScoresIn(index, {DIMENSIONS[i]}, o) :: AllPropertiesRight(index[o.caseId], o))
  {
    ScoresFormTable(cases, obs, split);
    var index, d := CaseIndex(InSplit(cases, split)), DIMENSIONS[i];
    TotalsBounded(index, d, obs);
    RateIsOne(TotalsOf(index, {d}, obs).passed, TotalsOf(index, {d}, obs).applicable);
  }

  lemma {:induction false} RateIsOne(passed: nat, applicable: nat)
    requires passed <= applicable && applicable > 0
    ensures 0.0 <= passed as real / applicable as real <= 1.0
    ensures passed as real / applicable as real == 1.0 <==> passed == applicable
  {}
}
