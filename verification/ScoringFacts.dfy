/** The scores in terms of cases and results: an independent statement of what the scoring loops
    count and when they raise. */
module ScoringFacts {
  import opened BenchmarkContracts
  import opened BenchmarkScoring
  import opened Results
  import opened Sequences

  // ---------------------------------------------------------------- one observation

  /** The required properties observed true, and the forbidden ones observed false. */
  ghost function Met(c: Case, o: Observation): set<string> { set n | n in c.required && (n, true) in o.propertyResults }

  ghost function Avoided(c: Case, o: Observation): set<string> {
    set n | n in c.forbidden && (n, false) in o.propertyResults
  }

  /** The observation is a trial of the case: same kind, and results for exactly its properties. */
  ghost predicate Scorable(c: Case, o: Observation) {
    && o.taskKind == c.taskKind
    && forall n :: (n in c.required || n in c.forbidden) <==> exists v :: (n, v) in o.propertyResults
  }

  lemma {:induction false} KeptSet<A>(p: A -> bool, xs: seq<A>, kept: set<A>)
    requires Distinct(xs) && forall x :: x in kept <==> x in xs && p(x)
    ensures |Filter(p, xs)| == |kept|
  {
    if xs == [] {
      assert kept == {};
    } else {
      assert xs == [xs[0]] + xs[1..];
      assert Filter(p, xs) == (if p(xs[0]) then [xs[0]] else []) + Filter(p, xs[1..]);
      assert xs[0] !in xs[1..];
      KeptSet(p, xs[1..], kept - {xs[0]});
      if !p(xs[0]) { assert kept - {xs[0]} == kept; }
    }
  }

  /** The passed count is the number of properties met and avoided. */
  lemma {:induction false} PassedByNames(c: Case, o: Observation)
    requires c.ProperlySplit()
    ensures Passed(c, o) == |Met(c, o)| + |Avoided(c, o)|
  {
    KeptSet(ObservedAs(o, true), c.required, Met(c, o));
    KeptSet(ObservedAs(o, false), c.forbidden, Avoided(c, o));
  }

  lemma {:induction false} ReportedNames(o: Observation, n: string)
    ensures n in Reported(o) <==> exists v :: (n, v) in o.propertyResults
  {
    if n in Reported(o) {
      var i :| 0 <= i < |PropertyNames(o)| && PropertyNames(o)[i] == n;
      assert o.propertyResults[i] == (n, o.propertyResults[i].1);
    }
    if exists v :: (n, v) in o.propertyResults {
      var v :| (n, v) in o.propertyResults;
      var i :| 0 <= i < |o.propertyResults| && o.propertyResults[i] == (n, v);
      assert PropertyNames(o)[i] == n && n in PropertyNames(o);
    }
  }

  lemma {:induction false} SameReport(c: Case, o: Observation)
    ensures Reported(o) == c.PropertySet() <==>
      forall n :: (n in c.required || n in c.forbidden) <==> exists v :: (n, v) in o.propertyResults
  {
    hide Reported;
    forall n ensures n in Reported(o) <==> exists v :: (n, v) in o.propertyResults { ReportedNames(o, n); }
    assert forall n :: n in c.PropertySet() <==> n in c.required || n in c.forbidden;
  }

  /** The score of one observation: an error unless it is a trial of the case, and else what was met
      and avoided out of all properties. */
  lemma {:induction false} ScoreByFacts(c: Case, o: Observation)
    requires c.ProperlySplit()
    ensures ScoreOf(c, o).Ok? <==> o.caseId == c.caseId && Scorable(c, o)
    ensures ScoreOf(c, o).Ok? ==>
      ScoreOf(c, o) == Ok(CaseScore(c.caseId, o.trialId, |Met(c, o)| + |Avoided(c, o)|, |c.required| + |c.forbidden|))
  {
    hide Reported, Met, Avoided, Passed;
    SameReport(c, o);
    PassedByNames(c, o);
  }

  // ---------------------------------------------------------------- the dimensions

  /** `c` is the case of `o` in the split. */
  ghost predicate CaseFor(cases: seq<Case>, split: Split, o: Observation, c: Case) {
    c in cases && c.split == split && c.caseId == o.caseId
  }

  /** No two cases of the split share an identifier. */
  ghost predicate UniqueCases(cases: seq<Case>, split: Split) {
    forall i, j | 0 <= i < j < |cases| && cases[i].split == split && cases[j].split == split ::
      cases[i].caseId != cases[j].caseId
  }

  /** What one observation adds to a dimension: nothing unless its case is of that dimension. */
  ghost function Added(cases: seq<Case>, split: Split, d: Dimension, o: Observation): Totals {
    if exists c :: CaseFor(cases, split, o, c) && c.primaryDimension == d then
      var c :| CaseFor(cases, split, o, c) && c.primaryDimension == d;
      Totals(|Met(c, o)| + |Avoided(c, o)|, |c.required| + |c.forbidden|)
    else Totals(0, 0)
  }

  ghost function TotalFor(cases: seq<Case>, split: Split, d: Dimension, obs: seq<Observation>): Totals {
    if obs == [] then Totals(0, 0)
    else TotalFor(cases, split, d, obs[..|obs| - 1]).Plus(Added(cases, split, d, obs[|obs| - 1]))
  }

  ghost predicate SomethingToScore(cases: seq<Case>, split: Split, d: Dimension, obs: seq<Observation>) {
    TotalFor(cases, split, d, obs).applicable > 0
  }

  function IdOf(c: Case): string { c.caseId }

  lemma {:induction false} SplitMember(cases: seq<Case>, split: Split, c: Case)
    ensures c in InSplit(cases, split) <==> c in cases && c.split == split
  {
    FilterMember((c: Case) => c.split == split, cases, c);
  }

  lemma {:induction false} SplitCons(cases: seq<Case>, split: Split)
    requires cases != []
    ensures InSplit(cases, split) == (if cases[0].split == split then [cases[0]] else []) + InSplit(cases[1..], split)
  {
    var p := (c: Case) => c.split == split;
    assert cases == [cases[0]] + cases[1..];
    FilterAppend(p, [cases[0]], cases[1..]);
    FilterSnoc(p, [], cases[0]);
    assert [] + [cases[0]] == [cases[0]];
  }

  lemma {:induction false} DistinctCons<A>(x: A, xs: seq<A>)
    ensures Distinct([x] + xs) <==> x !in xs && Distinct(xs)
  {
    var all := [x] + xs;
    if Distinct(all) {
      forall i, j | 0 <= i < j < |xs| ensures xs[i] != xs[j] { assert all[i + 1] != all[j + 1]; }
      forall i | 0 <= i < |xs| ensures xs[i] != x { assert all[0] != all[i + 1]; }
    }
  }

  lemma {:induction false} UniqueExactly(cases: seq<Case>, split: Split)
    ensures UniqueCases(cases, split) <==> Distinct(Map(IdOf, InSplit(cases, split)))
  {
    hide InSplit;
    if cases == [] {
      assert InSplit(cases, split) == [] by { SplitNone(split); }
    } else {
      var c, rest := cases[0], cases[1..];
      var chosen := InSplit(rest, split);
      SplitCons(cases, split);
      UniqueExactly(rest, split);
      DistinctCons(c.caseId, Map(IdOf, chosen));
      FirstUnique(cases, split);
      if c.split == split {
        assert Map(IdOf, [c] + chosen) == [c.caseId] + Map(IdOf, chosen);
        IdsOfSplit(rest, split, c.caseId);
      } else {
        assert [] + chosen == chosen;
      }
    }
  }

  lemma {:induction false} SplitNone(split: Split)
    ensures InSplit([], split) == []
  {}

  lemma {:induction false} IdsOfSplit(cases: seq<Case>, split: Split, id: string)
    ensures id in Map(IdOf, InSplit(cases, split)) <==> exists c :: c in cases && c.split == split && c.caseId == id
  {
    hide InSplit;
    var chosen := InSplit(cases, split);
    if id in Map(IdOf, chosen) {
      var i :| 0 <= i < |chosen| && Map(IdOf, chosen)[i] == id;
      SplitMember(cases, split, chosen[i]);
    }
    if c :| c in cases && c.split == split && c.caseId == id {
      SplitMember(cases, split, c);
      var i :| 0 <= i < |chosen| && chosen[i] == c;
      assert Map(IdOf, chosen)[i] == id;
    }
  }

  lemma {:induction false} FirstUnique(cases: seq<Case>, split: Split)
    requires cases != []
    ensures UniqueCases(cases, split) <==>
      && UniqueCases(cases[1..], split)
      && (cases[0].split == split ==>
            !exists c :: c in cases[1..] && c.split == split && c.caseId == cases[0].caseId)
  {
    var rest := cases[1..];
    if UniqueCases(cases, split) {
      forall i, j | 0 <= i < j < |rest| && rest[i].split == split && rest[j].split == split
        ensures rest[i].caseId != rest[j].caseId
      {
        assert cases[i + 1].caseId != cases[j + 1].caseId;
      }
    }
    if UniqueCases(rest, split) {
      forall i, j | 1 <= i < j < |cases| && cases[i].split == split && cases[j].split == split
        ensures cases[i].caseId != cases[j].caseId
      {
        assert rest[i - 1].caseId != rest[j - 1].caseId;
      }
    }
  }

  lemma {:induction false} LastMapped<A, B>(f: A -> B, xs: seq<A>, y: B)
    requires xs != []
    ensures y in Map(f, xs) <==> y in Map(f, xs[..|xs| - 1]) || y == f(xs[|xs| - 1])
  {
    var n := |xs| - 1;
    var front, all := Map(f, xs[..n]), Map(f, xs);
    assert forall i | 0 <= i < n :: all[i] == front[i];
    if y in front {
      var i :| 0 <= i < |front| && front[i] == y;
      assert all[i] == y;
    }
    if y == f(xs[n]) { assert all[n] == y; }
  }

  lemma {:induction false} IndexKeys(cases: seq<Case>, id: string)
    ensures id in CaseIndex(cases) <==> id in Map(IdOf, cases)
  {
    if cases != [] {
      var n := |cases| - 1;
      IndexKeys(cases[..n], id);
      LastMapped(IdOf, cases, id);
    }
  }

  lemma {:induction false} IndexSize(cases: seq<Case>)
    ensures |CaseIndex(cases)| == |cases| <==> Distinct(Map(IdOf, cases))
  {
    hide CaseIndex;
    var keys := CaseIndex(cases).Keys;
    forall id ensures id in keys <==> id in Map(IdOf, cases) { IndexKeys(cases, id); }
    assert keys == set id | id in Map(IdOf, cases);
    assert |CaseIndex(cases)| == |keys|;
    DistinctCardinality(Map(IdOf, cases));
  }

  lemma {:induction false} IndexFinds(cases: seq<Case>, c: Case)
    requires Distinct(Map(IdOf, cases)) && c in cases
    ensures c.caseId in CaseIndex(cases) && CaseIndex(cases)[c.caseId] == c
  {
    hide CaseIndex;
    IndexedCases(cases);
    var i :| 0 <= i < |cases| && cases[i] == c;
    assert Map(IdOf, cases)[i] == c.caseId;
    IndexKeys(cases, c.caseId);
    var d := CaseIndex(cases)[c.caseId];
    var j :| 0 <= j < |cases| && cases[j] == d;
    assert Map(IdOf, cases)[j] == c.caseId;
  }

  /** The index maps an identifier to the one case of the split that has it. */
  lemma {:induction false} IndexIsCases(cases: seq<Case>, split: Split, o: Observation, c: Case)
    requires UniqueCases(cases, split)
    ensures var index := CaseIndex(InSplit(cases, split));
      CaseFor(cases, split, o, c) <==> o.caseId in index && index[o.caseId] == c
  {
    hide CaseIndex, InSplit;
    var chosen := InSplit(cases, split);
    UniqueExactly(cases, split);
    SplitMember(cases, split, c);
    IndexedCases(chosen);
    if CaseFor(cases, split, o, c) { IndexFinds(chosen, c); }
  }

  ghost function OneTotal(index: map<string, Case>, d: Dimension, obs: seq<Observation>): Totals {
    TotalsOf(index, {d}, obs)
  }

  ghost predicate HasTotal(index: map<string, Case>, d: Dimension, obs: seq<Observation>) {
    OneTotal(index, d, obs).applicable != 0
  }

  lemma {:induction false} TotalsByCases(cases: seq<Case>, split: Split, d: Dimension, obs: seq<Observation>)
    requires UniqueCases(cases, split) && forall c | c in cases :: c.ProperlySplit()
    ensures OneTotal(CaseIndex(InSplit(cases, split)), d, obs) == TotalFor(cases, split, d, obs)
  {
    hide CaseIndex, InSplit, Added, CaseTotals;
    if obs != [] {
      TotalsByCases(cases, split, d, obs[..|obs| - 1]);
      AddedByCase(cases, split, d, obs[|obs| - 1]);
    }
  }

  lemma {:induction false} AddedByCase(cases: seq<Case>, split: Split, d: Dimension, o: Observation)
    requires UniqueCases(cases, split) && forall c | c in cases :: c.ProperlySplit()
    ensures var index := CaseIndex(InSplit(cases, split));
      Added(cases, split, d, o) ==
        if ScoresIn(index, {d}, o) then CaseTotals(index[o.caseId], o) else Totals(0, 0)
  {
    hide CaseIndex, InSplit, Met, Avoided, Passed;
    var index := CaseIndex(InSplit(cases, split));
    forall c ensures CaseFor(cases, split, o, c) <==> o.caseId in index && index[o.caseId] == c {
      IndexIsCases(cases, split, o, c);
    }
    if ScoresIn(index, {d}, o) {
      var c := index[o.caseId];
      assert CaseFor(cases, split, o, c) && c.primaryDimension == d;
      PassedByNames(c, o);
    }
  }

  lemma {:induction false} NoScoringError(index: map<string, Case>, obs: seq<Observation>)
    ensures ScoringError(index, obs) == "" <==>
      forall o | o in obs && o.caseId in index :: ScoreOf(index[o.caseId], o).Ok?
  {
    hide ScoreOf;
    if obs != [] {
      var n := |obs| - 1;
      NoScoringError(index, obs[..n]);
      assert obs == obs[..n] + [obs[n]];
      if obs[n].caseId in index { ScoreOfCodes(index[obs[n].caseId], obs[n]); }
    }
  }

  /** The score table: it is returned exactly when no two cases of the split share an identifier,
      every observation of a case of the split can be scored, and every dimension has something to
      score; it holds for each of the twelve dimensions what its observations add up to. */
  lemma {:induction false} DimensionsByFacts(cases: seq<Case>, obs: seq<Observation>, split: Split)
    requires forall c | c in cases :: c.ProperlySplit()
    ensures var r := DimensionScoresOf(cases, obs, split);
      && (r.Ok? <==>
            && UniqueCases(cases, split)
            && (forall o, c | o in obs && CaseFor(cases, split, o, c) :: Scorable(c, o))
            && (forall d: Dimension :: SomethingToScore(cases, split, d, obs)))
      && (r.Ok? ==>
            && |r.value| == 12
            && forall i | 0 <= i < 12 ::
                 var t := TotalFor(cases, split, DIMENSIONS[i], obs);
                 r.value[i] == DimensionScore(DIMENSIONS[i], t.passed, t.applicable))
  {
    hide CaseIndex, InSplit, OneTotal, ScoringError, ScoreOf, CaseFor, Scorable, TotalFor, UniqueCases, ScoreTable,
         DimensionScoresOf;
    var chosen := InSplit(cases, split);
    var index := CaseIndex(chosen);
    ReturnsTable(cases, obs, split);
    UniqueExactly(cases, split);
    IndexSize(chosen);
    if UniqueCases(cases, split) {
      forall d: Dimension
        ensures OneTotal(index, d, obs) == TotalFor(cases, split, d, obs)
        ensures HasTotal(index, d, obs) <==> SomethingToScore(cases, split, d, obs)
      {
        TotalsByCases(cases, split, d, obs);
      }
      ErrorsByCases(cases, obs, split);
      TableFilled(index, obs);
      TableAt(index, obs, 0);
      forall i | 0 <= i < 12
        ensures var t := TotalFor(cases, split, DIMENSIONS[i], obs);
          ScoreTable(index, DIMENSIONS, obs)[i] == DimensionScore(DIMENSIONS[i], t.passed, t.applicable)
      {
        TableAt(index, obs, i);
      }
    }
  }

  lemma {:induction false} ReturnsTable(cases: seq<Case>, obs: seq<Observation>, split: Split)
    ensures var r := DimensionScoresOf(cases, obs, split);
      var index := CaseIndex(InSplit(cases, split));
      && (r.Ok? <==>
            && |index| == |InSplit(cases, split)| && ScoringError(index, obs) == ""
            && !(exists s | s in ScoreTable(index, DIMENSIONS, obs) :: s.applicable == 0))
      && (r.Ok? ==> r.value == ScoreTable(index, DIMENSIONS, obs))
  {
    hide CaseIndex, InSplit, ScoringError, ScoreTable;
  }

  lemma {:induction false} TableAt(index: map<string, Case>, obs: seq<Observation>, i: nat)
    requires i < 12
    ensures |ScoreTable(index, DIMENSIONS, obs)| == 12
    ensures var t := OneTotal(index, DIMENSIONS[i], obs);
      ScoreTable(index, DIMENSIONS, obs)[i] == DimensionScore(DIMENSIONS[i], t.passed, t.applicable)
  {
    hide TotalsOf;
  }

  lemma {:induction false} ErrorsByCases(cases: seq<Case>, obs: seq<Observation>, split: Split)
    requires UniqueCases(cases, split) && forall c | c in cases :: c.ProperlySplit()
    ensures ScoringError(CaseIndex(InSplit(cases, split)), obs) == "" <==>
      forall o, c | o in obs && CaseFor(cases, split, o, c) :: Scorable(c, o)
  {
    hide CaseIndex, InSplit, ScoringError, ScoreOf, Scorable, UniqueCases, Case.ProperlySplit;
    var index := CaseIndex(InSplit(cases, split));
    NoScoringError(index, obs);
    forall o, c | o in obs
      ensures CaseFor(cases, split, o, c) <==> o.caseId in index && index[o.caseId] == c
      ensures CaseFor(cases, split, o, c) ==> (ScoreOf(c, o).Ok? <==> Scorable(c, o))
    {
      IndexIsCases(cases, split, o, c);
      if CaseFor(cases, split, o, c) { ScoreByFacts(c, o); }
    }
    forall o | o in obs && o.caseId in index ensures CaseFor(cases, split, o, index[o.caseId]) {
      IndexIsCases(cases, split, o, index[o.caseId]);
    }
  }

  lemma {:induction false} TableFilled(index: map<string, Case>, obs: seq<Observation>)
    ensures (exists s | s in ScoreTable(index, DIMENSIONS, obs) :: s.applicable == 0) <==>
      !(forall d: Dimension :: HasTotal(index, d, obs))
  {
    hide OneTotal, ScoreTable;
    var table := ScoreTable(index, DIMENSIONS, obs);
    EveryDimensionListed();
    if s :| s in table && s.applicable == 0 {
      TableAt(index, obs, 0);
      var i :| 0 <= i < |table| && table[i] == s;
      TableAt(index, obs, i);
      assert !HasTotal(index, DIMENSIONS[i], obs);
    }
    if !(forall d: Dimension :: HasTotal(index, d, obs)) {
      var d: Dimension :| !HasTotal(index, d, obs);
      assert d in DIMENSIONS;
      var i :| 0 <= i < |DIMENSIONS| && DIMENSIONS[i] == d;
      TableAt(index, obs, i);
      assert table[i] in table && table[i].applicable == 0;
    }
  }
}
