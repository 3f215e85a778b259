/** What the columns and the gate set of a run are for any JSON the trials hold, said over that JSON. */
module EvidenceFacts {
  import opened CanonicalJson
  import opened GovernanceContracts
  import opened OperatingSummaries
  import opened Ordering
  import opened Results
  import opened RunEvidence
  import opened Sequences

  // ---------------------------------------------------------------- numbers

  /** Python takes `v` for the integer n. */
  ghost predicate Equals(v: Json, n: int) {
    v == JInt(n) || (v == JBool(true) && n == 1) || (v == JBool(false) && n == 0)
  }

  ghost predicate Integral(v: Json) { v.JInt? || v in {JBool(true), JBool(false)} }

  lemma {:induction false} IntegralRead(v: Json)
    ensures Integral(v) <==> IsNumber(v)
    ensures IsNumber(v) ==> forall n :: Equals(v, n) <==> IntegerOf(v) == n
  {}

  /** How many of the values Python takes for n. */
  ghost function Occurrences(values: seq<Json>, n: int): nat {
    multiset(values)[JInt(n)] +
    if n == 1 then multiset(values)[JBool(true)] else if n == 0 then multiset(values)[JBool(false)] else 0
  }

  lemma {:induction false} OneMore(values: seq<Json>, n: int)
    requires values != []
    ensures Occurrences(values, n) == Occurrences(values[1..], n) + if Equals(values[0], n) then 1 else 0
  {
    UnconsMultiset(values);
  }

  lemma {:induction false} OneMoreNumber(values: seq<Json>, n: int)
    requires values != []
    ensures multiset(Map(IntegerOf, values))[n] ==
      multiset(Map(IntegerOf, values[1..]))[n] + if IntegerOf(values[0]) == n then 1 else 0
  {
    hide IntegerOf;
    UnconsMultiset(Map(IntegerOf, values));
    assert Map(IntegerOf, values)[1..] == Map(IntegerOf, values[1..]);
  }

  lemma {:induction false} NumbersCounted(values: seq<Json>, n: int)
    requires forall v | v in values :: IsNumber(v)
    ensures multiset(Map(IntegerOf, values))[n] == Occurrences(values, n)
  {
    if values != [] {
      hide IntegerOf, Occurrences, Equals, Map;
      NumbersCounted(values[1..], n);
      OneMore(values, n);
      OneMoreNumber(values, n);
      IntegralRead(values[0]);
    }
  }

  /** A counter keeps the first of the values it takes for one key. */
  lemma {:induction false} FirstText(p: Platform, values: seq<Json>, n: int) returns (k: nat)
    requires exists v | v in values :: Equals(v, n)
    requires forall v | v in values :: IsNumber(v)
    ensures k < |values| && Equals(values[k], n) && forall i | 0 <= i < k :: !Equals(values[i], n)
    ensures KeyText(p, values, n) ==
      if values[k] == JBool(true) then "True" else if values[k] == JBool(false) then "False" else IntText(n)
  {
    IntegralRead(values[0]);
    if Equals(values[0], n) {
      k := 0;
    } else {
      k := FirstText(p, values[1..], n);
      k := k + 1;
    }
  }

  /** `str` of an integer: decimal digits after an optional minus sign. */
  lemma {:induction false} IntTextReads(n: int)
    ensures var digits := if n < 0 then IntText(n)[1..] else IntText(n);
      && (n < 0 ==> IntText(n)[..1] == "-")
      && digits != "" && (forall c | c in digits :: IsDigit(c))
      && NumberOf(digits) == (if n < 0 then -n else n)
  {
    DigitsAreDigits(if n < 0 then -n else n);
  }

  // ---------------------------------------------------------------- counters

  /** A column is counted exactly when its values are all text, all null or all integers. */
  lemma {:induction false} ColumnCounts(p: Platform, values: seq<Json>)
    ensures PairCounts(p, values).Ok? <==>
      || (forall v | v in values :: v.JStr?)
      || (forall v | v in values :: v == JNull)
      || (forall v | v in values :: Integral(v))
    ensures PairCounts(p, values).Raise? ==> PairCounts(p, values) == Raise("TypeError")
    ensures values != [] && (forall v | v in values :: v == JNull) ==> PairCounts(p, values) == Ok([("None", |values|)])
  {
    forall v: Json ensures Integral(v) <==> IsNumber(v) { IntegralRead(v); }
    if values != [] && forall v | v in values :: v == JNull {
      assert values[0] in values;
    }
  }

  /** Text is counted once for each text, in ascending order. */
  lemma {:induction false} TextCounts(p: Platform, values: seq<Json>)
    requires forall v | v in values :: v.JStr?
    ensures var r := PairCounts(p, values);
      && r.Ok?
      && (forall i, j | 0 <= i < j < |r.value| :: StrLeq(r.value[i].0, r.value[j].0) && r.value[i].0 != r.value[j].0)
      && (forall s, n :: (s, n) in r.value <==> JStr(s) in values && n == multiset(values)[JStr(s)])
  {
    hide TextOf, Sorted, PairsFor, StrLeq, PairCounts;
    TextsDecide(p, values);
    var texts := Map(TextOf, values);
    var keys := Sorted(StrLeq, Dedup(texts));
    AscendingDistinct(texts);
    PairsKeys(texts, keys);
    forall s, n ensures (s, n) in PairsFor(texts, keys) <==> JStr(s) in values && n == multiset(values)[JStr(s)] {
      PairsMembers(texts, keys, (s, n));
      TextListed(values, s);
    }
  }

  lemma {:induction false} TextsDecide(p: Platform, values: seq<Json>)
    requires forall v | v in values :: v.JStr?
    ensures PairCounts(p, values) == Ok(CountedTexts(Map(TextOf, values)))
  {
    hide CountedTexts;
  }

  lemma {:induction false} TextListed(values: seq<Json>, s: string)
    requires forall v | v in values :: v.JStr?
    ensures s in Map(TextOf, values) <==> JStr(s) in values
    ensures multiset(Map(TextOf, values))[s] == multiset(values)[JStr(s)]
  {
    hide TextOf;
    TextsCounted(values, s);
    assert JStr(s) in values <==> multiset(values)[JStr(s)] > 0;
    assert s in Map(TextOf, values) <==> multiset(Map(TextOf, values))[s] > 0;
  }

  lemma {:induction false} AscendingDistinct(texts: seq<string>)
    ensures var keys := Sorted(StrLeq, Dedup(texts));
      && (forall s :: s in keys <==> s in texts)
      && (forall i, j | 0 <= i < j < |keys| :: StrLeq(keys[i], keys[j]) && keys[i] != keys[j])
  {
    StrOrder();
    SortedIsSortedPermutation(StrLeq, Dedup(texts));
    SortedMembers(StrLeq, Dedup(texts));
    DistinctPermutation(Dedup(texts), Sorted(StrLeq, Dedup(texts)));
  }

  lemma {:induction false} PairsKeys(texts: seq<string>, keys: seq<string>)
    ensures |PairsFor(texts, keys)| == |keys| && forall i | 0 <= i < |keys| :: PairsFor(texts, keys)[i].0 == keys[i]
  {}

  lemma {:induction false} TextsCounted(values: seq<Json>, s: string)
    requires forall v | v in values :: v.JStr?
    ensures multiset(Map(TextOf, values))[s] == multiset(values)[JStr(s)]
  {
    if values != [] {
      TextsCounted(values[1..], s);
      UnconsMultiset(values);
      UnconsMultiset(Map(TextOf, values));
      assert Map(TextOf, values)[1..] == Map(TextOf, values[1..]);
    }
  }

  /** Integers are counted once for each number, in numeric order, true with 1 and false with 0, under
      the text of the first of them. */
  lemma {:induction false} NumberCounts(p: Platform, values: seq<Json>) returns (numbers: seq<int>)
    requires forall v | v in values :: Integral(v)
    ensures var r := PairCounts(p, values);
      && r.Ok? && |r.value| == |numbers|
      && (forall n :: n in numbers <==> exists v | v in values :: Equals(v, n))
      && (forall i, j | 0 <= i < j < |numbers| :: numbers[i] < numbers[j])
      && (forall i | 0 <= i < |numbers| ::
            var n := numbers[i];
            r.value[i] == (KeyText(p, values, n), Occurrences(values, n)))
  {
    hide IntegerOf, Occurrences, Equals, Sorted, KeyText, PairCounts;
    forall v | v in values ensures IsNumber(v) { IntegralRead(v); }
    if values == [] {
      numbers := [];
      NoCounts(p);
    } else {
      numbers := Sorted(IntLeq, Dedup(Map(IntegerOf, values)));
      NumbersDecide(p, values);
      AscendingNumbers(Map(IntegerOf, values));
      forall n ensures n in numbers <==> exists v | v in values :: Equals(v, n) { NumberPresent(values, n); }
      forall i | 0 <= i < |numbers| { NumbersCounted(values, numbers[i]); }
    }
  }

  lemma {:induction false} NoCounts(p: Platform)
    ensures PairCounts(p, []) == Ok([])
  {}

  lemma {:induction false} NumbersDecide(p: Platform, values: seq<Json>)
    requires values != [] && forall v | v in values :: IsNumber(v)
    ensures PairCounts(p, values) == Ok(CountedNumbers(p, values))
  {
    hide CountedNumbers, CountedTexts;
    assert values[0] in values;
  }

  lemma {:induction false} AscendingNumbers(all: seq<int>)
    ensures var numbers := Sorted(IntLeq, Dedup(all));
      && (forall n :: n in numbers <==> n in all)
      && (forall i, j | 0 <= i < j < |numbers| :: numbers[i] < numbers[j])
  {
    SortedIsSortedPermutation(IntLeq, Dedup(all));
    SortedMembers(IntLeq, Dedup(all));
    DistinctPermutation(Dedup(all), Sorted(IntLeq, Dedup(all)));
  }

  lemma {:induction false} NumberPresent(values: seq<Json>, n: int)
    requires forall v | v in values :: IsNumber(v)
    ensures n in Map(IntegerOf, values) <==> exists v | v in values :: Equals(v, n)
  {
    forall v | v in values ensures Equals(v, n) <==> IntegerOf(v) == n { IntegralRead(v); }
    var all := Map(IntegerOf, values);
    if n in all {
      var i :| 0 <= i < |all| && all[i] == n;
      assert values[i] in values && Equals(values[i], n);
    }
    if v :| v in values && Equals(v, n) {
      var i :| 0 <= i < |values| && values[i] == v;
      assert all[i] == n;
    }
  }

  // ---------------------------------------------------------------- hard gates

  /** What a trial's gate field yields when Python iterates over it. */
  ghost predicate Yields(field: Json, gate: Json) {
    match field
    case JArr(items) => gate in items
    case JStr(s) => exists c | c in s :: gate == JStr([c])
    case JObj(fields) => exists f | f in fields :: gate == JStr(f.key)
    case _ => false
  }

  ghost predicate IsText(v: Json) { v.JStr? }

  /** The field reads as gates: it is false in Python or a container, and every gate is text. */
  ghost predicate GatesRead(field: Json) {
    && (field.JNull? || field in {JBool(false), JInt(0)} || field.JArr? || field.JStr? || field.JObj?)
    && forall gate | Yields(field, gate) :: IsText(gate)
  }

  lemma {:induction false} IteratedYields(field: Json)
    ensures Iterated(field).Some? <==>
      field.JNull? || field in {JBool(false), JInt(0)} || field.JArr? || field.JStr? || field.JObj?
    ensures Iterated(field).Some? ==> forall gate :: gate in Iterated(field).value <==> Yields(field, gate)
  {
    match field
    case JStr(s) =>
      var items := Iterated(field).value;
      assert forall i | 0 <= i < |s| :: items[i] == JStr([s[i]]);
      forall gate | Yields(field, gate) ensures gate in items {
        var c :| c in s && gate == JStr([c]);
        var i :| 0 <= i < |s| && s[i] == c;
        assert items[i] == gate;
      }
      forall gate | gate in items ensures Yields(field, gate) {
        var i :| 0 <= i < |items| && items[i] == gate;
        assert s[i] in s;
      }
    case JObj(fields) =>
      var items := Iterated(field).value;
      assert forall i | 0 <= i < |fields| :: items[i] == JStr(fields[i].key);
      forall gate | Yields(field, gate) ensures gate in items {
        var f :| f in fields && gate == JStr(f.key);
        var i :| 0 <= i < |fields| && fields[i] == f;
        assert items[i] == gate;
      }
      forall gate | gate in items ensures Yields(field, gate) {
        var i :| 0 <= i < |items| && items[i] == gate;
        assert fields[i] in fields;
      }
    case _ =>
  }

  lemma {:induction false} GateValue(trials: seq<Trial>, gate: Json)
    ensures gate in Collect(GateValues, trials) ==>
      exists t | t in trials :: Yields(Get(t, "hard_gate_failures"), gate)
    ensures (forall t | t in trials :: Iterated(Get(t, "hard_gate_failures")).Some?) ==>
      (gate in Collect(GateValues, trials) <==>
       exists t | t in trials :: Yields(Get(t, "hard_gate_failures"), gate))
  {
    hide Iterated, Yields, Get;
    CollectMember(GateValues, trials, gate);
    forall t | t in trials
      ensures gate in GateValues(t) ==> Yields(Get(t, "hard_gate_failures"), gate)
      ensures Iterated(Get(t, "hard_gate_failures")).Some? ==>
        (gate in GateValues(t) <==> Yields(Get(t, "hard_gate_failures"), gate))
    {
      IteratedYields(Get(t, "hard_gate_failures"));
    }
    if t :| t in trials && Yields(Get(t, "hard_gate_failures"), gate) {
      var i :| 0 <= i < |trials| && trials[i] == t;
    }
  }

  /** A gate that is not text cannot be hashed or is refused. */
  lemma {:induction false} GatesAllRead(trials: seq<Trial>)
    ensures GatesFromTrials(trials).Ok? <==> forall t | t in trials :: GatesRead(Get(t, "hard_gate_failures"))
  {
    hide Iterated, Yields, Get, Sorted;
    var values := Collect(GateValues, trials);
    forall t | t in trials ensures
      Iterated(Get(t, "hard_gate_failures")).Some? <==>
        var field := Get(t, "hard_gate_failures");
        field.JNull? || field in {JBool(false), JInt(0)} || field.JArr? || field.JStr? || field.JObj?
    {
      IteratedYields(Get(t, "hard_gate_failures"));
    }
    forall gate: Json { GateValue(trials, gate); }
    if GatesFromTrials(trials).Ok? {
      forall t, gate | t in trials && Yields(Get(t, "hard_gate_failures"), gate) ensures IsText(gate) {
        assert gate in values;
      }
    }
    if forall t | t in trials :: GatesRead(Get(t, "hard_gate_failures")) {
      forall v | v in values ensures v.JStr? { assert IsText(v); }
    }
  }

  lemma {:induction false} GatesListed(trials: seq<Trial>)
    requires GatesFromTrials(trials).Ok?
    ensures var gates := GatesFromTrials(trials).value;
      && (forall s :: s in gates <==> JStr(s) in Collect(GateValues, trials))
      && (forall i, j | 0 <= i < j < |gates| :: StrLeq(gates[i], gates[j]) && gates[i] != gates[j])
  {
    hide Sorted, TextOf, Collect, StrLeq, GatesFromTrials;
    var values := Collect(GateValues, trials);
    GatesAreTexts(trials);
    AscendingDistinct(Map(TextOf, values));
    forall s ensures s in Map(TextOf, values) <==> JStr(s) in values {
      TextListed(values, s);
    }
  }

  lemma {:induction false} GatesAreTexts(trials: seq<Trial>)
    requires GatesFromTrials(trials).Ok?
    ensures forall v | v in Collect(GateValues, trials) :: v.JStr?
    ensures GatesFromTrials(trials).value == Sorted(StrLeq, Dedup(Map(TextOf, Collect(GateValues, trials))))
  {
    hide Sorted, Collect, Map, Dedup, Iterated, Get;
  }

  /** The regenerated gates are the texts some trial yields, each once and ascending; anything else in
      a gate field raises. */
  lemma {:induction false} GatesByTrials(trials: seq<Trial>)
    ensures var r := GatesFromTrials(trials);
      && (r.Ok? <==> forall t | t in trials :: GatesRead(Get(t, "hard_gate_failures")))
      && (r.Ok? ==>
            && (forall s :: s in r.value <==> exists t | t in trials :: Yields(Get(t, "hard_gate_failures"), JStr(s)))
            && (forall i, j | 0 <= i < j < |r.value| ::
                  StrLeq(r.value[i], r.value[j]) && r.value[i] != r.value[j]))
  {
    hide Iterated, Yields, Sorted, Get, IsText;
    GatesAllRead(trials);
    if GatesFromTrials(trials).Ok? {
      GatesListed(trials);
      forall s: string { GateValue(trials, JStr(s)); }
    }
  }

  /** The official ledger is read when it is false in Python or a container of texts, or a list Python
      can sort: one gate, or integers; of these it can only differ from the regenerated texts. */
  lemma {:induction false} LedgerReads(ledger: Json)
    ensures OfficialGates(ledger).Ok? <==>
      || GatesRead(ledger)
      || (ledger.JArr? && (|ledger.items| == 1 || forall v | v in ledger.items :: Integral(v)))
    ensures OfficialGates(ledger) == Ok(None) <==> OfficialGates(ledger).Ok? && !GatesRead(ledger)
  {
    hide Iterated, Sorted, Integral, IsNumber;
    IteratedYields(ledger);
    ItemsIterate(ledger);
    forall v: Json ensures Integral(v) <==> IsNumber(v) { IntegralRead(v); }
    if Iterated(ledger).Some? {
      assert (forall v | v in Iterated(ledger).value :: v.JStr?) <==> GatesRead(ledger) by {
        assert forall v: Json :: IsText(v) <==> v.JStr?;
      }
    }
  }

  lemma {:induction false} ItemsIterate(v: Json)
    ensures v.JArr? ==> Iterated(v) == Some(v.items)
    ensures Iterated(v).Some? && !v.JArr? ==> forall x | x in Iterated(v).value :: x.JStr?
  {}

  // ---------------------------------------------------------------- the aggregate

  /** `str` of the value under a key, the empty text without the key. */
  ghost function Part(p: Platform, t: Trial, key: string): string {
    if exists f | f in t :: f.key == key then PythonText(p, Get(t, key)) else ""
  }

  /** The aggregate holds every trial as it is, by case text and then by trial text. */
  lemma {:induction false} AggregateOrdered(p: Platform, trials: seq<Trial>) returns (ordered: seq<Trial>)
    ensures multiset(ordered) == multiset(trials)
    ensures Aggregate(p, trials).JArr? && |Aggregate(p, trials).items| == |ordered|
    ensures forall i | 0 <= i < |ordered| :: Aggregate(p, trials).items[i] == JObj(ordered[i])
    ensures forall i, j | 0 <= i < j < |ordered| ::
      var a, b := Part(p, ordered[i], "case_id"), Part(p, ordered[j], "case_id");
      && StrLeq(a, b)
      && (a == b ==> StrLeq(Part(p, ordered[i], "trial_id"), Part(p, ordered[j], "trial_id")))
  {
    hide PythonText, Get, StrLeq, KeyLeq, Part;
    ordered := Sorted(AggregateLeq(p), trials);
    KeyOrder();
    SortedIsSortedPermutation(AggregateLeq(p), trials);
    forall i, j | 0 <= i < j < |ordered|
      ensures var a, b := Part(p, ordered[i], "case_id"), Part(p, ordered[j], "case_id");
        && StrLeq(a, b)
        && (a == b ==> StrLeq(Part(p, ordered[i], "trial_id"), Part(p, ordered[j], "trial_id")))
    {
      assert AggregateLeq(p)(ordered[i], ordered[j]);
      PairOrdered(p, ordered[i], ordered[j]);
    }
  }

  lemma {:induction false} PairOrdered(p: Platform, t: Trial, u: Trial)
    requires KeyLeq(AggregateKey(p, t), AggregateKey(p, u))
    ensures StrLeq(Part(p, t, "case_id"), Part(p, u, "case_id"))
    ensures Part(p, t, "case_id") == Part(p, u, "case_id") ==>
      StrLeq(Part(p, t, "trial_id"), Part(p, u, "trial_id"))
  {
    PartRead(p, t, "case_id");
    PartRead(p, t, "trial_id");
    PartRead(p, u, "case_id");
    PartRead(p, u, "trial_id");
    hide PythonText, Get, Part, KeyPart;
    KeyPairs(KeyPart(p, t, "case_id"), KeyPart(p, t, "trial_id"), KeyPart(p, u, "case_id"), KeyPart(p, u, "trial_id"));
  }

  /** Pairs of texts are ordered by the first, then by the second. */
  lemma {:induction false} KeyPairs(a: string, b: string, c: string, d: string)
    ensures KeyLeq([a, b], [c, d]) <==> StrLeq(a, c) && (a == c ==> StrLeq(b, d))
  {
    hide StrLeq;
    StrOrder();
    assert [a, b][1..] == [b] && [c, d][1..] == [d] && [b][1..] == [] && [d][1..] == [];
    assert Lex(StrLeq, [b], [d]) <==> StrLeq(b, d);
  }

  lemma {:induction false} PartRead(p: Platform, t: Trial, key: string)
    ensures KeyPart(p, t, key) == Part(p, t, key)
  {
    hide PythonText, Get;
    if HasKey(t, key) {
      var i :| 0 <= i < |t| && t[i].key == key;
      assert t[i] in t;
    }
  }

  // ---------------------------------------------------------------- loading

  ghost predicate Counted(v: Json) { v.JInt? && v.n >= 0 }

  /** A trial the summary and the routes can be computed from. */
  ghost predicate Readable(t: Trial) {
    && Counted(Get(t, "invocation_count"))
    && Counted(Get(t, "draft_generation_count"))
    && Counted(Get(t, "revision_count"))
    && (Get(t, "route_status") != JStr("unavailable") ==> Counted(Get(t, "duration_ms")))
    && !Get(t, "route_status").JArr? && !Get(t, "route_status").JObj?
    && (Get(t, "invocation_count") != JInt(0) ==>
          Get(t, "task_kind").JStr? && Get(t, "adapter_id").JStr? && Get(t, "model_id").JStr?)
  }

  ghost predicate SameIdentity(p: Platform, t: Trial, u: Trial) {
    && PythonText(p, Get(t, "case_id")) == PythonText(p, Get(u, "case_id"))
    && PythonText(p, Get(t, "trial_id")) == PythonText(p, Get(u, "trial_id"))
  }

  /** Two trial files with one identity stop the load. */
  lemma {:induction false} DuplicateRaises(p: Platform, run: Run)
    requires run.trials != []
    ensures (exists i, j :: 0 <= i < j < |run.trials| && SameIdentity(p, run.trials[i], run.trials[j])) ==>
      LoadRunEvidence(p, run) == Raise("d139_normalized_trial_duplicate")
    ensures LoadRunEvidence(p, run).Ok? ==>
      forall i, j | 0 <= i < j < |run.trials| :: !SameIdentity(p, run.trials[i], run.trials[j])
  {
    hide PythonText, Get;
    var ids := Map(Identity(p), run.trials);
    DistinctCardinality(ids);
    forall i, j | 0 <= i < j < |run.trials|
      ensures ids[i] == ids[j] <==> SameIdentity(p, run.trials[i], run.trials[j])
    {}
  }

  lemma {:induction false} ColumnRead(key: string, trials: seq<Trial>, t: Trial)
    requires t in trials
    ensures Get(t, key) in Values(key, trials)
  {
    hide Get;
    var i :| 0 <= i < |trials| && trials[i] == t;
    assert Values(key, trials)[i] in Values(key, trials);
  }

  lemma {:induction false} DurationRead(trials: seq<Trial>, t: Trial)
    requires t in trials && Get(t, "route_status") != JStr("unavailable")
    ensures Get(t, "duration_ms") in Collect(MeasuredDuration, trials)
  {
    hide Get;
    var i :| 0 <= i < |trials| && trials[i] == t;
    assert Get(t, "duration_ms") in MeasuredDuration(trials[i]);
    CollectMember(MeasuredDuration, trials, Get(t, "duration_ms"));
  }

  lemma {:induction false} SummaryReads(p: Platform, trials: seq<Trial>, t: Trial)
    requires SummaryFromTrials(p, trials).Ok? && FirstTrialError(trials) == "" && t in trials
    ensures Readable(t)
  {
    hide PairCounts, NewSummary, RawFromTrials, Get, Values, Collect, FirstTrialError;
    InvokedReads(trials, t);
    ColumnRead("route_status", trials, t);
    ColumnRead("invocation_count", trials, t);
    ColumnRead("draft_generation_count", trials, t);
    ColumnRead("revision_count", trials, t);
    if Get(t, "route_status") != JStr("unavailable") { DurationRead(trials, t); }
  }

  lemma {:induction false} InvokedReads(trials: seq<Trial>, t: Trial)
    requires FirstTrialError(trials) == "" && t in trials
    ensures Get(t, "invocation_count") != JInt(0) ==>
      Get(t, "task_kind").JStr? && Get(t, "adapter_id").JStr? && Get(t, "model_id").JStr?
  {
    hide Get;
    var i :| 0 <= i < |trials| && trials[i] == t;
    NoTrialError(trials, i);
  }

  lemma {:induction false} NoTrialError(trials: seq<Trial>, i: nat)
    requires FirstTrialError(trials) == "" && i < |trials|
    ensures TrialError(trials[i]) == ""
  {
    if i > 0 { NoTrialError(trials[1..], i - 1); }
  }

  lemma {:induction false} LoadedParts(p: Platform, run: Run)
    requires LoadRunEvidence(p, run).Ok?
    ensures run.trials != [] && FirstTrialError(run.trials) == ""
    ensures SummaryFromTrials(p, run.trials).Ok? && GatesFromTrials(run.trials).Ok?
    ensures var s := LoadRunEvidence(p, run).value;
      && s.observationCount == |run.trials|
      && s.summary == SummaryFromTrials(p, run.trials).value
      && s.hardGates == Sorted(StrLeq, Dedup(GatesFromTrials(run.trials).value))
  {
    hide PairCounts, Get, Sorted, Dedup, AggregateMatches, LiveDigestMatches, OfficialRoutes, GatesFromTrials,
         OfficialGates, SummaryFromTrials, NewSummary, AnchorsAgree, IsAnchors, WellFormedPairs, ValidAnchors, Identity,
         FirstTrialError, RoutesOf, AllOrFirst, SortedOrRaise, LaneTexts, GatesMatch, SameSummary, AnchorTexts;
  }

  lemma {:induction false} SummaryCounts(p: Platform, trials: seq<Trial>)
    requires SummaryFromTrials(p, trials).Ok?
    ensures var s, statuses := SummaryFromTrials(p, trials).value, multiset(Values("route_status", trials));
      && s.trialCount == |trials|
      && s.completedCount == statuses[JStr("completed")]
      && s.insufficientCount == statuses[JStr("insufficient")]
      && s.blockedCount == statuses[JStr("blocked")]
      && s.failedCount == statuses[JStr("failed")]
      && s.unavailableCount == statuses[JStr("unavailable")]
  {
    hide PairCounts, Values, ColumnError, Sorted, ListsError, DurationsError;
  }

  /** A run that loads has readable trials of different identities, and its snapshot counts them. */
  lemma {:induction false} LoadedRun(p: Platform, run: Run)
    requires LoadRunEvidence(p, run).Ok?
    ensures run.trials != [] && forall t | t in run.trials :: Readable(t)
    ensures forall i, j | 0 <= i < j < |run.trials| :: !SameIdentity(p, run.trials[i], run.trials[j])
    ensures var s, statuses := LoadRunEvidence(p, run).value, multiset(Values("route_status", run.trials));
      && s.observationCount == s.summary.trialCount == |run.trials|
      && s.summary.completedCount == statuses[JStr("completed")]
      && s.summary.insufficientCount == statuses[JStr("insufficient")]
      && s.summary.blockedCount == statuses[JStr("blocked")]
      && s.summary.failedCount == statuses[JStr("failed")]
      && s.summary.unavailableCount == statuses[JStr("unavailable")]
      && forall gate :: gate in s.hardGates <==>
           exists t | t in run.trials :: Yields(Get(t, "hard_gate_failures"), JStr(gate))
  {
    hide LoadRunEvidence, SummaryFromTrials, GatesFromTrials, FirstTrialError, Get, Yields, Sorted, SameIdentity,
         Readable, GatesRead, Dedup, Values;
    LoadedParts(p, run);
    SummaryCounts(p, run.trials);
    DuplicateRaises(p, run);
    GatesByTrials(run.trials);
    forall t | t in run.trials ensures Readable(t) { SummaryReads(p, run.trials, t); }
    SortedMembers(StrLeq, Dedup(GatesFromTrials(run.trials).value));
  }
}
