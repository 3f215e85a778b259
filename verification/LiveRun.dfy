/** `run_live_evaluation`: the runner that drives the executor over 48 cases of 3 trials. */
module LiveRun {
  import opened BenchmarkContracts
  import opened LiveExecutor
  import opened Results
  import opened Sequences
  import opened TurnEvidence

  datatype Slot = Slot(c: Case, index: nat) {
    function Id(): string { TrialId(c.caseId, index) }
  }

  predicate Official(c: Case) { c.split.Evaluation? && c.liveEligible }

  /** `official_evaluation_cases` */
  function OfficialCases(cases: seq<Case>): Result<seq<Case>> {
    var selected := Filter(Official, cases);
    if |selected| != OFFICIAL_CASES then Raise("d138_evaluation_case_count_invalid") else Ok(selected)
  }

  /** The official cases are the live-eligible evaluation cases, in order; there must be 48. */
  lemma {:induction false} OfficialCasesExactly(cases: seq<Case>) returns (at: seq<nat>)
    ensures forall i, j | 0 <= i < j < |at| :: at[i] < at[j] < |cases|
    ensures forall k | 0 <= k < |cases| :: k in at <==> cases[k].split == Evaluation && cases[k].liveEligible
    ensures if |at| != 48 then OfficialCases(cases) == Raise("d138_evaluation_case_count_invalid")
            else
              && OfficialCases(cases).Ok? && |OfficialCases(cases).value| == 48
              && forall i | 0 <= i < 48 :: at[i] < |cases| && OfficialCases(cases).value[i] == cases[at[i]]
  {
    hide Filter;
    at := FilterPositions(Official, cases);
    forall k | 0 <= k < |cases| ensures k in at <==> Official(cases[k]) {
      if k in at { var i :| 0 <= i < |at| && at[i] == k; }
    }
  }

  /** The trials of a run, case by case. */
  function Slots(cases: seq<Case>): (r: seq<Slot>)
    ensures |r| == TRIALS_PER_CASE * |cases|
    ensures forall i | 0 <= i < |r| :: r[i] == Slot(cases[i / 3], i % 3 + 1)
  {
    if cases == [] then []
    else
      var rest := Slots(cases[1..]);
      assert forall i | 3 <= i < 3 + |rest| :: (i - 3) / 3 == i / 3 - 1 && (i - 3) % 3 == i % 3;
      [Slot(cases[0], 1), Slot(cases[0], 2), Slot(cases[0], 3)] + rest
  }

  /** One trial as the runner asks for it: it projects the case itself and checks the identity
      of what comes back. */
  function TrialStep(outside: Outside, baselineId: string, s: State, slot: Slot): (State, Result<Observation>) {
    if slot.index == 1 && slot.c.trialPolicy != "live_3" then (s, Raise("d138_live_trial_policy_invalid"))
    else
      match FixtureJson(slot.c)
      case Raise(code) => (s, Raise(code))
      case Ok(json) =>
        var request := RequestOf(baselineId, slot.c, slot.index, slot.c.ownerRequest, json);
        var (s', r) := CallStep(outside.judge, s, slot.c, slot.index, slot.c.ownerRequest, json,
                                outside.port(request), outside.elapsed(request));
        if r.Raise? then (s', r)
        else if r.value.caseId != slot.c.caseId then (s', Raise("d138_live_case_mismatch"))
        else if r.value.trialId != slot.Id() then (s', Raise("d138_live_trial_id_invalid"))
        else if r.value.taskKind != slot.c.taskKind then (s', Raise("d138_live_task_kind_mismatch"))
        else (s', r)
  }

  type Stepper = (State, Slot) -> (State, Result<Observation>)

  function StepOf(outside: Outside, baselineId: string): Stepper {
    (s: State, slot: Slot) => TrialStep(outside, baselineId, s, slot)
  }

  /** The trials in order, up to the first exception, which aborts the executor. */
  function RunSlots(
      step: Stepper, s: State, slots: seq<Slot>, done: seq<Observation>): (State, Result<seq<Observation>>)
    decreases |slots|
  {
    if slots == [] then (s, Ok(done))
    else
      var (s', r) := step(s, slots[0]);
      match r
      case Raise(code) => (AbortStep(s'), Raise(code))
      case Ok(o) => RunSlots(step, s', slots[1..], done + [o])
  }

  /** The whole run. */
  function RunLive(outside: Outside, baselineId: string, s: State, cases: seq<Case>)
    : (State, Result<seq<Observation>>)
  {
    match OfficialCases(cases)
    case Raise(code) => (AbortStep(s), Raise(code))
    case Ok(selected) =>
      var (s', r) := RunSlots(StepOf(outside, baselineId), s, Slots(selected), []);
      if r.Raise? then (s', r)
      else if |r.value| != OFFICIAL_TRIALS then (s', Raise("d138_live_trial_count_invalid"))
      else
        var (s'', error) := CompleteStep(s');
        if error != "" then (s'', Raise(error)) else (s'', r)
  }

  // ---------------------------------------------------------------- the loops

  /** The body of the inner loop: one call of the executor and the checks on its result. */
  method RunTrial(executor: D138LiveExecutor, c: Case, index: nat) returns (r: Result<Observation>)
    requires index != 1 || c.trialPolicy == "live_3"
    modifies executor
    ensures (executor.Current(), r)
         == TrialStep(executor.outside, executor.baselineId, old(executor.Current()), Slot(c, index))
  {
    var json := FixtureJson(c);
    if json.Raise? { return Raise(json.code); }
    r := executor.CallTrial(c, index, c.ownerRequest, json.value);
    if r.Raise? { return; }
    if r.value.caseId != c.caseId { return Raise("d138_live_case_mismatch"); }
    if r.value.trialId != TrialId(c.caseId, index) { return Raise("d138_live_trial_id_invalid"); }
    if r.value.taskKind != c.taskKind { return Raise("d138_live_task_kind_mismatch"); }
  }

  method RunLiveEvaluation(cases: seq<Case>, executor: D138LiveExecutor) returns (r: Result<seq<Observation>>)
    modifies executor
    ensures (executor.Current(), r)
         == RunLive(executor.outside, executor.baselineId, old(executor.Current()), cases)
  {
    var official := OfficialCases(cases);
    if official.Raise? {
      executor.AbortRun();
      return Raise(official.code);
    }
    r := RunCases(official.value, executor);
    if r.Raise? { return; }
    if |r.value| != OFFICIAL_TRIALS { return Raise("d138_live_trial_count_invalid"); }
    var error := executor.CompleteRun();
    if error != "" { return Raise(error); }
  }

  lemma {:induction false} RunSlotsUnfold(step: Stepper, s: State, slots: seq<Slot>, k: nat, done: seq<Observation>)
    requires k < |slots|
    ensures RunSlots(step, s, slots[k..], done) ==
            var (s', r) := step(s, slots[k]);
            if r.Raise? then (AbortStep(s'), Raise(r.code))
            else RunSlots(step, s', slots[k + 1..], done + [r.value])
  {
    var rest := slots[k..];
    assert rest[0] == slots[k] && rest[1..] == slots[k + 1..];
    var (s', r) := step(s, rest[0]);
    assert step(s, slots[k]) == (s', r);
    if r.Raise? {
      assert RunSlots(step, s, rest, done) == (AbortStep(s'), Raise(r.code));
    } else {
      assert RunSlots(step, s, rest, done) == RunSlots(step, s', rest[1..], done + [r.value]);
    }
  }

  method RunCases(selected: seq<Case>, executor: D138LiveExecutor) returns (r: Result<seq<Observation>>)
    modifies executor
    ensures (executor.Current(), r)
         == RunSlots(StepOf(executor.outside, executor.baselineId), old(executor.Current()), Slots(selected), [])
  {
    hide TrialStep;
    var observations: seq<Observation> := [];
    ghost var slots, start := Slots(selected), executor.Current();
    ghost var step := StepOf(executor.outside, executor.baselineId);
    assert slots[0..] == slots;
    for i := 0 to |selected|
      invariant RunSlots(step, executor.Current(), slots[3 * i..], observations) == RunSlots(step, start, slots, [])
    {
      var error;
      error, observations := RunCase(selected, i, executor, observations);
      if error.Some? { return Raise(error.value); }
    }
    assert slots[|slots|..] == [];
    r := Ok(observations);
  }

  /** The body of the outer loop. */
  method RunCase(selected: seq<Case>, i: nat, executor: D138LiveExecutor, observations: seq<Observation>)
    returns (error: Option<string>, observations': seq<Observation>)
    requires i < |selected|
    modifies executor
    ensures var step, slots := StepOf(executor.outside, executor.baselineId), Slots(selected);
      var before := RunSlots(step, old(executor.Current()), slots[3 * i..], observations);
      before == if error.Some? then (executor.Current(), Raise(error.value))
                else RunSlots(step, executor.Current(), slots[3 * (i + 1)..], observations')
  {
    hide TrialStep, RunSlots, Slots;
    var c := selected[i];
    ghost var step, slots := StepOf(executor.outside, executor.baselineId), Slots(selected);
    ghost var before := RunSlots(step, executor.Current(), slots[3 * i..], observations);
    observations' := observations;
    SlotAt(selected, i, 1);
    RunSlotsUnfold(step, executor.Current(), slots, 3 * i, observations);
    if c.trialPolicy != "live_3" {
      PolicyRaises(executor.outside, executor.baselineId, executor.Current(), Slot(c, 1));
      executor.AbortRun();
      return Some("d138_live_trial_policy_invalid"), observations;
    }
    for index := 1 to TRIALS_PER_CASE + 1
      invariant before == RunSlots(step, executor.Current(), slots[3 * i + index - 1..], observations')
    {
      SlotAt(selected, i, index);
      RunSlotsUnfold(step, executor.Current(), slots, 3 * i + index - 1, observations');
      var observation := RunTrial(executor, c, index);
      if observation.Raise? {
        executor.AbortRun();
        return Some(observation.code), observations';
      }
      observations' := observations' + [observation.value];
    }
    error := None;
  }

  lemma {:induction false} PolicyRaises(outside: Outside, baselineId: string, s: State, slot: Slot)
    requires slot.index == 1 && slot.c.trialPolicy != "live_3"
    ensures TrialStep(outside, baselineId, s, slot) == (s, Raise("d138_live_trial_policy_invalid"))
  {}

  lemma {:induction false} SlotAt(selected: seq<Case>, i: nat, index: nat)
    requires i < |selected| && 1 <= index <= TRIALS_PER_CASE
    ensures 3 * i + index - 1 < |Slots(selected)|
    ensures Slots(selected)[3 * i + index - 1] == Slot(selected[i], index)
  {
    var k := 3 * i + index - 1;
    assert k / 3 == i && k % 3 == index - 1;
  }

  // ---------------------------------------------------------------- what a run guarantees

  /** The observation of a slot. */
  ghost predicate Answers(slot: Slot, o: Observation) {
    ReportsCase(slot.c, slot.Id(), o) && ValidObservation(o)
  }

  ghost predicate AnswersAll(slots: seq<Slot>, obs: seq<Observation>) {
    Pairwise(Answers, slots, obs)
  }

  function Ids(slots: seq<Slot>): (r: seq<string>)
    ensures |r| == |slots| && forall i | 0 <= i < |r| :: r[i] == slots[i].Id()
  {
    if slots == [] then [] else [slots[0].Id()] + Ids(slots[1..])
  }

  /** What one trial of an active run does. */
  ghost predicate TrialEffect(slot: Slot, s: State, s': State, r: Result<Observation>) {
    && Safe(s') && !s'.complete
    && (r.Ok? ==> Answers(slot, r.value) && !s'.aborted && s'.sent == s.sent + [slot.Id()])
  }

  ghost predicate Effective(step: Stepper) {
    forall s, slot | Safe(s) && !s.aborted && !s.complete ::
      TrialEffect(slot, s, step(s, slot).0, step(s, slot).1)
  }

  lemma {:induction false} CallEffect(
    judge: Judge, s: State, slot: Slot, ownerRequest: string, contextJson: string, reply: PortReply, elapsed: nat)
    requires Safe(s) && !s.aborted && !s.complete
    ensures var (s', r) := CallStep(judge, s, slot.c, slot.index, ownerRequest, contextJson, reply, elapsed);
      TrialEffect(slot, s, s', r)
  {
    hide SendTrial, Safe, ValidObservation, ReportsCase, AbortCode, FixtureJson;
    SendSafe(judge, s, slot.c, slot.Id(), reply, elapsed);
    SendRunning(judge, s, slot.c, slot.Id(), reply, elapsed);
    SendEffect(judge, s, slot.c, slot.Id(), reply, elapsed);
  }

  lemma {:induction false} SendRunning(judge: Judge, s: State, c: Case, trialId: string, reply: PortReply, elapsed: nat)
    requires !s.complete
    ensures !SendTrial(judge, s, c, trialId, reply, elapsed).0.complete
  {
    hide MakeObservation;
  }

  lemma {:induction false} TrialStepEffective(outside: Outside, baselineId: string)
    ensures Effective(StepOf(outside, baselineId))
  {
    forall s, slot | Safe(s) && !s.aborted && !s.complete
      ensures TrialEffect(slot, s, StepOf(outside, baselineId)(s, slot).0, StepOf(outside, baselineId)(s, slot).1)
    {
      TrialStepEffect(outside, baselineId, s, slot);
    }
  }

  lemma {:induction false} TrialStepEffect(outside: Outside, baselineId: string, s: State, slot: Slot)
    requires Safe(s) && !s.aborted && !s.complete
    ensures var (s', r) := TrialStep(outside, baselineId, s, slot); TrialEffect(slot, s, s', r)
  {
    match FixtureJson(slot.c)
    case Raise(_) =>
    case Ok(json) =>
      var request := RequestOf(baselineId, slot.c, slot.index, slot.c.ownerRequest, json);
      CallEffect(outside.judge, s, slot, slot.c.ownerRequest, json, outside.port(request), outside.elapsed(request));
  }

  lemma {:induction false} RunSlotsEffect(
      step: Stepper, s: State, done: seq<Slot>, slots: seq<Slot>, obs: seq<Observation>)
    requires Effective(step) && Safe(s) && !s.aborted && !s.complete
    requires AnswersAll(done, obs) && s.sent == Ids(done)
    ensures var (s', r) := RunSlots(step, s, slots, obs);
      && Safe(s') && !s'.complete && (s'.aborted <==> r.Raise?)
      && (r.Ok? ==> AnswersAll(done + slots, r.value) && s'.sent == Ids(done + slots))
    decreases |slots|
  {
    if slots == [] {
      assert done + slots == done;
    } else {
      RunSlotsUnfold(step, s, slots, 0, obs);
      assert slots[0..] == slots;
      var (s', r) := step(s, slots[0]);
      assert TrialEffect(slots[0], s, step(s, slots[0]).0, step(s, slots[0]).1);
      if r.Ok? {
        ExtendAnswers(done, slots, obs, r.value);
        RunSlotsEffect(step, s', done + [slots[0]], slots[1..], obs + [r.value]);
      }
    }
  }

  lemma {:induction false} ExtendAnswers(done: seq<Slot>, slots: seq<Slot>, obs: seq<Observation>, o: Observation)
    requires slots != [] && AnswersAll(done, obs) && Answers(slots[0], o)
    ensures AnswersAll(done + [slots[0]], obs + [o])
    ensures Ids(done + [slots[0]]) == Ids(done) + [slots[0].Id()]
    ensures (done + [slots[0]]) + slots[1..] == done + slots
  {
    hide ReportsCase, ValidObservation;
    PairwiseSnoc(Answers, done, obs, slots[0], o);
    assert Ids(done + [slots[0]]) == Ids(done) + [slots[0].Id()];
  }

  lemma {:induction false} NoneAnswered()
    ensures AnswersAll([], []) && Ids([]) == []
  {}

  lemma {:induction false} AllAnswered(slots: seq<Slot>, r: Result<seq<Observation>>)
    requires r.Ok? ==> AnswersAll(slots, r.value)
    ensures r.Ok? ==> |r.value| == |slots| == |Ids(slots)|
  {}

  /** A run of a fresh executor either returns the 144 observations of the 48 official cases,
      case by case and T1 to T3 within each, with distinct trial ids, each sent to the port
      exactly once in that order, and leaves the executor completed; or it raises and leaves the
      executor aborted. */
  lemma {:induction false} OneShotRun(outside: Outside, baselineId: string, cases: seq<Case>)
    ensures var (s, r) := RunLive(outside, baselineId, FRESH, cases);
      && Safe(s) && (s.complete <==> r.Ok?) && (s.aborted <==> r.Raise?)
      && (r.Ok? ==>
            && OfficialCases(cases).Ok?
            && var slots := Slots(OfficialCases(cases).value);
               |r.value| == OFFICIAL_TRIALS && AnswersAll(slots, r.value) && s.sent == Ids(slots) && Distinct(s.sent))
  {
    hide TrialStep, RunSlots, AnswersAll, Slots, Official;
    if OfficialCases(cases).Ok? {
      var slots, step := Slots(OfficialCases(cases).value), StepOf(outside, baselineId);
      TrialStepEffective(outside, baselineId);
      NoneAnswered();
      RunSlotsEffect(step, FRESH, [], slots, []);
      assert [] + slots == slots;
      AllAnswered(slots, RunSlots(step, FRESH, slots, []).1);
      DistinctCardinality(RunSlots(step, FRESH, slots, []).0.sent);
    }
  }

  // ---------------------------------------------------------------- what was asked and recorded

  /** The observation is made from the port's reply to this request. */
  ghost predicate MadeFrom(outside: Outside, c: Case, request: TurnRequest, o: Observation) {
    && outside.port(request).Returned?
    && MakeObservation(outside.judge, c, request.trialId, outside.port(request).evidence, outside.elapsed(request))
       == Made(o)
  }

  /** The request names the run, the case, the trial and the task kind, and shows the owner's request
      and the model-facing fixture. */
  ghost predicate Asks(baselineId: string, slot: Slot, request: TurnRequest) {
    && request.baselineId == baselineId && request.caseId == slot.c.caseId
    && request.trialId == slot.c.caseId + (if slot.index == 1 then ":T1" else if slot.index == 2 then ":T2" else ":T3")
    && request.taskKind == slot.c.taskKind && request.ownerRequest == slot.c.ownerRequest
    && ContextShown(slot.c, request.contextJson)
  }

  ghost predicate Recorded(outside: Outside, baselineId: string, slot: Slot, o: Observation) {
    exists request :: Asks(baselineId, slot, request) && MadeFrom(outside, slot.c, request, o)
  }

  ghost predicate AllRecorded(outside: Outside, baselineId: string, slots: seq<Slot>, obs: seq<Observation>) {
    |obs| == |slots| && forall i | 0 <= i < |slots| :: Recorded(outside, baselineId, slots[i], obs[i])
  }

  lemma {:induction false} StepRecords(outside: Outside, baselineId: string, s: State, slot: Slot)
    requires slot.index in {1, 2, 3}
    ensures var r := TrialStep(outside, baselineId, s, slot).1; r.Ok? ==> Recorded(outside, baselineId, slot, r.value)
  {
    hide MakeObservation, ContextShown, CallStep, FixtureJson;
    if FixtureJson(slot.c).Ok? {
      var json := FixtureJson(slot.c).value;
      var request := RequestOf(baselineId, slot.c, slot.index, slot.c.ownerRequest, json);
      LiveExecutor.CallEffect(outside.judge, s, slot.c, slot.index, slot.c.ownerRequest, json, outside.port(request),
                              outside.elapsed(request));
      ContextExactly(slot.c, json);
      TrialIdForm(slot.c.caseId, slot.index);
      if TrialStep(outside, baselineId, s, slot).1.Ok? {
        assert Asks(baselineId, slot, request);
        assert MadeFrom(outside, slot.c, request, TrialStep(outside, baselineId, s, slot).1.value);
      }
    }
  }

  lemma {:induction false} RunSlotsRecord(
      outside: Outside, baselineId: string, s: State, done: seq<Slot>, slots: seq<Slot>, obs: seq<Observation>)
    requires forall slot | slot in slots :: slot.index in {1, 2, 3}
    requires AllRecorded(outside, baselineId, done, obs)
    ensures var r := RunSlots(StepOf(outside, baselineId), s, slots, obs).1;
      r.Ok? ==> AllRecorded(outside, baselineId, done + slots, r.value)
    decreases |slots|
  {
    hide TrialStep, Recorded;
    if slots == [] {
      assert done + slots == done;
    } else {
      var step := StepOf(outside, baselineId);
      RunSlotsUnfold(step, s, slots, 0, obs);
      assert slots[0..] == slots;
      StepRecords(outside, baselineId, s, slots[0]);
      var (s', r) := step(s, slots[0]);
      if r.Ok? {
        assert (done + [slots[0]]) + slots[1..] == done + slots;
        RunSlotsRecord(outside, baselineId, s', done + [slots[0]], slots[1..], obs + [r.value]);
      }
    }
  }

  /** In a run that returns, each observation is what the executor makes of the port's reply to one
      request, which holds the owner's request and the shown fixture of its case and nothing else of it. */
  lemma {:induction false} ReturnedRunIsRecorded(outside: Outside, baselineId: string, cases: seq<Case>)
    requires RunLive(outside, baselineId, FRESH, cases).1.Ok?
    ensures var obs := RunLive(outside, baselineId, FRESH, cases).1.value;
      && OfficialCases(cases).Ok? && |obs| == 3 * |OfficialCases(cases).value|
      && forall i | 0 <= i < |obs| ::
           Recorded(outside, baselineId, Slot(OfficialCases(cases).value[i / 3], i % 3 + 1), obs[i])
  {
    hide RunSlots, Recorded, TrialStep;
    var slots := Slots(OfficialCases(cases).value);
    RunSlotsRecord(outside, baselineId, FRESH, [], slots, []);
    assert [] + slots == slots;
  }
}
