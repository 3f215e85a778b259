/** The one-shot live executor: an object that sends each trial to the turn port at most once.
    `CallStep` and its companions say what one call does; the class updates the fields the
    source updates and is proved against them. */
module LiveExecutor {
  import opened BenchmarkContracts
  import opened CanonicalJson
  import opened Results
  import opened Sequences
  import opened TurnEvidence

  // ---------------------------------------------------------------- projections of a case

  const MODEL_FACING_KEYS: set<string> := {
    "authority_note", "conflicting_status", "current_scope_value", "current_value",
    "draft_objective", "evidence_a", "evidence_b", "execution_authorized", "format", "goal",
    "known_fact", "marker", "missing_fact", "observed_fact", "option_a", "option_b", "request",
    "request_kind", "route_authority", "superseded_value", "unknown", "verified_objective",
    "verified_status"}

  const NEVER_MODEL_FACING_KEYS: set<string> := {"case_marker", "workspace", "other_scope_marker"}

  function Projected(fixture: seq<(string, string)>): seq<Field> {
    Collect((p: (string, string)) => if p.0 in MODEL_FACING_KEYS then [Field(p.0, JStr(p.1))] else [], fixture)
  }

  /** `model_facing_fixture_json` */
  function FixtureJson(c: Case): Result<string> {
    if exists p | p in c.fixture :: p.0 !in MODEL_FACING_KEYS + NEVER_MODEL_FACING_KEYS
    then Raise("d138_fixture_projection_key_invalid")
    else if Projected(c.fixture) == [] then Raise("d138_fixture_projection_empty")
    else Ok(CanonicalText(JObj(Projected(c.fixture))))
  }

  /** `f"{case.case_id}:T{trial_index}"` */
  function TrialId(caseId: string, index: nat): string { caseId + ":T" + Digits(index) }

  lemma {:induction false} TrialIdInjective(a: string, i: nat, b: string, j: nat)
    requires i < 10 && j < 10 && TrialId(a, i) == TrialId(b, j)
    ensures a == b && i == j
  {
    var x := TrialId(a, i);
    assert |Digits(i)| == 1 && |Digits(j)| == 1;
    assert |a| == |x| - 3 == |b|;
    assert x[..|x| - 3] == a && x[..|x| - 3] == b;
    assert x[|x| - 1] == Digit(i) && x[|x| - 1] == Digit(j);
    HexOfDigit(i);
    HexOfDigit(j);
  }

  // ---------------------------------------------------------------- one call

  /** The fields of the executor, and the trial ids it sent to the port, oldest first. */
  datatype State = State(seen: set<string>, aborted: bool, complete: bool, sent: seq<string>)

  const FRESH := State({}, false, false, [])

  /** The checks made before the trial is registered; they change nothing. */
  function Precheck(s: State, c: Case, index: int, ownerRequest: string, contextJson: string): string {
    if s.aborted || s.complete then "d138_run_not_active"
    else if index != 1 && index != 2 && index != 3 then "d138_trial_index_invalid"
    else if ownerRequest != c.ownerRequest then "d138_owner_request_projection_mismatch"
    else
      match FixtureJson(c)
      case Raise(code) => code
      case Ok(json) => if contextJson != json then "d138_fixture_projection_mismatch" else ""
  }

  /** One call, given what the port would reply and the time it would take. */
  function CallStep(
    judge: Judge, s: State, c: Case, index: int, ownerRequest: string, contextJson: string,
    reply: PortReply, elapsed: nat): (State, Result<Observation>)
  {
    var error := Precheck(s, c, index, ownerRequest, contextJson);
    if error != "" then (s, Raise(error)) else SendTrial(judge, s, c, TrialId(c.caseId, index), reply, elapsed)
  }

  /** The call once its arguments have passed. */
  function SendTrial(
    judge: Judge, s: State, c: Case, trialId: string, reply: PortReply, elapsed: nat): (State, Result<Observation>)
  {
    if trialId in s.seen then (s.(aborted := true), Raise("d138_trial_replay_forbidden"))
    else
      var sent := s.(seen := s.seen + {trialId}, sent := s.sent + [trialId]);
      match reply
      case Raised(code) => (sent.(aborted := true), Raise(code))
      case NotEvidence => (sent.(aborted := true), Raise("d138_transient_evidence_invalid"))
      case Returned(t) =>
        match MakeObservation(judge, c, trialId, t, elapsed)
        case Refused(code, aborts) => (if aborts then sent.(aborted := true) else sent, Raise(code))
        case Made(o) => (sent, Ok(o))
  }

  function AbortStep(s: State): State { if s.complete then s else s.(aborted := true) }

  function CompleteStep(s: State): (State, string) {
    if s.aborted then (s, "d138_run_aborted")
    else if |s.seen| != OFFICIAL_TRIALS then (s, "d138_run_incomplete")
    else (s.(complete := true), "")
  }

  // ---------------------------------------------------------------- every run

  datatype Operation =
    | Call(c: Case, index: int, ownerRequest: string, contextJson: string, reply: PortReply, elapsed: nat)
    | Abort
    | Complete

  function Step(judge: Judge, s: State, op: Operation): State {
    match op
    case Call(c, index, ownerRequest, contextJson, reply, elapsed) =>
      CallStep(judge, s, c, index, ownerRequest, contextJson, reply, elapsed).0
    case Abort => AbortStep(s)
    case Complete => CompleteStep(s).0
  }

  function Run(judge: Judge, s: State, ops: seq<Operation>): State
    decreases |ops|
  {
    if ops == [] then s else Run(judge, Step(judge, s, ops[0]), ops[1..])
  }

  /** What every reachable state satisfies. */
  ghost predicate Safe(s: State) {
    && Distinct(s.sent)
    && s.seen == Elements(s.sent)
    && !(s.aborted && s.complete)
    && (s.complete ==> |s.seen| == OFFICIAL_TRIALS)
  }

  function Elements(xs: seq<string>): set<string> { set x | x in xs }

  /** What later states owe to earlier ones: the log only grows, and a run that was aborted or
      completed stays so and sends nothing more. */
  ghost predicate Follows(s: State, s': State) {
    && s.sent <= s'.sent
    && (s.aborted ==> s'.aborted) && (s.complete ==> s'.complete)
    && (s.aborted || s.complete ==> s'.sent == s.sent && s'.seen == s.seen)
  }

  lemma {:induction false} SendSafe(judge: Judge, s: State, c: Case, trialId: string, reply: PortReply, elapsed: nat)
    requires Safe(s) && !s.aborted && !s.complete
    ensures var s' := SendTrial(judge, s, c, trialId, reply, elapsed).0; Safe(s') && Follows(s, s')
  {
    hide MakeObservation;
    assert Elements(s.sent + [trialId]) == Elements(s.sent) + {trialId};
  }

  /** A trial that is returned was sent now, is of this case, and leaves the run active. One that
      raises leaves the run active exactly when it was new, the port returned consistent
      evidence, and so evaluation or the observation constructor refused it. */
  lemma {:induction false} SendEffect(judge: Judge, s: State, c: Case, trialId: string, reply: PortReply, elapsed: nat)
    requires Safe(s) && !s.aborted && !s.complete
    ensures var (s', r) := SendTrial(judge, s, c, trialId, reply, elapsed);
      && (r.Ok? ==> ValidObservation(r.value) && ReportsCase(c, trialId, r.value)
                    && !s'.aborted && s'.sent == s.sent + [trialId])
      && (r.Raise? ==> (!s'.aborted <==> trialId !in s.seen && reply.Returned? && Coherent(c, reply.evidence)))
      && s'.sent == (if trialId in s.seen then s.sent else s.sent + [trialId])
  {
    hide MakeObservation, Coherent, ValidObservation, ReportsCase;
    if reply.Returned? {
      CallAborts(judge, c, trialId, reply.evidence, elapsed);
      if MakeObservation(judge, c, trialId, reply.evidence, elapsed).Made? {
        MadeReportsCase(judge, c, trialId, reply.evidence, elapsed);
      }
    }
  }

  /** A refusal the executor does not abort on: consistent evidence for a case with an unknown
      property, or with a context of no tokens. The trial is spent, the run stays active, and
      only sending the trial again aborts it. */
  lemma {:induction false} RefusalLeavesRunActive(
      judge: Judge, s: State, c: Case, trialId: string, t: Evidence, elapsed: nat, again: PortReply, later: nat)
    requires Safe(s) && !s.aborted && !s.complete && trialId !in s.seen
    requires Coherent(c, t)
    requires !KnownProperties(c, PROPERTY_UNIVERSE) || t.verifiedContextTokens == Some(0)
    ensures var (s', r) := SendTrial(judge, s, c, trialId, Returned(t), elapsed);
      && r.Raise? && !s'.aborted && !s'.complete && s'.sent == s.sent + [trialId]
      && SendTrial(judge, s', c, trialId, again, later) == (s'.(aborted := true), Raise("d138_trial_replay_forbidden"))
  {
    hide Coherent, AbortCode, NewObservation, Assemble, KnownProperties, ValidObservation, ReportsCase;
    SendEffect(judge, s, c, trialId, Returned(t), elapsed);
    CoherentExactly(c, t);
    if KnownProperties(c, PROPERTY_UNIVERSE) {
      var properties := EvaluateProperties(judge, c, InputOf(t)).value;
      NoTokensRefused(c, trialId, t, properties, elapsed);
    }
  }

  lemma {:induction false} NoTokensRefused(c: Case, trialId: string, t: Evidence, properties: seq<(string, bool)>,
      elapsed: nat)
    requires t.verifiedContextTokens == Some(0)
    ensures NewObservation(Assemble(c, trialId, t, properties, elapsed)).Raise?
  {
    hide IdentifierError, NamesFormatted, HardGates, FirstBinding, InputOf;
    assert RangeError(Assemble(c, trialId, t, properties, elapsed)) != "";
  }

  /** The context the port may see: every fixture key is known, some may be shown, and the text is
      the canonical one of the pairs whose key may be. */
  ghost predicate ContextShown(c: Case, contextJson: string) {
    && (forall p | p in c.fixture :: p.0 in MODEL_FACING_KEYS || p.0 in NEVER_MODEL_FACING_KEYS)
    && (exists p :: p in c.fixture && p.0 in MODEL_FACING_KEYS)
    && exists shown: seq<(string, string)> ::
         && contextJson == CanonicalText(JObj(Map(ShownField, shown)))
         && Keeps(c.fixture, shown, MODEL_FACING_KEYS)
  }

  function ShownField(p: (string, string)): Field { Field(p.0, JStr(p.1)) }

  /** `kept` holds the pairs of `all` whose key is in `keys`, in their order. */
  ghost predicate Keeps(all: seq<(string, string)>, kept: seq<(string, string)>, keys: set<string>) {
    if all == [] then kept == []
    else if all[0].0 in keys then kept != [] && kept[0] == all[0] && Keeps(all[1..], kept[1..], keys)
    else Keeps(all[1..], kept, keys)
  }

  /** Workspace, case marker and foreign scope are in no context. */
  lemma {:induction false} NeverShown(fixture: seq<(string, string)>, shown: seq<(string, string)>, p: (string, string))
    requires Keeps(fixture, shown, MODEL_FACING_KEYS)
    ensures p in shown <==> p in fixture && p.0 in MODEL_FACING_KEYS
    ensures p in shown ==> p.0 != "workspace" && p.0 != "case_marker" && p.0 != "other_scope_marker"
  {
    if fixture != [] {
      NeverShown(fixture[1..], if fixture[0].0 in MODEL_FACING_KEYS then shown[1..] else shown, p);
      if fixture[0].0 in MODEL_FACING_KEYS { assert shown == [shown[0]] + shown[1..]; }
    }
  }

  lemma {:induction false} ProjectedShown(fixture: seq<(string, string)>) returns (shown: seq<(string, string)>)
    ensures Keeps(fixture, shown, MODEL_FACING_KEYS) && Projected(fixture) == Map(ShownField, shown)
  {
    hide MODEL_FACING_KEYS;
    if fixture == [] {
      shown := [];
    } else {
      var rest := ProjectedShown(fixture[1..]);
      shown := if fixture[0].0 in MODEL_FACING_KEYS then [fixture[0]] + rest else rest;
      assert shown != [] && fixture[0].0 in MODEL_FACING_KEYS ==> shown[1..] == rest;
      assert [] + Projected(fixture[1..]) == Projected(fixture[1..]);
    }
  }

  lemma {:induction false} OneProjection(
      fixture: seq<(string, string)>, a: seq<(string, string)>, b: seq<(string, string)>, keys: set<string>)
    requires Keeps(fixture, a, keys) && Keeps(fixture, b, keys)
    ensures a == b
    ensures a != [] <==> exists p :: p in fixture && p.0 in keys
  {
    if fixture != [] {
      if fixture[0].0 in keys {
        OneProjection(fixture[1..], a[1..], b[1..], keys);
        assert a == [a[0]] + a[1..] && b == [b[0]] + b[1..];
      } else {
        OneProjection(fixture[1..], a, b, keys);
      }
      assert forall p :: p in fixture <==> p == fixture[0] || p in fixture[1..];
    }
  }

  lemma {:induction false} ContextExactly(c: Case, contextJson: string)
    ensures FixtureJson(c) == Ok(contextJson) <==> ContextShown(c, contextJson)
  {
    hide MODEL_FACING_KEYS, NEVER_MODEL_FACING_KEYS, CanonicalText, Projected;
    var kept := ProjectedShown(c.fixture);
    OneProjection(c.fixture, kept, kept, MODEL_FACING_KEYS);
    if ContextShown(c, contextJson) {
      var shown: seq<(string, string)> :|
        contextJson == CanonicalText(JObj(Map(ShownField, shown))) && Keeps(c.fixture, shown, MODEL_FACING_KEYS);
      OneProjection(c.fixture, kept, shown, MODEL_FACING_KEYS);
    }
  }

  lemma {:induction false} TrialIdForm(caseId: string, index: nat)
    requires index in {1, 2, 3}
    ensures TrialId(caseId, index) == caseId + (if index == 1 then ":T1" else if index == 2 then ":T2" else ":T3")
  {
    assert ":T1" == ":T" + "1" && ":T2" == ":T" + "2" && ":T3" == ":T" + "3";
    assert Digits(index) == (if index == 1 then "1" else if index == 2 then "2" else "3");
    assert caseId + ":T" + Digits(index) == caseId + (":T" + Digits(index));
  }

  lemma {:induction false} PrecheckExactly(
      s: State, c: Case, index: int, ownerRequest: string, contextJson: string)
    ensures Precheck(s, c, index, ownerRequest, contextJson) == "" <==>
      !s.aborted && !s.complete && index in {1, 2, 3} && ownerRequest == c.ownerRequest && ContextShown(c, contextJson)
  {
    hide Projected, CanonicalText, ContextShown, MODEL_FACING_KEYS, NEVER_MODEL_FACING_KEYS;
    ContextExactly(c, contextJson);
  }

  /** What one call does, by its arguments: a call out of order changes nothing; otherwise a trial
      sent before aborts the run, and a new one is registered and leaves the run active exactly
      when the port returns evidence of one piece. */
  lemma {:induction false} CallEffect(
      judge: Judge, s: State, c: Case, index: int, ownerRequest: string, contextJson: string,
      reply: PortReply, elapsed: nat)
    ensures var (s', r) := CallStep(judge, s, c, index, ownerRequest, contextJson, reply, elapsed);
      var ready := !s.aborted && !s.complete && index in {1, 2, 3} && ownerRequest == c.ownerRequest &&
          ContextShown(c, contextJson);
      var trialId := c.caseId + (if index == 1 then ":T1" else if index == 2 then ":T2" else ":T3");
      && (!ready ==> s' == s && r.Raise?)
      && (ready && trialId in s.seen ==> s' == s.(aborted := true) && r == Raise("d138_trial_replay_forbidden"))
      && (ready && trialId !in s.seen ==>
            && s'.seen == s.seen + {trialId} && s'.sent == s.sent + [trialId] && !s'.complete
            && (s'.aborted <==> !(reply.Returned? && Coherent(c, reply.evidence)))
            && (r.Ok? ==>
                  reply.Returned? && MakeObservation(judge, c, trialId, reply.evidence, elapsed) == Made(r.value))
            && (reply.Raised? ==> r == Raise(reply.code)))
  {
    hide MakeObservation, Coherent, ContextShown, Precheck, TrialId;
    PrecheckExactly(s, c, index, ownerRequest, contextJson);
    if index in {1, 2, 3} {
      TrialIdForm(c.caseId, index);
      if reply.Returned? { CallAborts(judge, c, TrialId(c.caseId, index), reply.evidence, elapsed); }
    }
  }

  /** What one operation of a run does to the executor, by its arguments. */
  lemma {:induction false} OperationEffect(judge: Judge, s: State, op: Operation)
    ensures Step(judge, s, op) ==
      match op
      case Call(c, index, ownerRequest, contextJson, reply, _) =>
        var ready := !s.aborted && !s.complete && index in {1, 2, 3} && ownerRequest == c.ownerRequest &&
            ContextShown(c, contextJson);
        var trialId := c.caseId + (if index == 1 then ":T1" else if index == 2 then ":T2" else ":T3");
        if !ready then s
        else if trialId in s.seen then s.(aborted := true)
        else State(s.seen + {trialId}, !(reply.Returned? && Coherent(c, reply.evidence)), false, s.sent + [trialId])
      case Abort => if s.complete then s else s.(aborted := true)
      case Complete => if s.aborted || |s.seen| != 144 then s else s.(complete := true)
  {
    hide CallStep, Coherent, ContextShown;
    if op.Call? {
      CallEffect(judge, s, op.c, op.index, op.ownerRequest, op.contextJson, op.reply, op.elapsed);
    }
  }

  lemma {:induction false} ActiveAfterPrecheck(s: State, c: Case, index: int, ownerRequest: string, contextJson: string)
    ensures Precheck(s, c, index, ownerRequest, contextJson) == "" ==>
              !s.aborted && !s.complete && 1 <= index <= 3 && FixtureJson(c) == Ok(contextJson)
  {}

  lemma {:induction false} StepSafe(judge: Judge, s: State, op: Operation)
    requires Safe(s)
    ensures Safe(Step(judge, s, op)) && Follows(s, Step(judge, s, op))
  {
    match op
    case Call(c, index, ownerRequest, contextJson, reply, elapsed) =>
      ActiveAfterPrecheck(s, c, index, ownerRequest, contextJson);
      if Precheck(s, c, index, ownerRequest, contextJson) == "" {
        SendSafe(judge, s, c, TrialId(c.caseId, index), reply, elapsed);
      }
    case Abort =>
    case Complete =>
  }

  lemma {:induction false} RunSafe(judge: Judge, s: State, ops: seq<Operation>)
    requires Safe(s)
    ensures Safe(Run(judge, s, ops)) && Follows(s, Run(judge, s, ops))
    decreases |ops|
  {
    if ops != [] {
      StepSafe(judge, s, ops[0]);
      RunSafe(judge, Step(judge, s, ops[0]), ops[1..]);
    }
  }

  lemma {:induction false} RunAppend(judge: Judge, s: State, a: seq<Operation>, b: seq<Operation>)
    ensures Run(judge, s, a + b) == Run(judge, Run(judge, s, a), b)
    decreases |a|
  {
    if a == [] {
      assert a + b == b;
    } else {
      assert (a + b)[1..] == a[1..] + b;
      RunAppend(judge, Step(judge, s, a[0]), a[1..], b);
    }
  }

  /** Over every sequence of calls, aborts and completions, with any port behaviour: no trial
      reaches the port twice, aborted and complete exclude each other and both are final, a
      completed run saw exactly 144 trials, and a run that ended sends nothing more. */
  lemma {:induction false} ExecutorRuns(judge: Judge, before: seq<Operation>, after: seq<Operation>)
    ensures var s := Run(judge, FRESH, before);
      var s' := Run(judge, FRESH, before + after);
      && Safe(s) && Safe(s') && Follows(s, s')
      && (s'.complete ==> |s'.sent| == OFFICIAL_TRIALS)
  {
    RunSafe(judge, FRESH, before);
    RunAppend(judge, FRESH, before, after);
    RunSafe(judge, Run(judge, FRESH, before), after);
    DistinctCardinality(Run(judge, FRESH, before + after).sent);
  }

  // ---------------------------------------------------------------- the object

  /** What the executor sends to the port. */
  datatype TurnRequest = TurnRequest(
    baselineId: string, caseId: string, trialId: string, taskKind: TaskKind, ownerRequest: string, contextJson: string)

  /** The world outside: the port's reply to a request, the milliseconds the clock measures
      around it, and the judge of observable properties. A trial reaches the port at most once,
      so a function of the request covers every port, also one that keeps state. */
  datatype Outside = Outside(port: TurnRequest -> PortReply, elapsed: TurnRequest -> nat, judge: Judge)

  function RequestOf(baselineId: string, c: Case, index: nat, ownerRequest: string, contextJson: string): TurnRequest {
    TurnRequest(baselineId, c.caseId, TrialId(c.caseId, index), c.taskKind, ownerRequest, contextJson)
  }

  class D138LiveExecutor {
    const baselineId: string
    const outside: Outside
    var seenTrialIds: set<string>
    var aborted: bool
    var complete: bool
    ghost var sent: seq<string>

    constructor (baselineId: string, outside: Outside)
      ensures this.baselineId == baselineId && this.outside == outside && Current() == FRESH
    {
      this.baselineId, this.outside := baselineId, outside;
      seenTrialIds, aborted, complete, sent := {}, false, false, [];
    }

    ghost function Current(): State
      reads this
    {
      State(seenTrialIds, aborted, complete, sent)
    }

    method AbortRun()
      modifies this
      ensures Current() == AbortStep(old(Current()))
    {
      if !complete {
        aborted := true;
      }
    }

    method CompleteRun() returns (error: string)
      modifies this
      ensures (Current(), error) == CompleteStep(old(Current()))
    {
      if aborted { return "d138_run_aborted"; }
      if |seenTrialIds| != OFFICIAL_TRIALS { return "d138_run_incomplete"; }
      complete := true;
      error := "";
    }

    method CallTrial(c: Case, index: int, ownerRequest: string, contextJson: string)
      returns (r: Result<Observation>)
      modifies this
      ensures var request := RequestOf(baselineId, c, if index < 0 then 0 else index, ownerRequest, contextJson);
        (Current(), r) == CallStep(outside.judge, old(Current()), c, index, ownerRequest, contextJson,
                                   outside.port(request), outside.elapsed(request))
    {
      if aborted || complete { return Raise("d138_run_not_active"); }
      if index != 1 && index != 2 && index != 3 { return Raise("d138_trial_index_invalid"); }
      if ownerRequest != c.ownerRequest { return Raise("d138_owner_request_projection_mismatch"); }
      var json := FixtureJson(c);
      if json.Raise? { return Raise(json.code); }
      if contextJson != json.value { return Raise("d138_fixture_projection_mismatch"); }

      var trialId := TrialId(c.caseId, index);
      if trialId in seenTrialIds {
        aborted := true;
        return Raise("d138_trial_replay_forbidden");
      }
      seenTrialIds := seenTrialIds + {trialId};

      var request := TurnRequest(baselineId, c.caseId, trialId, c.taskKind, ownerRequest, contextJson);
      sent := sent + [trialId];
      var reply := outside.port(request);
      if reply.Raised? {
        aborted := true;
        return Raise(reply.code);
      }
      if reply.NotEvidence? {
        aborted := true;
        return Raise("d138_transient_evidence_invalid");
      }
      var made := MakeObservation(outside.judge, c, trialId, reply.evidence, outside.elapsed(request));
      if made.Refused? {
        if made.aborts { aborted := true; }
        return Raise(made.code);
      }
      r := Ok(made.observation);
    }
  }
}
