/** What a published write has passed: each check of the protocol, at some step of its run, in terms
    of the directory and the bytes of that moment. */
module WriteChecks {
  import opened WriteProtocol
  import opened WriteSafety

  datatype Check =
    | PathAllowed | TargetFound | FirstDigest | FirstIdentity | TargetThere
    | AllWritten | PathStillAllowed | SecondIdentity | SecondDigest | ThirdIdentity | TemporaryThere | TargetFree

  predicate OfReplace(check: Check) {
    check.TargetFound? || check.FirstDigest? || check.FirstIdentity? || check.TargetThere? || check.SecondIdentity? ||
        check.SecondDigest? || check.ThirdIdentity?
  }

  /** The checks a write of this kind makes. */
  predicate Applies(cfg: Config, check: Check) {
    if cfg.kind.Replace? then !check.TargetFree? else !OfReplace(check)
  }

  /** A step in state `s` that goes on after this check. */
  ghost predicate Passes(cfg: Config, s: State, choice: Choice, check: Check) {
    match check
    case PathAllowed => s.phase.Resolve? && choice.boundary.None?
    case TargetFound => s.phase.IdentifyBefore? && !choice.fails && cfg.target in s.fs.names
    case FirstDigest =>
      && s.phase.ReadFirst? && !choice.fails && cfg.kind.Replace?
      && |s.phase.firstPart| >= |Content(s.fs, s.phase.first)| && cfg.sha256(s.phase.firstPart) == cfg.kind.expected
    case FirstIdentity =>
      s.phase.RecheckFirst? && !choice.fails && s.before.Some? && Lookup(s.fs, cfg.target) == s.before
    case TargetThere => s.phase.ReadMode? && !choice.fails && cfg.target in s.fs.names
    case AllWritten => s.phase.WriteTemporary? && !choice.fails && s.phase.written >= |cfg.raw|
    case PathStillAllowed => s.phase.Revalidate? && choice.boundary.None? && choice.sameTarget
    case SecondIdentity =>
      s.phase.IdentifyCurrent? && !choice.fails && s.before.Some? && Lookup(s.fs, cfg.target) == s.before
    case SecondDigest =>
      && s.phase.ReadSecond? && !choice.fails && cfg.kind.Replace?
      && |s.phase.secondPart| >= |Content(s.fs, s.phase.second)| && cfg.sha256(s.phase.secondPart) == cfg.kind.expected
    case ThirdIdentity =>
      s.phase.RecheckSecond? && !choice.fails && s.before.Some? && Lookup(s.fs, cfg.target) == s.before
    case TemporaryThere =>
      s.phase.CheckTemporary? && !choice.fails && Lookup(s.fs, TempIs(s).name) == TempIs(s).identity
    case TargetFree => s.phase.Publish? && !choice.fails && cfg.target !in s.fs.names && TempIs(s).name in s.fs.names
  }

  /** Some step of the run went on after this check. */
  ghost predicate Passed(cfg: Config, fs: FS, events: seq<Event>, check: Check) {
    exists k | 0 <= k < |events| :: PassedAt(cfg, fs, events, k, check)
  }

  ghost predicate PassedAt(cfg: Config, fs: FS, events: seq<Event>, k: nat, check: Check)
    requires k < |events|
  {
    events[k].Adapter? && Passes(cfg, Run(cfg, Start(fs), events[..k]), events[k].choice, check)
  }

  /** How far the code has come. */
  function Place(p: Phase): nat {
    match p
    case Resolve => 0
    case IdentifyBefore => 1
    case OpenFirst => 2
    case ReadFirst(_, _) => 2
    case RecheckFirst => 3
    case ReadMode => 4
    case MakeTemporary => 5
    case IdentifyTemporary => 5
    case WriteTemporary(_) => 5
    case ChangeMode => 6
    case Revalidate => 6
    case IdentifyCurrent => 7
    case OpenSecond => 8
    case ReadSecond(_, _) => 8
    case RecheckSecond => 9
    case CheckTemporary => 10
    case Publish => 11
    case _ => 0
  }

  function PlaceOf(check: Check): nat {
    match check
    case PathAllowed => 0
    case TargetFound => 1
    case FirstDigest => 2
    case FirstIdentity => 3
    case TargetThere => 4
    case AllWritten => 5
    case PathStillAllowed => 6
    case SecondIdentity => 7
    case SecondDigest => 8
    case ThirdIdentity => 9
    case TemporaryThere => 10
    case TargetFree => 11
  }

  /** The checks behind a state. */
  predicate Behind(cfg: Config, s: State, check: Check) {
    Applies(cfg, check) && (s.published || PlaceOf(check) < Place(s.phase))
  }

  lemma {:induction false} StepPasses(cfg: Config, s: State, choice: Choice, check: Check)
    requires Inv(cfg, s) && Behind(cfg, Step(cfg, s, choice), check)
    ensures Behind(cfg, s, check) || Passes(cfg, s, choice, check)
  {
    hide Inv, Step, ChecksPassed, OutcomeHonest, TemporaryNamed;
    if Checking(s.phase) { LateStepPasses(cfg, s, choice, check); } else { EarlyStepPasses(cfg, s, choice, check); }
  }

  lemma {:induction false} LateStepPasses(cfg: Config, s: State, choice: Choice, check: Check)
    requires Inv(cfg, s) && Behind(cfg, Step(cfg, s, choice), check) && Checking(s.phase)
    ensures Behind(cfg, s, check) || Passes(cfg, s, choice, check)
  {
    hide ReadOn, WriteAt, TempName, Renamed, Unlinked, TemporaryNamed;
  }

  lemma {:induction false} EarlyStepPasses(cfg: Config, s: State, choice: Choice, check: Check)
    requires Inv(cfg, s) && Behind(cfg, Step(cfg, s, choice), check) && !Checking(s.phase)
    ensures Behind(cfg, s, check) || Passes(cfg, s, choice, check)
  {
    hide ReadOn, WriteAt, TempName, Renamed, Unlinked, TemporaryNamed;
  }

  lemma {:induction false} RunSnoc(cfg: Config, s: State, events: seq<Event>, e: Event)
    ensures Run(cfg, s, events + [e]) == Next(cfg, Run(cfg, s, events), e)
    decreases |events|
  {
    hide Step;
    if events == [] {
      assert [] + [e] == [e] && [e][1..] == [];
    } else {
      assert (events + [e])[1..] == events[1..] + [e];
      RunSnoc(cfg, Next(cfg, s, events[0]), events[1..], e);
    }
  }

  lemma {:induction false} BehindIsPassed(cfg: Config, fs: FS, events: seq<Event>, check: Check)
    requires Behind(cfg, Run(cfg, Start(fs), events), check)
    ensures Passed(cfg, fs, events, check)
    decreases |events|
  {
    hide Step, Passes, Behind, Inv;
    if events == [] {
      assert Run(cfg, Start(fs), []) == Start(fs);
      NothingBehind(cfg, fs, check);
    } else {
      hide Run;
      var n := |events| - 1;
      var front := events[..n];
      var s := Run(cfg, Start(fs), front);
      assert events == front + [events[n]];
      RunSnoc(cfg, Start(fs), front, events[n]);
      PublishesAtMostOnce(cfg, fs, front);
      assert Behind(cfg, s, check) || PassedAt(cfg, fs, events, n, check) by {
        if events[n].Adapter? {
          StepPasses(cfg, s, events[n].choice, check);
        } else {
          SameBehind(cfg, s, events[n].fs, check);
        }
      }
      if Behind(cfg, s, check) {
        BehindIsPassed(cfg, fs, front, check);
        var k :| 0 <= k < |front| && PassedAt(cfg, fs, front, k, check);
        assert front[..k] == events[..k] && front[k] == events[k];
        assert PassedAt(cfg, fs, events, k, check);
      }
    }
  }

  lemma {:induction false} NothingBehind(cfg: Config, fs: FS, check: Check)
    ensures !Behind(cfg, Start(fs), check)
  {}

  lemma {:induction false} SameBehind(cfg: Config, s: State, fs: FS, check: Check)
    ensures Behind(cfg, s.(fs := fs), check) <==> Behind(cfg, s, check)
  {}

  /** A published write passed every check of its kind: the path was allowed at the start and, with
      the same target, again before publishing; a replace found the target, read the expected digest
      twice and three times found the target bound to the file it had found; all bytes were written
      and the temporary name still led to the file it was made for; a create found the target free. */
  lemma {:induction false} PublishedPassedAll(cfg: Config, fs: FS, events: seq<Event>, check: Check)
    requires Run(cfg, Start(fs), events).published && Applies(cfg, check)
    ensures Passed(cfg, fs, events, check)
  {
    BehindIsPassed(cfg, fs, events, check);
  }

  /** A write that the path boundary refuses on revalidation, or whose target has moved by then, is
      not published, and changes nothing at the target, whatever happens afterwards. */
  lemma {:induction false} RefusedIsNotPublished(
      cfg: Config, fs: FS, before: seq<Event>, choice: Choice, after: seq<Event>)
    requires Run(cfg, Start(fs), before).phase.Revalidate? && (choice.boundary.Some? || !choice.sameTarget)
    ensures var s := Step(cfg, Run(cfg, Start(fs), before), choice);
      && s.phase == CleanupCheck(
           if choice.boundary.Some? then Failed(choice.boundary.value)
           else if cfg.kind.Create? then Failed("filesystem_access_failed") else Failed("content_precondition_failed"))
      && !Run(cfg, s, after).published && TargetContents(cfg, s, after) == []
  {
    hide Run, Inv, TargetContents;
    var s := Run(cfg, Start(fs), before);
    PublishesAtMostOnce(cfg, fs, before);
    NotPublishedYet(cfg, s);
    StepKeeps(cfg, s, choice);
    FinishedShowsNothing(cfg, Step(cfg, s, choice), after);
    StaysUnpublished(cfg, Step(cfg, s, choice), after);
  }

  lemma {:induction false} NotPublishedYet(cfg: Config, s: State)
    requires Inv(cfg, s) && !Finishing(s.phase)
    ensures !s.published
  {}

  lemma {:induction false} StepKeeps(cfg: Config, s: State, choice: Choice)
    requires Inv(cfg, s)
    ensures Inv(cfg, Step(cfg, s, choice))
  {
    hide Step, Inv;
    NextKeeps(cfg, s, Adapter(choice));
  }

  lemma {:induction false} StaysUnpublished(cfg: Config, s: State, events: seq<Event>)
    requires Finishing(s.phase) && !s.published
    ensures !Run(cfg, s, events).published
    decreases |events|
  {
    hide Step;
    if events != [] {
      if events[0].Adapter? { FinishingStep(cfg, s, events[0].choice); }
      StaysUnpublished(cfg, Next(cfg, s, events[0]), events[1..]);
    }
  }

  lemma {:induction false} FinishingStep(cfg: Config, s: State, choice: Choice)
    requires Finishing(s.phase)
    ensures Finishing(Step(cfg, s, choice).phase) && Step(cfg, s, choice).published == s.published
  {
    hide ReadOn, WriteAt, TempName, Renamed;
  }

  // ---------------------------------------------------------------- bytes

  /** A write replaces the bytes at its offset; a gap before it reads as zeros and nothing else changes. */
  lemma {:induction false} WriteAtByByte(content: Bytes, at: nat, bytes: Bytes)
    ensures var r, end := WriteAt(content, at, bytes), at + |bytes|;
      && |r| == (if |content| >= end then |content| else end)
      && forall i | 0 <= i < |r| ::
           r[i] == if at <= i < end then bytes[i - at] else if i < |content| then content[i] else 0
  {}

  /** A read goes on by at most 65536 bytes, and stops only at the end of the file. */
  lemma {:induction false} ReadOnByChunk(content: Bytes, part: Bytes)
    requires part <= content
    ensures var r := ReadOn(content, part);
      && part <= r <= content
      && |r| == (if |content| - |part| <= 65536 then |content| else |part| + 65536)
  {}
}
