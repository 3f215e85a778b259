/** A replace under interference: which reads it can rely on while files are written in place,
    exactly when it can overwrite unexpected bytes while they are not, and runs in which it does. */
module ReplaceInterference {
  import opened Results
  import opened WriteProtocol
  import opened WriteSafety

  // ---------------------------------------------------------------- what the environment spares

  predicate WellFormed(fs: FS) { forall name | name in fs.names :: fs.names[name] in fs.data }

  /** The opened file is not written in place. */
  predicate Spared(file: Option<Ino>, before: FS, after: FS) {
    file.Some? ==> file.value in after.data && Content(after, file.value) == Content(before, file.value)
  }

  /** From its open on, the file of the first read is not written in place; anything else may
      change in any way, as long as every name is bound to a file. */
  ghost predicate SparesFirst(cfg: Config, s: State, events: seq<Event>)
    decreases |events|
  {
    events == [] ||
    (&& (events[0].Environment? ==> WellFormed(events[0].fs) && Spared(s.firstOpened, s.fs, events[0].fs))
     && SparesFirst(cfg, Next(cfg, s, events[0]), events[1..]))
  }

  /** From its open on, the file of the second read is not written in place; anything else may
      change in any way. */
  ghost predicate SparesSecond(cfg: Config, s: State, events: seq<Event>)
    decreases |events|
  {
    events == [] ||
    (&& (events[0].Environment? ==> Spared(s.secondOpened, s.fs, events[0].fs))
     && SparesSecond(cfg, Next(cfg, s, events[0]), events[1..]))
  }

  /** Files are never written in place and their numbers never reused; names may change freely. */
  predicate KeepsBytes(before: FS, after: FS) {
    && (forall ino | ino in before.data :: ino in after.data && after.data[ino] == before.data[ino])
    && WellFormed(after)
  }

  ghost predicate Immutable(cfg: Config, s: State, events: seq<Event>)
    decreases |events|
  {
    events == [] ||
    ((events[0].Environment? ==> KeepsBytes(s.fs, events[0].fs)) &&
        Immutable(cfg, Next(cfg, s, events[0]), events[1..]))
  }

  // ---------------------------------------------------------------- what the reads hold

  /** The first read holds the bytes of the file it opened, which is not the temporary file. */
  ghost predicate FirstFaithful(s: State) {
    && (if BeforeTemporary(s.phase) then s.temporary.None? else s.temporary.Some? || s.phase.Done?)
    && (s.phase.Resolve? || s.phase.IdentifyBefore? || s.phase.OpenFirst? || s.phase.ReadFirst? ==> s.firstRead.None?)
    && (s.firstOpened.Some? ==> s.firstOpened.value in s.fs.data)
    && (s.phase.ReadFirst? ==>
          && s.firstOpened == Some(s.phase.first)
          && s.phase.firstPart <= Content(s.fs, s.phase.first))
    && (s.firstRead.Some? ==>
          s.firstOpened.Some? && s.firstRead == Some(Content(s.fs, s.firstOpened.value)))
    && (s.temporary.Some? ==> s.firstOpened != Some(s.temporary.value.descriptor))
  }

  /** The second read holds the bytes of the file it opened. */
  ghost predicate SecondFaithful(s: State) {
    && (s.phase.ReadSecond? ==>
          s.secondOpened == Some(s.phase.second) && s.phase.secondPart <= Content(s.fs, s.phase.second))
    && (s.phase.RecheckSecond? || s.phase.CheckTemporary? || s.phase.Publish? ==>
          s.secondOpened.Some? && s.secondRead == Some(Content(s.fs, s.secondOpened.value)))
  }

  /** The file found first holds the bytes it was found with, and is not the temporary file. */
  ghost predicate FoundFaithful(s: State) {
    && (if BeforeTemporary(s.phase) then s.temporary.None? else s.temporary.Some? || s.phase.Done?)
    && (s.before.Some? ==> s.before.value in s.fs.data && s.foundBytes == Some(Content(s.fs, s.before.value)))
    && (s.temporary.Some? ==> s.before != Some(s.temporary.value.descriptor))
  }

  /** What no step changes: files stay, and only the temporary file's bytes move. */
  lemma {:induction false} FilesStay(cfg: Config, s: State, choice: Choice)
    ensures forall ino | ino in s.fs.data :: ino in Step(cfg, s, choice).fs.data
    ensures Checking(s.phase) ==> Step(cfg, s, choice).fs.data == s.fs.data
  {
    hide TempName, WriteAt, ReadOn, Lookup;
  }

  lemma {:induction false} StepWellFormed(cfg: Config, s: State, choice: Choice)
    requires WellFormed(s.fs) && TemporaryNamed(cfg, s)
    ensures WellFormed(Step(cfg, s, choice).fs)
  {
    hide Step;
    FilesStay(cfg, s, choice);
    NamesStay(cfg, s, choice);
  }

  /** Every name a step leaves behind is bound to a file some name was bound to before, or to the
      new temporary file. */
  lemma {:induction false} NamesStay(cfg: Config, s: State, choice: Choice)
    ensures var s' := Step(cfg, s, choice);
      forall name | name in s'.fs.names ::
        (exists n :: n in s.fs.names && s.fs.names[n] == s'.fs.names[name]) || s'.fs.names[name] in s'.fs.data
  {
    hide TempName, WriteAt, ReadOn, WellFormed;
  }

  lemma {:induction false} FirstStep(cfg: Config, s: State, choice: Choice)
    requires cfg.kind.Replace? && WellFormed(s.fs) && TemporaryNamed(cfg, s) && FirstFaithful(s)
    ensures FirstFaithful(Step(cfg, s, choice))
  {
    hide Step, FirstFaithful;
    if BeforeTemporary(s.phase) { ReadingFirst(cfg, s, choice); } else { AfterFirst(cfg, s, choice); }
  }

  lemma {:induction false} ReadingFirst(cfg: Config, s: State, choice: Choice)
    requires cfg.kind.Replace? && WellFormed(s.fs) && FirstFaithful(s) && BeforeTemporary(s.phase)
    ensures FirstFaithful(Step(cfg, s, choice))
  {
    hide TempName, ReadOn;
    if s.phase.ReadFirst? { ReadOnPrefix(Content(s.fs, s.phase.first), s.phase.firstPart); }
  }

  /** The record of the file found first and of the first read, and the temporary file, are as
      they were. */
  predicate SameRecord(s: State, s': State) {
    && s'.before == s.before && s'.foundBytes == s.foundBytes
    && s'.firstOpened == s.firstOpened && s'.firstRead == s.firstRead
    && s.temporary.Some? && s'.temporary.Some? && s'.temporary.value.descriptor == s.temporary.value.descriptor
  }

  lemma {:induction false} RecordStands(cfg: Config, s: State, choice: Choice)
    requires !BeforeTemporary(s.phase) && s.temporary.Some?
    ensures !BeforeTemporary(Step(cfg, s, choice).phase) && SameRecord(s, Step(cfg, s, choice))
  {
    hide Step, SameRecord;
    if Checking(s.phase) { CheckingStands(cfg, s, choice); } else { OthersStand(cfg, s, choice); }
  }

  lemma {:induction false} CheckingStands(cfg: Config, s: State, choice: Choice)
    requires Checking(s.phase) && s.temporary.Some?
    ensures !BeforeTemporary(Step(cfg, s, choice).phase) && SameRecord(s, Step(cfg, s, choice))
  {
    hide ReadOn, Lookup, Content, TempName, WriteAt, Renamed, Unlinked;
  }

  lemma {:induction false} OthersStand(cfg: Config, s: State, choice: Choice)
    requires !BeforeTemporary(s.phase) && !Checking(s.phase) && s.temporary.Some?
    ensures !BeforeTemporary(Step(cfg, s, choice).phase) && SameRecord(s, Step(cfg, s, choice))
  {
    hide TempName, WriteAt, Lookup, Unlinked;
  }

  lemma {:induction false} AfterFirst(cfg: Config, s: State, choice: Choice)
    requires FirstFaithful(s) && TemporaryNamed(cfg, s) && !BeforeTemporary(s.phase)
    ensures FirstFaithful(Step(cfg, s, choice))
  {
    if s.temporary.Some? {
      hide Step, TemporaryNamed;
      RecordStands(cfg, s, choice);
      FilesStay(cfg, s, choice);
      BytesFrame(cfg, s, choice);
    }
  }

  /** While the file of the first read is spared, the read holds its bytes, in every interleaving. */
  lemma {:induction false} FirstReadFaithful(cfg: Config, s: State, events: seq<Event>)
    requires cfg.kind.Replace? && WellFormed(s.fs) && TemporaryNamed(cfg, s) && FirstFaithful(s)
    requires SparesFirst(cfg, s, events)
    ensures FirstFaithful(Run(cfg, s, events))
    decreases |events|
  {
    hide Step, TemporaryNamed, WellFormed;
    if events != [] {
      if events[0].Adapter? {
        hide FirstFaithful;
        FirstStep(cfg, s, events[0].choice);
        StepWellFormed(cfg, s, events[0].choice);
        StepKeepsTemporary(cfg, s, events[0].choice);
        FirstReadFaithful(cfg, Next(cfg, s, events[0]), events[1..]);
      } else {
        SameNames(cfg, s, events[0].fs);
        FirstReadFaithful(cfg, Next(cfg, s, events[0]), events[1..]);
      }
    }
  }

  lemma {:induction false} SameNames(cfg: Config, s: State, fs: FS)
    requires TemporaryNamed(cfg, s)
    ensures TemporaryNamed(cfg, s.(fs := fs))
  {}

  lemma {:induction false} SecondStep(cfg: Config, s: State, choice: Choice)
    requires cfg.kind.Replace? && SecondFaithful(s)
    ensures SecondFaithful(Step(cfg, s, choice))
  {
    hide Step, SecondFaithful;
    if Checking(s.phase) { ReadingSecond(cfg, s, choice); } else { BeforeSecond(cfg, s, choice); }
  }

  lemma {:induction false} ReadingSecond(cfg: Config, s: State, choice: Choice)
    requires Checking(s.phase) && SecondFaithful(s)
    ensures SecondFaithful(Step(cfg, s, choice))
  {
    hide TempName, ReadOn, WriteAt, Renamed;
    if s.phase.ReadSecond? { ReadOnPrefix(Content(s.fs, s.phase.second), s.phase.secondPart); }
  }

  lemma {:induction false} BeforeSecond(cfg: Config, s: State, choice: Choice)
    requires cfg.kind.Replace? && !Checking(s.phase)
    ensures SecondFaithful(Step(cfg, s, choice))
  {
    hide TempName, ReadOn, WriteAt, Renamed, Unlinked;
  }

  /** While the file of the second read is spared, the read holds its bytes, in every
      interleaving. */
  lemma {:induction false} SecondReadFaithful(cfg: Config, s: State, events: seq<Event>)
    requires cfg.kind.Replace? && SecondFaithful(s) && SparesSecond(cfg, s, events)
    ensures SecondFaithful(Run(cfg, s, events))
    decreases |events|
  {
    hide Step, WellFormed;
    if events != [] {
      if events[0].Adapter? {
        hide SecondFaithful;
        SecondStep(cfg, s, events[0].choice);
        SecondReadFaithful(cfg, Next(cfg, s, events[0]), events[1..]);
      } else {
        SecondReadFaithful(cfg, Next(cfg, s, events[0]), events[1..]);
      }
    }
  }

  // ---------------------------------------------------------------- one read is enough

  /** The two steps from the last identity check to the rename. */
  function LastSteps(cfg: Config, s: State, recheck: Choice, check: Choice): State {
    Step(cfg, Step(cfg, s, recheck), check)
  }

  /** They pass only if the target is bound to the file found first, and change nothing. */
  lemma {:induction false} LastStepsPass(cfg: Config, s: State, recheck: Choice, check: Choice)
    requires cfg.kind.Replace? && Inv(cfg, s) && s.phase.RecheckSecond?
    requires LastSteps(cfg, s, recheck, check).phase.Publish?
    ensures LastSteps(cfg, s, recheck, check) == s.(identityChecks := s.identityChecks + 1, phase := Publish)
    ensures s.before.Some? && Lookup(s.fs, cfg.target) == s.before
    ensures Matched(cfg, s.firstRead) && Matched(cfg, s.secondRead)
  {}

  /** If the second read opened the file found first and no one writes into that file from then on,
      the replace overwrites expected bytes, whatever else is written or renamed at any time
      before the last check. */
  lemma {:induction false} SecondReadSuffices(
      cfg: Config, fs: FS, events: seq<Event>, recheck: Choice, check: Choice)
    requires cfg.kind.Replace? && SparesSecond(cfg, Start(fs), events)
    requires var s := Run(cfg, Start(fs), events); s.phase.RecheckSecond? && s.secondOpened == s.before
    requires LastSteps(cfg, Run(cfg, Start(fs), events), recheck, check).phase.Publish?
    ensures ExpectedAt(cfg, LastSteps(cfg, Run(cfg, Start(fs), events), recheck, check).fs)
  {
    hide Step, Run, SparesSecond, LastSteps, ChecksPassed, OutcomeHonest, TemporaryNamed;
    PublishesAtMostOnce(cfg, fs, events);
    SecondReadFaithful(cfg, Start(fs), events);
    LastStepsPass(cfg, Run(cfg, Start(fs), events), recheck, check);
  }

  /** The same of the first read. */
  lemma {:induction false} FirstReadSuffices(
      cfg: Config, fs: FS, events: seq<Event>, recheck: Choice, check: Choice)
    requires cfg.kind.Replace? && WellFormed(fs) && SparesFirst(cfg, Start(fs), events)
    requires var s := Run(cfg, Start(fs), events); s.phase.RecheckSecond? && s.firstOpened == s.before
    requires LastSteps(cfg, Run(cfg, Start(fs), events), recheck, check).phase.Publish?
    ensures ExpectedAt(cfg, LastSteps(cfg, Run(cfg, Start(fs), events), recheck, check).fs)
  {
    hide Step, Run, SparesFirst, LastSteps, ChecksPassed, OutcomeHonest, TemporaryNamed, WellFormed;
    PublishesAtMostOnce(cfg, fs, events);
    assert TemporaryNamed(cfg, Start(fs)) by { StartNamed(cfg, fs); }
    FirstReadFaithful(cfg, Start(fs), events);
    LastStepsPass(cfg, Run(cfg, Start(fs), events), recheck, check);
  }

  lemma {:induction false} StartNamed(cfg: Config, fs: FS)
    ensures TemporaryNamed(cfg, Start(fs))
  {}

  // ---------------------------------------------------------------- immutable files

  /** The recorded files are there. */
  ghost predicate RecordedFiles(s: State) {
    && WellFormed(s.fs)
    && (s.firstOpened.Some? ==> s.firstOpened.value in s.fs.data)
    && (s.secondOpened.Some? ==> s.secondOpened.value in s.fs.data)
  }

  lemma {:induction false} RecordedStep(cfg: Config, s: State, choice: Choice)
    requires RecordedFiles(s) && TemporaryNamed(cfg, s)
    ensures RecordedFiles(Step(cfg, s, choice))
  {
    hide Step, WellFormed;
    FilesStay(cfg, s, choice);
    StepWellFormed(cfg, s, choice);
    FirstNewlyOpened(cfg, s, choice);
    SecondNewlyOpened(cfg, s, choice);
  }

  lemma {:induction false} FirstNewlyOpened(cfg: Config, s: State, choice: Choice)
    requires WellFormed(s.fs)
    ensures var opened' := Step(cfg, s, choice).firstOpened;
      opened' == s.firstOpened || (opened'.Some? && opened'.value in s.fs.data)
  {
    hide TempName, WriteAt, ReadOn, Content, Renamed, Unlinked;
  }

  lemma {:induction false} SecondNewlyOpened(cfg: Config, s: State, choice: Choice)
    requires WellFormed(s.fs)
    ensures var opened' := Step(cfg, s, choice).secondOpened;
      opened' == s.secondOpened || (opened'.Some? && opened'.value in s.fs.data)
  {
    hide TempName, WriteAt, ReadOn, Content, Renamed, Unlinked;
  }

  /** Immutable files are spared. */
  lemma {:induction false} ImmutableSpares(cfg: Config, s: State, events: seq<Event>)
    requires RecordedFiles(s) && TemporaryNamed(cfg, s) && Immutable(cfg, s, events)
    ensures SparesFirst(cfg, s, events) && SparesSecond(cfg, s, events)
    decreases |events|
  {
    hide Step, TemporaryNamed;
    if events != [] {
      if events[0].Adapter? {
        hide RecordedFiles;
        RecordedStep(cfg, s, events[0].choice);
        StepKeepsTemporary(cfg, s, events[0].choice);
        ImmutableSpares(cfg, Next(cfg, s, events[0]), events[1..]);
      } else {
        SameNames(cfg, s, events[0].fs);
        ImmutableSpares(cfg, Next(cfg, s, events[0]), events[1..]);
      }
    }
  }

  lemma {:induction false} FoundStep(cfg: Config, s: State, choice: Choice)
    requires WellFormed(s.fs) && TemporaryNamed(cfg, s) && FoundFaithful(s)
    ensures FoundFaithful(Step(cfg, s, choice))
  {
    if BeforeTemporary(s.phase) {
      FindingFirst(cfg, s, choice);
    } else if s.temporary.Some? {
      hide Step, TemporaryNamed, WellFormed;
      RecordStands(cfg, s, choice);
      FilesStay(cfg, s, choice);
      BytesFrame(cfg, s, choice);
    }
  }

  lemma {:induction false} FindingFirst(cfg: Config, s: State, choice: Choice)
    requires WellFormed(s.fs) && FoundFaithful(s) && BeforeTemporary(s.phase)
    ensures FoundFaithful(Step(cfg, s, choice))
  {
    hide TempName, ReadOn;
  }

  /** What the first file in the directory holds, it holds all along. */
  ghost predicate KeptFrom(fs: FS, s: State) {
    && (forall ino | ino in fs.data :: ino in s.fs.data && s.fs.data[ino] == fs.data[ino])
    && (s.temporary.Some? ==> s.temporary.value.descriptor !in fs.data)
  }

  lemma {:induction false} KeptStep(cfg: Config, fs: FS, s: State, choice: Choice)
    requires KeptFrom(fs, s) && TemporaryNamed(cfg, s)
    ensures KeptFrom(fs, Step(cfg, s, choice))
  {
    hide Step, TemporaryNamed;
    FilesStay(cfg, s, choice);
    BytesFrame(cfg, s, choice);
    NewTemporary(cfg, s, choice);
    var s' := Step(cfg, s, choice);
    forall ino | ino in fs.data ensures ino in s'.fs.data && s'.fs.data[ino] == fs.data[ino] {
      assert Content(s'.fs, ino) == Content(s.fs, ino);
    }
  }

  lemma {:induction false} NewTemporary(cfg: Config, s: State, choice: Choice)
    requires TemporaryNamed(cfg, s)
    ensures var s' := Step(cfg, s, choice);
      s'.temporary.Some? ==>
        || s'.temporary.value.descriptor !in s.fs.data
        || (s.temporary.Some? && s'.temporary.value.descriptor == s.temporary.value.descriptor)
  {
    hide TempName, WriteAt, ReadOn, Lookup, Content, Renamed, Unlinked;
  }

  lemma {:induction false} ImmutableRun(cfg: Config, fs: FS, s: State, events: seq<Event>)
    requires WellFormed(s.fs) && TemporaryNamed(cfg, s) && FoundFaithful(s) && KeptFrom(fs, s)
    requires Immutable(cfg, s, events)
    ensures FoundFaithful(Run(cfg, s, events)) && KeptFrom(fs, Run(cfg, s, events))
    decreases |events|
  {
    hide Step, TemporaryNamed, WellFormed;
    if events != [] {
      if events[0].Adapter? {
        hide FoundFaithful, KeptFrom;
        FoundStep(cfg, s, events[0].choice);
        KeptStep(cfg, fs, s, events[0].choice);
        StepWellFormed(cfg, s, events[0].choice);
        StepKeepsTemporary(cfg, s, events[0].choice);
        ImmutableRun(cfg, fs, Next(cfg, s, events[0]), events[1..]);
      } else {
        SameNames(cfg, s, events[0].fs);
        ImmutableRun(cfg, fs, Next(cfg, s, events[0]), events[1..]);
      }
    }
  }

  /** With immutable files and no interference after the last identity check, a replace is about to
      overwrite the bytes it found first; if these lack the expected digest, both its reads opened
      another file under the target's name. */
  lemma {:induction false} LastCheckIsExact(cfg: Config, fs: FS, events: seq<Event>, recheck: Choice, check: Choice)
    requires cfg.kind.Replace? && WellFormed(fs) && Immutable(cfg, Start(fs), events)
    requires Run(cfg, Start(fs), events).phase.RecheckSecond?
    requires LastSteps(cfg, Run(cfg, Start(fs), events), recheck, check).phase.Publish?
    ensures var end := LastSteps(cfg, Run(cfg, Start(fs), events), recheck, check);
      && end.before.Some? && end.foundBytes.Some?
      && Lookup(end.fs, cfg.target) == end.before && ContentAt(end.fs, cfg.target) == end.foundBytes
      && (!Matched(cfg, end.foundBytes) ==> end.firstOpened != end.before && end.secondOpened != end.before)
  {
    hide Step, Run, Immutable, LastSteps, Inv, WellFormed, TemporaryNamed, SparesFirst, SparesSecond;
    var s := Run(cfg, Start(fs), events);
    StartNamed(cfg, fs);
    PublishesAtMostOnce(cfg, fs, events);
    ImmutableRun(cfg, fs, Start(fs), events);
    ImmutableSpares(cfg, Start(fs), events);
    LastStepsPass(cfg, s, recheck, check);
    if s.firstOpened == s.before { FirstReadSuffices(cfg, fs, events, recheck, check); }
    if s.secondOpened == s.before { SecondReadSuffices(cfg, fs, events, recheck, check); }
  }

  // ---------------------------------------------------------------- interfered runs

  lemma {:induction false} RunAppend(cfg: Config, s: State, a: seq<Event>, b: seq<Event>)
    ensures Run(cfg, s, a + b) == Run(cfg, Run(cfg, s, a), b)
    ensures Immutable(cfg, s, a) && Immutable(cfg, Run(cfg, s, a), b) ==> Immutable(cfg, s, a + b)
    decreases |a|
  {
    hide Step, KeepsBytes;
    if a == [] {
      assert a + b == b;
    } else {
      assert (a + b)[1..] == a[1..] + b;
      RunAppend(cfg, Next(cfg, s, a[0]), a[1..], b);
    }
  }

  lemma {:induction false} OneEvent(cfg: Config, s: State, e: Event)
    ensures Run(cfg, s, [e]) == Next(cfg, s, e)
    ensures (e.Environment? ==> KeepsBytes(s.fs, e.fs)) ==> Immutable(cfg, s, [e])
  {
    hide Step, KeepsBytes;
    assert [e][1..] == [];
  }

  /** A run is extended by one event. */
  lemma {:induction false} Then(cfg: Config, s: State, events: seq<Event>, e: Event)
    ensures Run(cfg, s, events + [e]) == Next(cfg, Run(cfg, s, events), e)
    ensures Immutable(cfg, s, events) && (e.Environment? ==> KeepsBytes(Run(cfg, s, events).fs, e.fs)) ==>
      Immutable(cfg, s, events + [e])
  {
    hide Step, KeepsBytes, Run, Immutable;
    RunAppend(cfg, s, events, [e]);
    OneEvent(cfg, Run(cfg, s, events), e);
  }

  /** The first read runs through a file with the expected digest. */
  lemma {:induction false} ReadsFirst(cfg: Config, fs: FS, events: seq<Event>,
      choice: Choice) returns (more: seq<Event>)
    requires cfg.kind.Replace? && Calmly(choice)
    requires var s := Run(cfg, Start(fs), events);
      && s.phase.ReadFirst? && s.phase.firstPart <= Content(s.fs, s.phase.first)
      && cfg.sha256(Content(s.fs, s.phase.first)) == cfg.kind.expected
    ensures var s := Run(cfg, Start(fs), events);
      Run(cfg, Start(fs), more) == s.(firstRead := Some(Content(s.fs, s.phase.first)), phase := RecheckFirst)
    ensures Immutable(cfg, Start(fs), events) ==> Immutable(cfg, Start(fs), more)
    decreases var s := Run(cfg, Start(fs), events); |Content(s.fs, s.phase.first)| - |s.phase.firstPart|
  {
    hide Run, Immutable, ReadOn;
    var s := Run(cfg, Start(fs), events);
    more := events + [Adapter(choice)];
    Then(cfg, Start(fs), events, Adapter(choice));
    ReadOnGrows(Content(s.fs, s.phase.first), s.phase.firstPart);
    if |s.phase.firstPart| < |Content(s.fs, s.phase.first)| {
      more := ReadsFirst(cfg, fs, more, choice);
    }
  }

  lemma {:induction false} ReadOnGrows(content: Bytes, part: Bytes)
    requires part <= content
    ensures ReadOn(content, part) <= content
    ensures if |part| < |content| then |part| < |ReadOn(content, part)| else part == content
  {}

  /** So does the second. */
  lemma {:induction false} ReadsSecond(cfg: Config, fs: FS, events: seq<Event>,
      choice: Choice) returns (more: seq<Event>)
    requires cfg.kind.Replace? && Calmly(choice)
    requires var s := Run(cfg, Start(fs), events);
      && s.phase.ReadSecond? && s.phase.secondPart <= Content(s.fs, s.phase.second)
      && cfg.sha256(Content(s.fs, s.phase.second)) == cfg.kind.expected
    ensures var s := Run(cfg, Start(fs), events);
      Run(cfg, Start(fs), more) == s.(secondRead := Some(Content(s.fs, s.phase.second)), phase := RecheckSecond)
    ensures Immutable(cfg, Start(fs), events) ==> Immutable(cfg, Start(fs), more)
    decreases var s := Run(cfg, Start(fs), events); |Content(s.fs, s.phase.second)| - |s.phase.secondPart|
  {
    hide Run, Immutable, ReadOn;
    var s := Run(cfg, Start(fs), events);
    more := events + [Adapter(choice)];
    Then(cfg, Start(fs), events, Adapter(choice));
    ReadOnGrows(Content(s.fs, s.phase.second), s.phase.secondPart);
    if |s.phase.secondPart| < |Content(s.fs, s.phase.second)| {
      more := ReadsSecond(cfg, fs, more, choice);
    }
  }

  /** The temporary file is written to its end. */
  lemma {:induction false} WritesAll(cfg: Config, fs: FS, events: seq<Event>, choice: Choice) returns (more: seq<Event>)
    requires cfg.kind.Replace? && Calmly(choice)
    requires var s := Run(cfg, Start(fs), events);
      && s.phase.WriteTemporary? && s.temporary.Some? && s.phase.written <= |cfg.raw|
      && s.temporary.value.descriptor in s.fs.data
      && s.fs.data[s.temporary.value.descriptor] == cfg.raw[..s.phase.written]
    ensures var s := Run(cfg, Start(fs), events);
      Run(cfg, Start(fs), more)
      == s.(fs := s.fs.(data := s.fs.data[s.temporary.value.descriptor := cfg.raw]), phase := ChangeMode)
    ensures Immutable(cfg, Start(fs), events) ==> Immutable(cfg, Start(fs), more)
    decreases var s := Run(cfg, Start(fs), events); |cfg.raw| - s.phase.written
  {
    hide Run, Immutable, WriteAt;
    var s := Run(cfg, Start(fs), events);
    var written, d := s.phase.written, s.temporary.value.descriptor;
    more := events + [Adapter(choice)];
    Then(cfg, Start(fs), events, Adapter(choice));
    if written < |cfg.raw| {
      WriteExtends(cfg.raw, written, WriteProtocol.Min(choice.amount, |cfg.raw| - written - 1) + 1);
      var s' := Run(cfg, Start(fs), more);
      assert s'.fs.data[d := cfg.raw] == s.fs.data[d := cfg.raw];
      more := WritesAll(cfg, fs, more, choice);
    } else {
      assert cfg.raw[..written] == cfg.raw;
      assert s.fs.data[d := cfg.raw] == s.fs.data;
    }
  }

  /** A name `mkstemp` can make and a file number it can take. */
  predicate Free(cfg: Config, fs: FS, choice: Choice) {
    && TempName(cfg.target, choice.suffix) !in fs.names
    && choice.ino !in fs.data && choice.ino !in fs.names.Values
  }

  /** The directory with the finished temporary file in it. */
  function Prepared(cfg: Config, fs: FS, choice: Choice): FS {
    FS(fs.names[TempName(cfg.target, choice.suffix) := choice.ino], fs.data[choice.ino := cfg.raw])
  }

  /** From the first recheck to the second identity check, undisturbed. */
  lemma {:induction false} Prepares(cfg: Config, fs: FS, events: seq<Event>, choice: Choice) returns (more: seq<Event>)
    requires cfg.kind.Replace? && Calmly(choice)
    requires var s := Run(cfg, Start(fs), events);
      && s.phase.RecheckFirst? && s.before.Some? && Lookup(s.fs, cfg.target) == s.before && Free(cfg, s.fs, choice)
    ensures var s := Run(cfg, Start(fs), events);
      Run(cfg, Start(fs), more) == s.(
        fs := Prepared(cfg, s.fs, choice),
        identityChecks := s.identityChecks + 1,
        temporary := Some(Temporary(TempName(cfg.target, choice.suffix), choice.ino, Some(choice.ino))),
        phase := IdentifyCurrent)
    ensures Immutable(cfg, Start(fs), events) ==> Immutable(cfg, Start(fs), more)
  {
    hide Run, Immutable, WriteAt;
    var s := Run(cfg, Start(fs), events);
    more := events;
    for i := 0 to 4
      invariant Immutable(cfg, Start(fs), events) ==> Immutable(cfg, Start(fs), more)
      invariant Run(cfg, Start(fs), more) == Preparing(cfg, s, choice, i)
    {
      Then(cfg, Start(fs), more, Adapter(choice));
      more := more + [Adapter(choice)];
    }
    assert cfg.raw[..0] == [];
    more := WritesAll(cfg, fs, more, choice);
    var name, ino := TempName(cfg.target, choice.suffix), choice.ino;
    assert s.fs.data[ino := []][ino := cfg.raw] == s.fs.data[ino := cfg.raw];
    Then(cfg, Start(fs), more, Adapter(choice));
    more := more + [Adapter(choice)];
    Then(cfg, Start(fs), more, Adapter(choice));
    more := more + [Adapter(choice)];
  }

  /** The states between the first recheck and the first write. */
  function Preparing(cfg: Config, s: State, choice: Choice, i: int): State {
    var name := TempName(cfg.target, choice.suffix);
    var checked := s.(identityChecks := s.identityChecks + 1);
    var made := checked.(fs := FS(s.fs.names[name := choice.ino], s.fs.data[choice.ino := []]));
    if i == 0 then s
    else if i == 1 then checked.(phase := ReadMode)
    else if i == 2 then checked.(phase := MakeTemporary)
    else if i == 3 then made.(temporary := Some(Temporary(name, choice.ino, None)), phase := IdentifyTemporary)
    else made.(temporary := Some(Temporary(name, choice.ino, Some(choice.ino))), phase := WriteTemporary(0))
  }

  function Rebound(fs: FS, name: string, ino: Ino): FS { fs.(names := fs.names[name := ino]) }

  /** A run of a replace in which the environment binds the target to `first` while the first read
      opens it and to `second` while the second read does, each time putting the file back, and
      finally writes `last` into that file. It arrives at the last identity check. */
  lemma {:induction false} Interfered(
      cfg: Config, fs: FS, file: Ino, first: Ino, second: Ino, last: Bytes, choice: Choice) returns (events: seq<Event>)
    requires cfg.kind.Replace? && Calmly(choice) && Free(cfg, fs, choice)
    requires WellFormed(fs) && Lookup(fs, cfg.target) == Some(file) && first in fs.data && second in fs.data
    requires cfg.sha256(fs.data[first]) == cfg.kind.expected && cfg.sha256(fs.data[second]) == cfg.kind.expected
    ensures var s := Run(cfg, Start(fs), events);
      && s.phase.RecheckSecond? && !s.published
      && s.before == Some(file) && s.firstOpened == Some(first) && s.secondOpened == Some(second)
      && s.temporary == Some(Temporary(TempName(cfg.target, choice.suffix), choice.ino, Some(choice.ino)))
      && s.fs == Prepared(cfg, fs, choice).(data := Prepared(cfg, fs, choice).data[file := last])
    ensures last == fs.data[file] ==> Immutable(cfg, Start(fs), events)
  {
    hide Run, Immutable;
    events := FirstSwap(cfg, fs, file, first, choice);
    events := Prepares(cfg, fs, events, choice);
    events := SecondSwap(cfg, fs, events, second, choice);
    var ready := Prepared(cfg, fs, choice);
    var written := ready.(data := ready.data[file := last]);
    Then(cfg, Start(fs), events, Environment(written));
    events := events + [Environment(written)];
  }

  lemma {:induction false} FirstSwap(cfg: Config, fs: FS, file: Ino, first: Ino,
      choice: Choice) returns (events: seq<Event>)
    requires cfg.kind.Replace? && Calmly(choice) && WellFormed(fs)
    requires Lookup(fs, cfg.target) == Some(file) && first in fs.data && cfg.sha256(fs.data[first]) == cfg.kind.expected
    ensures Run(cfg, Start(fs), events) ==
      Start(fs).(before := Some(file), foundBytes := Some(fs.data[file]),
                 firstOpened := Some(first), firstRead := Some(fs.data[first]), phase := RecheckFirst)
    ensures Immutable(cfg, Start(fs), events)
  {
    hide Run, Immutable;
    var step := Adapter(choice);
    var swapped := Rebound(fs, cfg.target, first);
    events := [step];
    OneEvent(cfg, Start(fs), step);
    Then(cfg, Start(fs), events, step);
    events := events + [step];
    Then(cfg, Start(fs), events, Environment(swapped));
    events := events + [Environment(swapped)];
    Then(cfg, Start(fs), events, step);
    events := events + [step];
    events := ReadsFirst(cfg, fs, events, choice);
    Then(cfg, Start(fs), events, Environment(fs));
    events := events + [Environment(fs)];
  }

  lemma {:induction false} SecondSwap(cfg: Config, fs: FS, events: seq<Event>, second: Ino,
      choice: Choice) returns (more: seq<Event>)
    requires cfg.kind.Replace? && Calmly(choice)
    requires var s := Run(cfg, Start(fs), events);
      && s.phase.IdentifyCurrent? && s.before.Some? && Lookup(s.fs, cfg.target) == s.before && WellFormed(s.fs)
      && second in s.fs.data && cfg.sha256(s.fs.data[second]) == cfg.kind.expected
    ensures var s := Run(cfg, Start(fs), events);
      Run(cfg, Start(fs), more) == s.(
        identityChecks := s.identityChecks + 1, secondOpened := Some(second), secondRead := Some(s.fs.data[second]),
        phase := RecheckSecond)
    ensures Immutable(cfg, Start(fs), events) ==> Immutable(cfg, Start(fs), more)
  {
    hide Run, Immutable;
    var step := Adapter(choice);
    var s := Run(cfg, Start(fs), events);
    var swapped := Rebound(s.fs, cfg.target, second);
    Then(cfg, Start(fs), events, step);
    more := events + [step];
    Then(cfg, Start(fs), more, Environment(swapped));
    more := more + [Environment(swapped)];
    Then(cfg, Start(fs), more, step);
    more := more + [step];
    more := ReadsSecond(cfg, fs, more, choice);
    Then(cfg, Start(fs), more, Environment(s.fs));
    more := more + [Environment(s.fs)];
  }

  /** The two checks pass and the next step publishes over what the target holds. */
  ghost predicate Overwrites(cfg: Config, s: State, choice: Choice, bytes: Bytes) {
    var end := LastSteps(cfg, s, choice, choice);
    && end.phase.Publish? && ContentAt(end.fs, cfg.target) == Some(bytes)
    && Step(cfg, end, choice).published && ContentAt(Step(cfg, end, choice).fs, cfg.target) == Some(cfg.raw)
  }

  lemma {:induction false} InterferedOverwrites(
      cfg: Config, fs: FS, s: State, file: Ino, last: Bytes, choice: Choice)
    requires cfg.kind.Replace? && Calmly(choice) && Free(cfg, fs, choice)
    requires WellFormed(fs) && Lookup(fs, cfg.target) == Some(file)
    requires s.phase.RecheckSecond? && s.before == Some(file)
    requires s.temporary == Some(Temporary(TempName(cfg.target, choice.suffix), choice.ino, Some(choice.ino)))
    requires s.fs == Prepared(cfg, fs, choice).(data := Prepared(cfg, fs, choice).data[file := last])
    ensures Overwrites(cfg, s, choice, last)
  {
    hide TempName;
    NameDiffersHere(cfg, choice);
    var end := LastSteps(cfg, s, choice, choice);
    assert end == s.(identityChecks := s.identityChecks + 1, phase := Publish);
  }

  lemma {:induction false} NameDiffersHere(cfg: Config, choice: Choice)
    ensures TempName(cfg.target, choice.suffix) != cfg.target
  {
    NameDiffers(cfg.target, choice.suffix);
  }

  /** Swapping both reads defeats the check. In every directory where the target's file does not
      hold the expected bytes and another file does, there is a run in which no file is written
      and nothing disturbs the steps after the last check, and the replace publishes over the
      unexpected bytes. */
  lemma {:induction false} BothReadsSwapped(cfg: Config, fs: FS, file: Ino, other: Ino,
      choice: Choice) returns (events: seq<Event>)
    requires cfg.kind.Replace? && Calmly(choice) && Free(cfg, fs, choice)
    requires WellFormed(fs) && Lookup(fs, cfg.target) == Some(file) && other in fs.data
    requires cfg.sha256(fs.data[other]) == cfg.kind.expected && cfg.sha256(fs.data[file]) != cfg.kind.expected
    ensures Immutable(cfg, Start(fs), events)
    ensures Run(cfg, Start(fs), events).phase.RecheckSecond? && Run(cfg, Start(fs), events).before == Some(file)
    ensures Overwrites(cfg, Run(cfg, Start(fs), events), choice, fs.data[file])
    ensures !ExpectedAt(cfg, LastSteps(cfg, Run(cfg, Start(fs), events), choice, choice).fs)
  {
    hide Run, Immutable, Step;
    events := Interfered(cfg, fs, file, other, other, fs.data[file], choice);
    InterferedOverwrites(cfg, fs, Run(cfg, Start(fs), events), file, fs.data[file], choice);
  }

  lemma {:induction false} Unused(used: set<nat>) returns (n: nat)
    ensures forall u | u in used :: u < n
    decreases used
  {
    n := 0;
    if used != {} {
      var u :| u in used;
      n := Unused(used - {u});
      n := if n > u then n else u + 1;
      assert forall v | v in used :: v == u || v in used - {u};
    }
  }

  /** A run with immutable files that passes all checks, undisturbed from the last one on, and is
      about to overwrite unexpected bytes of the file it found first. */
  ghost predicate Defeated(cfg: Config, fs: FS, file: Ino, events: seq<Event>, choice: Choice) {
    var s := Run(cfg, Start(fs), events);
    && Immutable(cfg, Start(fs), events) && s.phase.RecheckSecond? && s.before == Some(file)
    && LastSteps(cfg, s, choice, choice).phase.Publish? && !ExpectedAt(cfg, LastSteps(cfg, s, choice, choice).fs)
  }

  /** Some run with immutable files overwrites unexpected bytes exactly when the target's file does
      not hold the expected bytes and some bytes have the expected digest. */
  lemma {:induction false} DefeatIsExact(cfg: Config, fs: FS, file: Ino, choice: Choice)
    requires cfg.kind.Replace? && Calmly(choice) && Free(cfg, fs, choice)
    requires WellFormed(fs) && Lookup(fs, cfg.target) == Some(file)
    ensures (exists events :: Defeated(cfg, fs, file, events, choice)) <==>
      && cfg.sha256(fs.data[file]) != cfg.kind.expected
      && exists bytes :: cfg.sha256(bytes) == cfg.kind.expected
  {
    hide Run, Immutable, Step, LastSteps, Inv, TemporaryNamed;
    if events :| Defeated(cfg, fs, file, events, choice) {
      StartNamed(cfg, fs);
      PublishesAtMostOnce(cfg, fs, events);
      LastCheckIsExact(cfg, fs, events, choice, choice);
      ImmutableRun(cfg, fs, Start(fs), events);
      LastStepsPass(cfg, Run(cfg, Start(fs), events), choice, choice);
      assert cfg.sha256(Run(cfg, Start(fs), events).firstRead.value) == cfg.kind.expected;
    }
    if cfg.sha256(fs.data[file]) != cfg.kind.expected {
      if bytes :| cfg.sha256(bytes) == cfg.kind.expected {
        var events := Defeat(cfg, fs, file, bytes, choice);
        assert Defeated(cfg, fs, file, events, choice);
      }
    }
  }

  /** The environment brings a file with those bytes and has both reads open it. */
  lemma {:induction false} Defeat(cfg: Config, fs: FS, file: Ino, bytes: Bytes,
      choice: Choice) returns (events: seq<Event>)
    requires cfg.kind.Replace? && Calmly(choice) && Free(cfg, fs, choice)
    requires WellFormed(fs) && Lookup(fs, cfg.target) == Some(file)
    requires cfg.sha256(fs.data[file]) != cfg.kind.expected && cfg.sha256(bytes) == cfg.kind.expected
    ensures Defeated(cfg, fs, file, events, choice)
  {
    hide Run, Immutable, Step, LastSteps, ExpectedAt;
    var other := Unused(fs.data.Keys + {choice.ino});
    var brought := fs.(data := fs.data[other := bytes]);
    assert Free(cfg, brought, choice);
    var more := BothReadsSwapped(cfg, brought, file, other, choice);
    OneEvent(cfg, Start(fs), Environment(brought));
    RunAppend(cfg, Start(fs), [Environment(brought)], more);
    events := [Environment(brought)] + more;
  }

  /** A write in place after the second read is overwritten unseen. In every directory where the
      target holds the expected bytes, and for all bytes, there is a run in which those bytes are
      written into the target before the last check and the replace publishes over them, so that
      what it overwrites has the expected digest exactly when those bytes do. */
  lemma {:induction false} InPlaceWriteIsLost(cfg: Config, fs: FS, file: Ino, bytes: Bytes,
      choice: Choice) returns (events: seq<Event>)
    requires cfg.kind.Replace? && Calmly(choice) && Free(cfg, fs, choice)
    requires WellFormed(fs) && Lookup(fs, cfg.target) == Some(file) && cfg.sha256(fs.data[file]) == cfg.kind.expected
    ensures Run(cfg, Start(fs), events).phase.RecheckSecond?
    ensures Overwrites(cfg, Run(cfg, Start(fs), events), choice, bytes)
    ensures ExpectedAt(cfg, LastSteps(cfg, Run(cfg, Start(fs), events), choice, choice).fs) <==>
        cfg.sha256(bytes) == cfg.kind.expected
  {
    hide Run, Immutable, Step;
    events := Interfered(cfg, fs, file, file, file, bytes, choice);
    InterferedOverwrites(cfg, fs, Run(cfg, Start(fs), events), file, bytes, choice);
  }
}
