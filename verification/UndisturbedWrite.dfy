/** An undisturbed invocation of a write adapter: what it returns and what it leaves behind. */
module UndisturbedWrite {
  import opened Results
  import opened WriteProtocol
  import opened WriteSafety

  /** No interference, no failing system call, and a boundary that keeps its answer. */
  predicate Smooth(events: seq<Event>) {
    forall e | e in events :: e.Adapter? && !e.choice.fails && e.choice.boundary.None? && e.choice.sameTarget
  }

  /** The outcome the documentation promises. */
  function Promised(cfg: Config, fs: FS): Outcome {
    match cfg.kind
    case Create => if cfg.target in fs.names then Failed("target_already_exists") else Succeeded
    case Replace(expected) =>
      if cfg.target !in fs.names then Failed("path_not_found")
      else if cfg.sha256(Content(fs, fs.names[cfg.target])) != expected then PRECONDITION
      else Succeeded
  }

  /** The files left behind: on success the target is a new file holding the bytes, on failure
      no name has changed; no earlier file lost a byte, and no temporary name remains. */
  ghost predicate Left(cfg: Config, fs: FS, s: State)
    requires Finishing(s.phase)
  {
    && (forall ino | ino in fs.data :: Content(s.fs, ino) == fs.data[ino])
    && if s.phase.outcome.Succeeded? then
         exists ino :: ino !in fs.data && s.fs.names == fs.names[cfg.target := ino] && Content(s.fs, ino) == cfg.raw
       else s.fs.names == fs.names
  }

  /** The directory with the temporary file in it. */
  ghost predicate WithTemporary(cfg: Config, fs: FS, s: State, bytes: Bytes) {
    && s.temporary.Some?
    && var t := s.temporary.value;
       && t.name !in fs.names && t.name != cfg.target && t.descriptor !in fs.data && t.descriptor !in fs.names.Values
       && s.fs == FS(fs.names[t.name := t.descriptor], fs.data[t.descriptor := bytes])
  }

  predicate Found(cfg: Config, fs: FS, s: State) { s.before.Some? && Lookup(fs, cfg.target) == s.before }

  /** The states of an undisturbed invocation that began in `fs`. */
  ghost predicate Calm(cfg: Config, fs: FS, s: State) {
    && (BeforeTemporary(s.phase) ==> CalmReading(cfg, fs, s))
    && (s.phase.IdentifyTemporary? || s.phase.WriteTemporary? || Written(s.phase) ==> CalmWriting(cfg, fs, s))
    && !s.phase.UnlinkFailedWrite?
    && (Finishing(s.phase) ==> CalmEnd(cfg, fs, s))
  }

  ghost predicate CalmReading(cfg: Config, fs: FS, s: State) {
    && s.fs == fs
    && (cfg.kind.Create? ==> s.phase.Resolve? || s.phase.MakeTemporary?)
    && (s.phase.OpenFirst? || s.phase.ReadFirst? ==> Found(cfg, fs, s))
    && (s.phase.ReadFirst? ==> s.before == Some(s.phase.first) && s.phase.firstPart <= Content(fs, s.phase.first))
    && (s.phase.RecheckFirst? || s.phase.ReadMode? || (s.phase.MakeTemporary? && cfg.kind.Replace?) ==>
          Found(cfg, fs, s) && ExpectedAt(cfg, fs))
  }

  ghost predicate CalmWriting(cfg: Config, fs: FS, s: State) {
    && s.temporary.Some?
    && (s.phase.IdentifyTemporary? ==> WithTemporary(cfg, fs, s, []))
    && (s.phase.WriteTemporary? ==>
        s.phase.written <= |cfg.raw| && WithTemporary(cfg, fs, s, cfg.raw[..s.phase.written]))
    && (Written(s.phase) ==> WithTemporary(cfg, fs, s, cfg.raw))
    && (!s.phase.IdentifyTemporary? ==> s.temporary.value.identity == Some(s.temporary.value.descriptor))
    && (cfg.kind.Replace? ==> Found(cfg, fs, s) && ExpectedAt(cfg, fs))
    && (cfg.kind.Create? ==>
        !s.phase.ChangeMode? && (Checking(s.phase) ==> s.phase.CheckTemporary? || s.phase.Publish?))
    && (s.phase.ReadSecond? ==> s.before == Some(s.phase.second) && s.phase.secondPart <= Content(fs, s.phase.second))
  }

  /** The names left behind once the temporary one is gone. */
  function FinalNames(cfg: Config, fs: FS, s: State): map<string, Ino>
    requires Finishing(s.phase) && s.temporary.Some?
  {
    if s.phase.outcome.Succeeded? then fs.names[cfg.target := s.temporary.value.descriptor] else fs.names
  }

  ghost predicate CalmEnd(cfg: Config, fs: FS, s: State)
    requires Finishing(s.phase)
  {
    && s.phase.outcome == Promised(cfg, fs)
    && (s.phase.CleanupCheck? ==>
          && s.temporary.Some?
          && var t := s.temporary.value;
             && t.name !in fs.names && t.name != cfg.target && t.descriptor !in fs.data &&
                 t.descriptor !in fs.names.Values
             && t.identity == Some(t.descriptor)
             && s.fs.data == fs.data[t.descriptor := cfg.raw]
             && s.fs.names == if !s.phase.outcome.Succeeded? then fs.names[t.name := t.descriptor]
                              else if cfg.kind.Create? then fs.names[t.name := t.descriptor][cfg.target := t.descriptor]
                              else fs.names[cfg.target := t.descriptor])
    && (s.phase.CleanupUnlink? ==>
          && s.temporary.Some?
          && var t := s.temporary.value;
             && t.name !in fs.names && t.name != cfg.target && t.descriptor !in fs.data
             && s.fs.data == fs.data[t.descriptor := cfg.raw]
             && s.fs.names == FinalNames(cfg, fs, s)[t.name := t.descriptor])
    && (s.phase.Report? || s.phase.Done? ==> Left(cfg, fs, s))
  }

  lemma {:induction false} ReadingStep(cfg: Config, fs: FS, s: State, choice: Choice)
    requires Calm(cfg, fs, s) && Calmly(choice) && BeforeTemporary(s.phase)
    ensures Calm(cfg, fs, Step(cfg, s, choice))
  {
    hide ReadOn, TempName;
    NameDiffers(cfg.target, choice.suffix);
    if s.phase.ReadFirst? { ReadOnPrefix(Content(fs, s.phase.first), s.phase.firstPart); }
  }

  lemma {:induction false} WriteStep(cfg: Config, fs: FS, s: State, choice: Choice)
    requires Calm(cfg, fs, s) && Calmly(choice) && s.phase.WriteTemporary?
    ensures Calm(cfg, fs, Step(cfg, s, choice))
  {
    hide WriteAt, TempName, Promised;
    var written, t := s.phase.written, s.temporary.value;
    assert cfg.raw[..|cfg.raw|] == cfg.raw;
    if written < |cfg.raw| {
      var n := WriteProtocol.Min(choice.amount, |cfg.raw| - written - 1) + 1;
      WriteExtends(cfg.raw, written, n);
      assert fs.data[t.descriptor := cfg.raw[..written]][t.descriptor := cfg.raw[..written + n]]
          == fs.data[t.descriptor := cfg.raw[..written + n]];
    }
  }

  lemma {:induction false} WritingStep(cfg: Config, fs: FS, s: State, choice: Choice)
    requires Calm(cfg, fs, s) && Calmly(choice) &&
        (s.phase.IdentifyTemporary? || s.phase.ChangeMode? || s.phase.Revalidate?)
    ensures Calm(cfg, fs, Step(cfg, s, choice))
  {
    hide TempName, Promised;
    assert cfg.raw[..0] == [];
  }

  lemma {:induction false} CheckingStep(cfg: Config, fs: FS, s: State, choice: Choice)
    requires Calm(cfg, fs, s) && Calmly(choice) && Checking(s.phase) && !s.phase.Publish?
    ensures Calm(cfg, fs, Step(cfg, s, choice))
  {
    hide ReadOn, TempName;
    if s.phase.ReadSecond? { ReadOnPrefix(Content(fs, s.phase.second), s.phase.secondPart); }
  }

  lemma {:induction false} PublishStep(cfg: Config, fs: FS, s: State, choice: Choice)
    requires Calm(cfg, fs, s) && Calmly(choice) && s.phase.Publish?
    ensures Calm(cfg, fs, Step(cfg, s, choice))
  {
    hide ReadOn, TempName;
    var t := s.temporary.value;
    assert (fs.names[t.name := t.descriptor] - {t.name})[cfg.target := t.descriptor] ==
        fs.names[cfg.target := t.descriptor];
  }

  lemma {:induction false} EndingStep(cfg: Config, fs: FS, s: State, choice: Choice)
    requires Calm(cfg, fs, s) && Calmly(choice) && Finishing(s.phase)
    ensures Calm(cfg, fs, Step(cfg, s, choice))
  {
    hide Step, Calm;
    if s.phase.CleanupCheck? {
      CleanupCheckStep(cfg, fs, s, choice);
    } else if s.phase.CleanupUnlink? {
      CleanupUnlinkStep(cfg, fs, s, choice);
    } else {
      ReportStep(cfg, fs, s, choice);
    }
  }

  lemma {:induction false} CleanupCheckStep(cfg: Config, fs: FS, s: State, choice: Choice)
    requires Calm(cfg, fs, s) && Calmly(choice) && s.phase.CleanupCheck?
    ensures Calm(cfg, fs, Step(cfg, s, choice))
  {
    hide Unlinked, Promised;
    var t := s.temporary.value;
    assert fs.names[t.name := t.descriptor][cfg.target := t.descriptor] ==
        fs.names[cfg.target := t.descriptor][t.name := t.descriptor];
  }

  lemma {:induction false} CleanupUnlinkStep(cfg: Config, fs: FS, s: State, choice: Choice)
    requires Calm(cfg, fs, s) && Calmly(choice) && s.phase.CleanupUnlink?
    ensures Calm(cfg, fs, Step(cfg, s, choice))
  {
    hide Promised;
    var t := s.temporary.value;
    assert fs.names[t.name := t.descriptor] - {t.name} == fs.names;
    assert fs.names[cfg.target := t.descriptor][t.name := t.descriptor] - {t.name} ==
        fs.names[cfg.target := t.descriptor];
  }

  lemma {:induction false} ReportStep(cfg: Config, fs: FS, s: State, choice: Choice)
    requires Calm(cfg, fs, s) && Calmly(choice) && (s.phase.Report? || s.phase.Done?)
    ensures Calm(cfg, fs, Step(cfg, s, choice))
  {
    hide Promised;
  }

  lemma {:induction false} CalmStep(cfg: Config, fs: FS, s: State, choice: Choice)
    requires Calm(cfg, fs, s) && Calmly(choice)
    ensures Calm(cfg, fs, Step(cfg, s, choice))
  {
    hide Step, Calm;
    if BeforeTemporary(s.phase) {
      ReadingStep(cfg, fs, s, choice);
    } else if Finishing(s.phase) {
      EndingStep(cfg, fs, s, choice);
    } else if s.phase.Publish? {
      PublishStep(cfg, fs, s, choice);
    } else if Checking(s.phase) {
      CheckingStep(cfg, fs, s, choice);
    } else if s.phase.WriteTemporary? {
      WriteStep(cfg, fs, s, choice);
    } else {
      NoFailedWrite(cfg, fs, s);
      WritingStep(cfg, fs, s, choice);
    }
  }

  lemma {:induction false} NoFailedWrite(cfg: Config, fs: FS, s: State)
    requires Calm(cfg, fs, s)
    ensures !s.phase.UnlinkFailedWrite?
  {}

  lemma {:induction false} CalmRun(cfg: Config, fs: FS, s: State, events: seq<Event>)
    requires Calm(cfg, fs, s) && Smooth(events)
    ensures Calm(cfg, fs, Run(cfg, s, events))
    decreases |events|
  {
    hide Step, Calm;
    if events != [] {
      CalmStep(cfg, fs, s, events[0].choice);
      CalmRun(cfg, fs, Next(cfg, s, events[0]), events[1..]);
    }
  }

  /** An undisturbed invocation that has ended returns what is promised and leaves exactly the
      promised files. */
  lemma {:induction false} UndisturbedInvocation(cfg: Config, fs: FS, events: seq<Event>)
    requires Smooth(events) && Run(cfg, Start(fs), events).phase.Done?
    ensures var end := Run(cfg, Start(fs), events);
      end.phase.outcome == Promised(cfg, fs) && Left(cfg, fs, end)
  {
    hide Step, Run;
    CalmRun(cfg, fs, Start(fs), events);
  }

  // ---------------------------------------------------------------- it does end

  function Rank(p: Phase): nat {
    match p
    case Resolve => 20
    case IdentifyBefore => 19
    case OpenFirst => 18
    case ReadFirst(_, _) => 17
    case RecheckFirst => 16
    case ReadMode => 15
    case MakeTemporary => 14
    case IdentifyTemporary => 13
    case WriteTemporary(_) => 12
    case ChangeMode => 11
    case Revalidate => 10
    case IdentifyCurrent => 9
    case OpenSecond => 8
    case ReadSecond(_, _) => 7
    case RecheckSecond => 6
    case CheckTemporary => 5
    case Publish => 4
    case CleanupCheck(_) => 3
    case CleanupUnlink(_) => 2
    case UnlinkFailedWrite => 1
    case Report(_) => 1
    case Done(_) => 0
  }

  /** The bytes still to be read or written in a phase. */
  function Remaining(cfg: Config, s: State): nat {
    match s.phase
    case ReadFirst(ino, part) => if |part| < |Content(s.fs, ino)| then |Content(s.fs, ino)| - |part| else 0
    case WriteTemporary(written) => if written < |cfg.raw| then |cfg.raw| - written else 0
    case ReadSecond(ino, part) => if |part| < |Content(s.fs, ino)| then |Content(s.fs, ino)| - |part| else 0
    case _ => 0
  }

  predicate Advances(cfg: Config, s: State, s': State) {
    Rank(s'.phase) < Rank(s.phase) || (Rank(s'.phase) == Rank(s.phase) && Remaining(cfg, s') < Remaining(cfg, s))
  }

  lemma {:induction false} ReadingAdvances(cfg: Config, fs: FS, s: State, choice: Choice)
    requires Calm(cfg, fs, s) && Calmly(choice) && BeforeTemporary(s.phase)
    requires TempName(cfg.target, choice.suffix) !in fs.names && choice.ino !in fs.data &&
        choice.ino !in fs.names.Values
    ensures Advances(cfg, s, Step(cfg, s, choice))
  {
    hide TempName, CalmWriting, CalmEnd;
  }

  lemma {:induction false} OthersAdvance(cfg: Config, s: State, choice: Choice)
    requires Calmly(choice) && !s.phase.Done? && !BeforeTemporary(s.phase)
    ensures Advances(cfg, s, Step(cfg, s, choice))
  {
    hide WriteAt, TempName, Renamed, Unlinked;
  }

  /** From every state of an undisturbed invocation it reaches its end, given a free temporary
      name and a free file. */
  lemma {:induction false} Ends(cfg: Config, fs: FS, s: State, choice: Choice) returns (events: seq<Event>)
    requires Calm(cfg, fs, s) && Calmly(choice)
    requires TempName(cfg.target, choice.suffix) !in fs.names && choice.ino !in fs.data &&
        choice.ino !in fs.names.Values
    ensures Smooth(events) && Run(cfg, s, events).phase.Done?
    decreases Rank(s.phase), Remaining(cfg, s)
  {
    hide Step, Calm, Rank, Remaining, TempName;
    events := [];
    if !s.phase.Done? {
      if BeforeTemporary(s.phase) { ReadingAdvances(cfg, fs, s, choice); } else { OthersAdvance(cfg, s, choice); }
      CalmStep(cfg, fs, s, choice);
      var rest := Ends(cfg, fs, Step(cfg, s, choice), choice);
      events := [Adapter(choice)] + rest;
      EventStep(cfg, s, Adapter(choice), rest);
    }
  }
}
