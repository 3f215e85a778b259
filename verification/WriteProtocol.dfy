/** The create and replace protocols of the text write adapters as a state machine: every
    system call is one step, and between any two steps an environment may change the file
    system in any way. */
module WriteProtocol {
  import opened Results

  type Ino = nat
  type Bytes = seq<bv8>

  /** One directory: names bound to files, and the bytes of every file. */
  datatype FS = FS(names: map<string, Ino>, data: map<Ino, Bytes>)

  function Lookup(fs: FS, name: string): Option<Ino> {
    if name in fs.names then Some(fs.names[name]) else None
  }

  function Content(fs: FS, ino: Ino): Bytes { if ino in fs.data then fs.data[ino] else [] }

  function ContentAt(fs: FS, name: string): Option<Bytes> {
    if name in fs.names then Some(Content(fs, fs.names[name])) else None
  }

  const CHUNK: nat := 65536

  datatype Kind = Create | Replace(expected: string)

  /** One invocation of an adapter. */
  datatype Config = Config(target: string, raw: Bytes, kind: Kind, sha256: Bytes -> string)

  /** The temporary file: its name, the file behind its descriptor, and the identity read back
      from the name. */
  datatype Temporary = Temporary(name: string, descriptor: Ino, identity: Option<Ino>)

  datatype Outcome = Succeeded | Failed(code: string)

  const ACCESS := Failed("filesystem_access_failed")
  const PRECONDITION := Failed("content_precondition_failed")

  datatype Phase =
    | Resolve
    | IdentifyBefore
    | OpenFirst
    | ReadFirst(first: Ino, firstPart: Bytes)
    | RecheckFirst
    | ReadMode
    | MakeTemporary
    | IdentifyTemporary
    | WriteTemporary(written: nat)
    | UnlinkFailedWrite
    | ChangeMode
    | Revalidate
    | IdentifyCurrent
    | OpenSecond
    | ReadSecond(second: Ino, secondPart: Bytes)
    | RecheckSecond
    | CheckTemporary
    | Publish
    | CleanupCheck(outcome: Outcome)
    | CleanupUnlink(outcome: Outcome)
    | Report(outcome: Outcome)
    | Done(outcome: Outcome)

  /** The state of an invocation: the directory, the adapter's place in its code, its variables,
      and for the record the bytes found first under the target's name and the files its two reads
      opened there. */
  datatype State = State(
    fs: FS,
    phase: Phase,
    before: Option<Ino>,
    foundBytes: Option<Bytes>,
    firstOpened: Option<Ino>,
    firstRead: Option<Bytes>,
    secondOpened: Option<Ino>,
    secondRead: Option<Bytes>,
    temporary: Option<Temporary>,
    identityChecks: nat,
    published: bool)

  function Start(fs: FS): State { State(fs, Resolve, None, None, None, None, None, None, None, 0, false) }

  /** What the system decides at a step: whether the call fails, what the path boundary says,
      the name and file `mkstemp` picks, how much one write takes. */
  datatype Choice = Choice(fails: bool, boundary: Option<string>, sameTarget: bool, suffix: string, ino: Ino,
      amount: nat)

  function TempName(target: string, suffix: string): string { "." + target + ".oai-" + suffix + ".tmp" }

  function Min(a: nat, b: nat): nat { if a <= b then a else b }

  /** The bytes after a write of `bytes` at offset `at`; a gap is filled with zeros. */
  function WriteAt(content: Bytes, at: nat, bytes: Bytes): Bytes {
    var front := if |content| >= at then content[..at] else content + seq(at - |content|, i => 0);
    front + bytes + (if |content| >= at + |bytes| then content[at + |bytes|..] else [])
  }

  // ---------------------------------------------------------------- the adapter's steps

  /** An exception before the temporary file exists. */
  function Raised(s: State, outcome: Outcome): State { s.(phase := Done(outcome)) }

  /** An exception inside the `try`, or its normal end: the `finally` block runs next. */
  function Finally(s: State, outcome: Outcome): State { s.(phase := CleanupCheck(outcome)) }

  function TempIs(s: State): Temporary { if s.temporary.Some? then s.temporary.value else Temporary("", 0, None) }

  function ReadOn(content: Bytes, part: Bytes): Bytes {
    if |part| < |content| then part + content[|part|..Min(|part| + CHUNK, |content|)] else part
  }

  function Unlinked(fs: FS, name: string): FS { fs.(names := fs.names - {name}) }

  function Step(cfg: Config, s: State, choice: Choice): State {
    match s.phase
    case Resolve =>
      if choice.boundary.Some? then Raised(s, Failed(choice.boundary.value))
      else s.(phase := if cfg.kind.Create? then MakeTemporary else IdentifyBefore)
    case IdentifyBefore =>
      if choice.fails then Raised(s, ACCESS)
      else if cfg.target !in s.fs.names then Raised(s, Failed("path_not_found"))
      else s.(before := Lookup(s.fs, cfg.target), foundBytes := ContentAt(s.fs, cfg.target), phase := OpenFirst)
    case OpenFirst =>
      if choice.fails || cfg.target !in s.fs.names then Raised(s, ACCESS)
      else s.(firstOpened := Lookup(s.fs, cfg.target), phase := ReadFirst(s.fs.names[cfg.target], []))
    case ReadFirst(ino, part) =>
      if choice.fails then Raised(s, ACCESS)
      else if |part| < |Content(s.fs, ino)| then s.(phase := ReadFirst(ino, ReadOn(Content(s.fs, ino), part)))
      else if cfg.kind.Create? || cfg.sha256(part) != cfg.kind.expected then Raised(s, PRECONDITION)
      else s.(firstRead := Some(part), phase := RecheckFirst)
    case RecheckFirst =>
      if choice.fails then Raised(s, ACCESS)
      else if Lookup(s.fs, cfg.target) != s.before then Raised(s, PRECONDITION)
      else s.(identityChecks := s.identityChecks + 1, phase := ReadMode)
    case ReadMode =>
      if choice.fails || cfg.target !in s.fs.names then Raised(s, ACCESS) else s.(phase := MakeTemporary)
    case MakeTemporary =>
      var name := TempName(cfg.target, choice.suffix);
      if choice.fails then Raised(s, ACCESS)
      else if name in s.fs.names || choice.ino in s.fs.data || choice.ino in s.fs.names.Values then s
      else s.(fs := FS(s.fs.names[name := choice.ino], s.fs.data[choice.ino := []]),
              temporary := Some(Temporary(name, choice.ino, None)), phase := IdentifyTemporary)
    case IdentifyTemporary =>
      if choice.fails || TempIs(s).name !in s.fs.names then Raised(s, ACCESS)
      else s.(temporary := Some(TempIs(s).(identity := Lookup(s.fs, TempIs(s).name))), phase := WriteTemporary(0))
    case WriteTemporary(written) =>
      if choice.fails then s.(phase := UnlinkFailedWrite)
      else if written >= |cfg.raw| then s.(phase := if cfg.kind.Create? then Revalidate else ChangeMode)
      else
        var n := Min(choice.amount, |cfg.raw| - written - 1) + 1;
        var bytes := WriteAt(Content(s.fs, TempIs(s).descriptor), written, cfg.raw[written..written + n]);
        s.(fs := s.fs.(data := s.fs.data[TempIs(s).descriptor := bytes]), phase := WriteTemporary(written + n))
    case UnlinkFailedWrite =>
      (if choice.fails then s else s.(fs := Unlinked(s.fs, TempIs(s).name))).(phase := Done(ACCESS))
    case ChangeMode =>
      if choice.fails then Finally(s, ACCESS) else s.(phase := Revalidate)
    case Revalidate =>
      if choice.boundary.Some? then Finally(s, Failed(choice.boundary.value))
      else if !choice.sameTarget then Finally(s, if cfg.kind.Create? then ACCESS else PRECONDITION)
      else s.(phase := if cfg.kind.Create? then CheckTemporary else IdentifyCurrent)
    case IdentifyCurrent =>
      if choice.fails then Finally(s, ACCESS)
      else if Lookup(s.fs, cfg.target) != s.before then Finally(s, PRECONDITION)
      else s.(identityChecks := s.identityChecks + 1, phase := OpenSecond)
    case OpenSecond =>
      if choice.fails || cfg.target !in s.fs.names then Finally(s, ACCESS)
      else s.(secondOpened := Lookup(s.fs, cfg.target), phase := ReadSecond(s.fs.names[cfg.target], []))
    case ReadSecond(ino, part) =>
      if choice.fails then Finally(s, ACCESS)
      else if |part| < |Content(s.fs, ino)| then s.(phase := ReadSecond(ino, ReadOn(Content(s.fs, ino), part)))
      else if cfg.kind.Create? || cfg.sha256(part) != cfg.kind.expected then Finally(s, PRECONDITION)
      else s.(secondRead := Some(part), phase := RecheckSecond)
    case RecheckSecond =>
      if choice.fails then Finally(s, ACCESS)
      else if Lookup(s.fs, cfg.target) != s.before then Finally(s, PRECONDITION)
      else s.(identityChecks := s.identityChecks + 1, phase := CheckTemporary)
    case CheckTemporary =>
      if choice.fails || Lookup(s.fs, TempIs(s).name) != TempIs(s).identity then Finally(s, ACCESS)
      else s.(phase := Publish)
    case Publish =>
      var name := TempIs(s).name;
      if choice.fails || name !in s.fs.names then Finally(s, ACCESS)
      else if cfg.kind.Create? then
        if cfg.target in s.fs.names then Finally(s, Failed("target_already_exists"))
        else Finally(s.(fs := s.fs.(names := s.fs.names[cfg.target := s.fs.names[name]]), published := true), Succeeded)
      else Finally(s.(fs := Renamed(s.fs, name, cfg.target), published := true), Succeeded)
    case CleanupCheck(outcome) =>
      if choice.fails || TempIs(s).identity.None? || Lookup(s.fs, TempIs(s).name) != TempIs(s).identity
      then s.(phase := Report(outcome))
      else s.(phase := CleanupUnlink(outcome))
    case CleanupUnlink(outcome) =>
      (if choice.fails then s else s.(fs := Unlinked(s.fs, TempIs(s).name))).(phase := Report(outcome))
    case Report(outcome) =>
      s.(phase := Done(if outcome.Succeeded? && choice.fails then ACCESS else outcome))
    case Done(_) => s
  }

  /** `rename(2)`: atomic, and without effect when both names are links to one file. */
  function Renamed(fs: FS, from: string, to: string): FS
    requires from in fs.names
  {
    if Lookup(fs, to) == Lookup(fs, from) then fs
    else fs.(names := (fs.names - {from})[to := fs.names[from]])
  }

  // ---------------------------------------------------------------- interleavings

  datatype Event = Environment(fs: FS) | Adapter(choice: Choice)

  function Next(cfg: Config, s: State, e: Event): State {
    match e
    case Environment(fs) => s.(fs := fs)
    case Adapter(choice) => Step(cfg, s, choice)
  }

  function Run(cfg: Config, s: State, events: seq<Event>): State
    decreases |events|
  {
    if events == [] then s else Run(cfg, Next(cfg, s, events[0]), events[1..])
  }

  /** How often the adapter's own steps bind the target to another file. */
  function Rebindings(cfg: Config, s: State, events: seq<Event>): nat
    decreases |events|
  {
    if events == [] then 0
    else
      var s' := Next(cfg, s, events[0]);
      (if events[0].Adapter? && Lookup(s'.fs, cfg.target) != Lookup(s.fs, cfg.target) then 1 else 0)
      + Rebindings(cfg, s', events[1..])
  }

  // ---------------------------------------------------------------- what every interleaving keeps

  predicate Finishing(p: Phase) { p.CleanupCheck? || p.CleanupUnlink? || p.Report? || p.Done? }

  predicate BeforeTemporary(p: Phase) {
    || p.Resolve? || p.IdentifyBefore? || p.OpenFirst? || p.ReadFirst? || p.RecheckFirst? || p.ReadMode?
    || p.MakeTemporary?
  }

  predicate HasTemporary(p: Phase) {
    || p.IdentifyTemporary? || p.WriteTemporary? || p.UnlinkFailedWrite? || p.ChangeMode? || p.Revalidate?
    || p.IdentifyCurrent? || p.OpenSecond? || p.ReadSecond? || p.RecheckSecond? || p.CheckTemporary? || p.Publish?
    || p.CleanupCheck? || p.CleanupUnlink?
  }

  /** A replace in one of these phases has passed the first digest and identity check. */
  predicate FirstCheckPassed(s: State) {
    var p := s.phase;
    || p.ReadMode? || p.MakeTemporary? || p.IdentifyTemporary? || p.WriteTemporary? || p.ChangeMode? || p.Revalidate?
    || p.IdentifyCurrent? || p.OpenSecond? || p.ReadSecond? || p.RecheckSecond? || p.CheckTemporary? || p.Publish?
    || s.published
  }

  /** A replace in one of these phases has passed the second identity check. */
  predicate SecondCheckPassed(s: State) {
    var p := s.phase;
    p.OpenSecond? || p.ReadSecond? || p.RecheckSecond? || p.CheckTemporary? || p.Publish? || s.published
  }

  /** A replace in one of these phases has passed the third identity check. */
  predicate LastCheckPassed(s: State) { s.phase.CheckTemporary? || s.phase.Publish? || s.published }

  /** The bytes read have the expected digest. */
  predicate Matched(cfg: Config, read: Option<Bytes>) {
    cfg.kind.Replace? && read.Some? && cfg.sha256(read.value) == cfg.kind.expected
  }

  ghost predicate TemporaryNamed(cfg: Config, s: State) {
    && (HasTemporary(s.phase) ==> s.temporary.Some?)
    && (s.temporary.Some? ==> exists suffix :: s.temporary.value.name == TempName(cfg.target, suffix))
  }

  ghost predicate ChecksPassed(cfg: Config, s: State) {
    cfg.kind.Replace? ==>
      && (s.phase.OpenFirst? || s.phase.ReadFirst? || s.phase.RecheckFirst? || FirstCheckPassed(s) ==> s.before.Some?)
      && (s.phase.RecheckFirst? ==> Matched(cfg, s.firstRead))
      && (FirstCheckPassed(s) ==> Matched(cfg, s.firstRead) && s.identityChecks >= 1)
      && (SecondCheckPassed(s) ==> s.identityChecks >= 2)
      && (s.phase.RecheckSecond? || LastCheckPassed(s) ==> Matched(cfg, s.secondRead))
      && (LastCheckPassed(s) ==> s.identityChecks >= 3)
  }

  /** Success is reported only after publishing; a published write is otherwise reported only as
      an access failure. */
  ghost predicate OutcomeHonest(s: State) {
    && (s.published ==> Finishing(s.phase))
    && (Finishing(s.phase) && s.phase.outcome.Succeeded? ==> s.published)
    && (s.published && !s.phase.outcome.Succeeded? ==> s.phase == Done(ACCESS))
  }

  ghost predicate Inv(cfg: Config, s: State) { TemporaryNamed(cfg, s) && ChecksPassed(cfg, s) && OutcomeHonest(s) }

  lemma {:induction false} NameDiffers(target: string, suffix: string)
    ensures TempName(target, suffix) != target
  {
    assert |TempName(target, suffix)| > |target|;
  }

  lemma {:induction false} StepKeepsTemporary(cfg: Config, s: State, choice: Choice)
    requires TemporaryNamed(cfg, s)
    ensures TemporaryNamed(cfg, Step(cfg, s, choice))
  {
    if s.phase.MakeTemporary? { assert TempName(cfg.target, choice.suffix) == TempName(cfg.target, choice.suffix); }
  }

  predicate Checking(p: Phase) {
    p.IdentifyCurrent? || p.OpenSecond? || p.ReadSecond? || p.RecheckSecond? || p.CheckTemporary? || p.Publish?
  }

  lemma {:induction false} StepKeepsChecks(cfg: Config, s: State, choice: Choice)
    requires ChecksPassed(cfg, s) && OutcomeHonest(s)
    ensures ChecksPassed(cfg, Step(cfg, s, choice))
  {
    hide Step, ChecksPassed, OutcomeHonest;
    if Checking(s.phase) { LateChecks(cfg, s, choice); } else { EarlyChecks(cfg, s, choice); }
  }

  lemma {:induction false} LateChecks(cfg: Config, s: State, choice: Choice)
    requires ChecksPassed(cfg, s) && OutcomeHonest(s) && Checking(s.phase)
    ensures ChecksPassed(cfg, Step(cfg, s, choice))
  {
    hide WriteAt, ReadOn, TempName, Renamed, Unlinked;
  }

  lemma {:induction false} EarlyChecks(cfg: Config, s: State, choice: Choice)
    requires ChecksPassed(cfg, s) && OutcomeHonest(s) && !Checking(s.phase)
    ensures ChecksPassed(cfg, Step(cfg, s, choice))
  {
    hide WriteAt, ReadOn, Content, TempName, Renamed, Unlinked;
  }

  lemma {:induction false} StepKeepsOutcome(cfg: Config, s: State, choice: Choice)
    requires OutcomeHonest(s)
    ensures OutcomeHonest(Step(cfg, s, choice))
    ensures s.published ==> Step(cfg, s, choice).published
  {
    hide WriteAt, ReadOn, TempName, Renamed, Unlinked;
  }

  /** One step of the adapter, in any state an interleaving can reach: other names keep their
      files, files other than the temporary one keep their bytes, and the target is bound to
      another file only by the publishing step, which binds it to the file of the temporary
      name; create does so only when the target is absent. */
  lemma {:induction false} StepFrame(cfg: Config, s: State, choice: Choice)
    requires Inv(cfg, s)
    ensures var s' := Step(cfg, s, choice);
      && (forall name | name != cfg.target && (s'.temporary.None? || name != s'.temporary.value.name) ::
            Lookup(s'.fs, name) == Lookup(s.fs, name))
      && (forall ino | s'.temporary.None? || ino != s'.temporary.value.descriptor ::
          Content(s'.fs, ino) == Content(s.fs, ino))
      && (Lookup(s'.fs, cfg.target) != Lookup(s.fs, cfg.target) ==>
            && s.phase.Publish? && !s.published && s'.published
            && Lookup(s'.fs, cfg.target) == Lookup(s.fs, s.temporary.value.name)
            && (cfg.kind.Create? ==> cfg.target !in s.fs.names))
  {
    hide Step, ChecksPassed, OutcomeHonest;
    NamesFrame(cfg, s, choice);
    BytesFrame(cfg, s, choice);
    TargetFrame(cfg, s, choice);
  }

  /** Names other than the target's and the temporary file's keep their files. */
  ghost predicate OtherNamesKept(cfg: Config, s: State, s': State) {
    forall name | name != cfg.target && (s'.temporary.None? || name != s'.temporary.value.name) ::
      Lookup(s'.fs, name) == Lookup(s.fs, name)
  }

  lemma {:induction false} NamesFrame(cfg: Config, s: State, choice: Choice)
    requires TemporaryNamed(cfg, s)
    ensures OtherNamesKept(cfg, s, Step(cfg, s, choice))
  {
    hide Step, TemporaryNamed, OtherNamesKept;
    if Checking(s.phase) { CheckingNames(cfg, s, choice); } else { OtherNames(cfg, s, choice); }
  }

  lemma {:induction false} CheckingNames(cfg: Config, s: State, choice: Choice)
    requires TemporaryNamed(cfg, s) && Checking(s.phase)
    ensures OtherNamesKept(cfg, s, Step(cfg, s, choice))
  {
    hide WriteAt, ReadOn, TempName;
  }

  lemma {:induction false} OtherNames(cfg: Config, s: State, choice: Choice)
    requires TemporaryNamed(cfg, s) && !Checking(s.phase)
    ensures OtherNamesKept(cfg, s, Step(cfg, s, choice))
  {
    hide WriteAt, ReadOn, TempName;
  }

  lemma {:induction false} BytesFrame(cfg: Config, s: State, choice: Choice)
    requires TemporaryNamed(cfg, s)
    ensures var s' := Step(cfg, s, choice);
      forall ino | s'.temporary.None? || ino != s'.temporary.value.descriptor ::
          Content(s'.fs, ino) == Content(s.fs, ino)
  {
    hide WriteAt, ReadOn, TempName, Lookup;
  }

  lemma {:induction false} TargetFrame(cfg: Config, s: State, choice: Choice)
    requires TemporaryNamed(cfg, s) && OutcomeHonest(s)
    ensures var s' := Step(cfg, s, choice);
      Lookup(s'.fs, cfg.target) != Lookup(s.fs, cfg.target) ==>
        && s.phase.Publish? && !s.published && s'.published
        && Lookup(s'.fs, cfg.target) == Lookup(s.fs, s.temporary.value.name)
        && (cfg.kind.Create? ==> cfg.target !in s.fs.names)
  {
    hide WriteAt, ReadOn;
    if s.temporary.Some? {
      var suffix :| s.temporary.value.name == TempName(cfg.target, suffix);
      NameDiffers(cfg.target, suffix);
    }
    NameDiffers(cfg.target, choice.suffix);
  }

  lemma {:induction false} NextKeeps(cfg: Config, s: State, e: Event)
    requires Inv(cfg, s)
    ensures Inv(cfg, Next(cfg, s, e))
    ensures s.published ==> Next(cfg, s, e).published
  {
    hide Step;
    if e.Adapter? {
      StepKeepsTemporary(cfg, s, e.choice);
      StepKeepsChecks(cfg, s, e.choice);
      StepKeepsOutcome(cfg, s, e.choice);
    }
  }

  lemma {:induction false} RunPublishes(cfg: Config, s: State, events: seq<Event>)
    requires Inv(cfg, s)
    ensures Inv(cfg, Run(cfg, s, events))
    ensures Rebindings(cfg, s, events) <= (if s.published then 0 else 1)
    ensures Rebindings(cfg, s, events) > 0 || s.published ==> Run(cfg, s, events).published
    decreases |events|
  {
    hide Step, Inv;
    if events != [] {
      NextKeeps(cfg, s, events[0]);
      if events[0].Adapter? { StepFrame(cfg, s, events[0].choice); }
      RunPublishes(cfg, Next(cfg, s, events[0]), events[1..]);
    }
  }

  /** In every interleaving the adapter rebinds the target at most once, and a reported success
      means it did publish. */
  lemma {:induction false} PublishesAtMostOnce(cfg: Config, fs: FS, events: seq<Event>)
    ensures var end := Run(cfg, Start(fs), events);
      && Inv(cfg, end)
      && Rebindings(cfg, Start(fs), events) <= 1
      && (Rebindings(cfg, Start(fs), events) > 0 ==> end.published)
      && (end.phase == Done(Succeeded) ==> end.published)
  {
    hide Step, Run, Rebindings;
    RunPublishes(cfg, Start(fs), events);
    InvOutcome(cfg, Run(cfg, Start(fs), events));
  }

  lemma {:induction false} InvOutcome(cfg: Config, s: State)
    requires Inv(cfg, s)
    ensures s.phase == Done(Succeeded) ==> s.published
  {}

  /** A replace rebinds the target only after two reads with the expected digest and three
      checks that the target was still the file found first. */
  lemma {:induction false} ReplaceIsChecked(cfg: Config, s: State, choice: Choice)
    requires Inv(cfg, s) && cfg.kind.Replace?
    requires Lookup(Step(cfg, s, choice).fs, cfg.target) != Lookup(s.fs, cfg.target)
    ensures Matched(cfg, s.firstRead) && Matched(cfg, s.secondRead) && s.identityChecks >= 3
  {
    hide Step;
    StepFrame(cfg, s, choice);
  }
}
