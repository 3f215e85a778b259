/** What the write protocols guarantee under interference: what the adapter's own steps make
    visible at the target, and when a replace is a compare-and-swap. */
module WriteSafety {
  import opened Results
  import opened WriteProtocol

  // ---------------------------------------------------------------- never partial

  /** The environment keeps its hands off the adapter's temporary file. */
  predicate LeavesTemporary(s: State, fs: FS) {
    s.temporary.Some? ==>
      && Lookup(fs, s.temporary.value.name) == Lookup(s.fs, s.temporary.value.name)
      && Content(fs, s.temporary.value.descriptor) == Content(s.fs, s.temporary.value.descriptor)
  }

  /** It may do anything else, to the target included, between any two steps. */
  ghost predicate Gentle(cfg: Config, s: State, events: seq<Event>)
    decreases |events|
  {
    events == [] ||
    ((events[0].Environment? ==> LeavesTemporary(s, events[0].fs)) && Gentle(cfg, Next(cfg, s, events[0]), events[1..]))
  }

  predicate Written(p: Phase) { p.ChangeMode? || p.Revalidate? || Checking(p) }

  ghost predicate TemporaryWhole(cfg: Config, s: State) {
    (s.phase.IdentifyTemporary? || s.phase.WriteTemporary? || Written(s.phase)) ==>
      && s.temporary.Some?
      && var t := s.temporary.value;
         && Lookup(s.fs, t.name) == Some(t.descriptor)
         && (s.phase.IdentifyTemporary? ==> Content(s.fs, t.descriptor) == [])
         && (!s.phase.IdentifyTemporary? ==> t.identity == Some(t.descriptor))
         && (s.phase.WriteTemporary? ==>
               s.phase.written <= |cfg.raw| && Content(s.fs, t.descriptor) == cfg.raw[..s.phase.written])
         && (Written(s.phase) ==> Content(s.fs, t.descriptor) == cfg.raw)
  }

  lemma {:induction false} WriteExtends(raw: Bytes, at: nat, n: nat)
    requires at + n <= |raw|
    ensures WriteAt(raw[..at], at, raw[at..at + n]) == raw[..at + n]
  {}

  lemma {:induction false} StepKeepsWhole(cfg: Config, s: State, choice: Choice)
    requires TemporaryWhole(cfg, s)
    ensures TemporaryWhole(cfg, Step(cfg, s, choice))
  {
    hide Step, TemporaryWhole;
    if s.phase.MakeTemporary? || s.phase.IdentifyTemporary? {
      MakingKeepsWhole(cfg, s, choice);
    } else if s.phase.WriteTemporary? {
      WritingKeepsWhole(cfg, s, choice);
    } else if Written(s.phase) {
      WrittenKeepsWhole(cfg, s, choice);
    } else {
      OthersKeepWhole(cfg, s, choice);
    }
  }

  lemma {:induction false} MakingKeepsWhole(cfg: Config, s: State, choice: Choice)
    requires TemporaryWhole(cfg, s) && (s.phase.MakeTemporary? || s.phase.IdentifyTemporary?)
    ensures TemporaryWhole(cfg, Step(cfg, s, choice))
  {
    hide TempName;
  }

  lemma {:induction false} WritingKeepsWhole(cfg: Config, s: State, choice: Choice)
    requires TemporaryWhole(cfg, s) && s.phase.WriteTemporary?
    ensures TemporaryWhole(cfg, Step(cfg, s, choice))
  {
    hide WriteAt;
    var written := s.phase.written;
    if written < |cfg.raw| {
      WriteExtends(cfg.raw, written, WriteProtocol.Min(choice.amount, |cfg.raw| - written - 1) + 1);
    }
  }

  lemma {:induction false} WrittenKeepsWhole(cfg: Config, s: State, choice: Choice)
    requires TemporaryWhole(cfg, s) && Written(s.phase)
    ensures TemporaryWhole(cfg, Step(cfg, s, choice))
  {
    hide ReadOn, Renamed, Lookup, Content;
  }

  lemma {:induction false} OthersKeepWhole(cfg: Config, s: State, choice: Choice)
    requires !s.phase.MakeTemporary? && !s.phase.IdentifyTemporary? && !s.phase.WriteTemporary? && !Written(s.phase)
    ensures TemporaryWhole(cfg, Step(cfg, s, choice))
  {
    hide ReadOn, Unlinked;
  }

  // ---------------------------------------------------------------- what the target shows

  /** What the target holds after each step of the adapter that changes what it holds. */
  function TargetContents(cfg: Config, s: State, events: seq<Event>): seq<Option<Bytes>>
    decreases |events|
  {
    if events == [] then []
    else
      var s' := Next(cfg, s, events[0]);
      (if events[0].Adapter? && ContentAt(s'.fs, cfg.target) != ContentAt(s.fs, cfg.target)
       then [ContentAt(s'.fs, cfg.target)] else [])
      + TargetContents(cfg, s', events[1..])
  }

  /** The target is a link to the temporary file. */
  predicate Linked(cfg: Config, s: State) {
    s.temporary.Some? && Lookup(s.fs, cfg.target) == Some(s.temporary.value.descriptor)
  }

  /** A step that writes bytes into the temporary file. */
  predicate Writes(s: State, s': State) {
    s.phase.WriteTemporary? && s'.phase.WriteTemporary? && s.phase.written < s'.phase.written
  }

  /** The part of the bytes written by each write that reaches a linked target. */
  function LinkedWrites(cfg: Config, s: State, events: seq<Event>): seq<Option<Bytes>>
    decreases |events|
  {
    if events == [] then []
    else
      var s' := Next(cfg, s, events[0]);
      (if events[0].Adapter? && Linked(cfg, s) && Writes(s, s')
       then [Some(cfg.raw[..WriteProtocol.Min(s'.phase.written, |cfg.raw|)])] else [])
      + LinkedWrites(cfg, s', events[1..])
  }

  predicate PastWriting(p: Phase) { Written(p) || Finishing(p) || p.UnlinkFailedWrite? }

  /** A write changes what the target holds exactly when the target is a link to the temporary
      file, and then shows the part written so far. */
  lemma {:induction false} WriteShows(cfg: Config, s: State, choice: Choice)
    requires TemporaryWhole(cfg, s) && s.phase.WriteTemporary?
    ensures var s' := Step(cfg, s, choice);
      && (Linked(cfg, s) && Writes(s, s') ==>
            && s'.phase.written <= |cfg.raw|
            && ContentAt(s.fs, cfg.target) != ContentAt(s'.fs, cfg.target) == Some(cfg.raw[..s'.phase.written]))
      && (!(Linked(cfg, s) && Writes(s, s')) ==> ContentAt(s'.fs, cfg.target) == ContentAt(s.fs, cfg.target))
  {
    hide WriteAt;
    var written := s.phase.written;
    if written < |cfg.raw| {
      WriteExtends(cfg.raw, written, WriteProtocol.Min(choice.amount, |cfg.raw| - written - 1) + 1);
    }
  }

  /** Every other step keeps what the target holds, but for the one that publishes the bytes. */
  lemma {:induction false} OthersShow(cfg: Config, s: State, choice: Choice)
    requires Inv(cfg, s) && TemporaryWhole(cfg, s) && !s.phase.WriteTemporary?
    ensures var s' := Step(cfg, s, choice);
      ContentAt(s'.fs, cfg.target) != ContentAt(s.fs, cfg.target) ==>
        s.phase.Publish? && s'.published && ContentAt(s'.fs, cfg.target) == Some(cfg.raw)
  {
    hide Step, ChecksPassed, OutcomeHonest, TemporaryNamed;
    StepFrame(cfg, s, choice);
    if Lookup(Step(cfg, s, choice).fs, cfg.target) == Lookup(s.fs, cfg.target) {
      BytesKept(cfg, s, choice);
    } else {
      PublishesWhole(cfg, s, choice);
    }
  }

  lemma {:induction false} PublishesWhole(cfg: Config, s: State, choice: Choice)
    requires Inv(cfg, s) && TemporaryWhole(cfg, s)
    requires Lookup(Step(cfg, s, choice).fs, cfg.target) != Lookup(s.fs, cfg.target)
    ensures ContentAt(Step(cfg, s, choice).fs, cfg.target) == Some(cfg.raw)
  {
    StepFrame(cfg, s, choice);
  }

  lemma {:induction false} BytesKept(cfg: Config, s: State, choice: Choice)
    requires !s.phase.WriteTemporary? && TemporaryNamed(cfg, s)
    requires Lookup(Step(cfg, s, choice).fs, cfg.target) == Lookup(s.fs, cfg.target)
    ensures ContentAt(Step(cfg, s, choice).fs, cfg.target) == ContentAt(s.fs, cfg.target)
  {
    hide ReadOn, WriteAt, TempName;
  }

  lemma {:induction false} PhasesPass(cfg: Config, s: State, choice: Choice)
    ensures var s' := Step(cfg, s, choice);
      && (PastWriting(s.phase) ==> PastWriting(s'.phase) && !Writes(s, s'))
      && (Finishing(s.phase) ==> Finishing(s'.phase))
      && (s.phase.Publish? ==> Finishing(s'.phase))
      && (!s.phase.WriteTemporary? ==> !Writes(s, s'))
  {
    hide ReadOn, WriteAt, TempName, Renamed, Unlinked;
  }

  /** Once the bytes are written the target changes at most once more, to all of them. */
  lemma {:induction false} AfterWriting(cfg: Config, s: State, events: seq<Event>)
    requires Inv(cfg, s) && TemporaryWhole(cfg, s) && Gentle(cfg, s, events) && PastWriting(s.phase)
    ensures LinkedWrites(cfg, s, events) == []
    ensures TargetContents(cfg, s, events) == [] ||
        (TargetContents(cfg, s, events) == [Some(cfg.raw)] && !Finishing(s.phase))
    decreases |events|
  {
    hide Step, Inv, TemporaryWhole, LeavesTemporary;
    if events != [] {
      WholeEvent(cfg, s, events);
      if events[0].Adapter? {
        PhasesPass(cfg, s, events[0].choice);
        OthersShow(cfg, s, events[0].choice);
      }
      AfterWriting(cfg, Next(cfg, s, events[0]), events[1..]);
    }
  }

  lemma {:induction false} WholeEvent(cfg: Config, s: State, events: seq<Event>)
    requires Inv(cfg, s) && TemporaryWhole(cfg, s) && Gentle(cfg, s, events) && events != []
    ensures Inv(cfg, Next(cfg, s, events[0])) && TemporaryWhole(cfg, Next(cfg, s, events[0]))
  {
    hide Step, Inv, TemporaryWhole;
    NextKeeps(cfg, s, events[0]);
    if events[0].Adapter? { StepKeepsWhole(cfg, s, events[0].choice); } else { GentleKeepsWhole(cfg, s, events[0].fs); }
  }

  lemma {:induction false} WholeRun(cfg: Config, s: State, events: seq<Event>)
    requires Inv(cfg, s) && TemporaryWhole(cfg, s) && Gentle(cfg, s, events)
    ensures var shown, linked := TargetContents(cfg, s, events), LinkedWrites(cfg, s, events);
      shown == linked || shown == linked + [Some(cfg.raw)]
    decreases |events|
  {
    hide Step, Inv, TemporaryWhole, LeavesTemporary;
    if PastWriting(s.phase) {
      AfterWriting(cfg, s, events);
    } else if events != [] {
      var s' := Next(cfg, s, events[0]);
      WholeEvent(cfg, s, events);
      WholeRun(cfg, s', events[1..]);
      if events[0].Adapter? {
        PhasesPass(cfg, s, events[0].choice);
        if s.phase.WriteTemporary? { WriteShows(cfg, s, events[0].choice); } else {
          OthersShow(cfg, s, events[0].choice);
        }
      }
      var rest := TargetContents(cfg, s', events[1..]);
      var linked := LinkedWrites(cfg, s', events[1..]);
      assert forall x :: [x] + (linked + [Some(cfg.raw)]) == ([x] + linked) + [Some(cfg.raw)];
    }
  }

  /** Exactly what the adapter shows at the target when the environment leaves the temporary file
      alone: the part written by each write through a link, and at most once, at the end, all the
      bytes. So it shows something partial exactly when it writes through a link before it has
      written everything. */
  lemma {:induction false} PartialOnlyThroughLink(cfg: Config, fs: FS, events: seq<Event>)
    requires Gentle(cfg, Start(fs), events)
    ensures var shown, linked := TargetContents(cfg, Start(fs), events), LinkedWrites(cfg, Start(fs), events);
      && (shown == linked || shown == linked + [Some(cfg.raw)])
      && ((exists c :: c in shown && c != Some(cfg.raw)) <==> (exists c :: c in linked && c != Some(cfg.raw)))
  {
    hide Step, TargetContents, LinkedWrites, Gentle;
    WholeRun(cfg, Start(fs), events);
    var linked := LinkedWrites(cfg, Start(fs), events);
    assert forall c :: c in linked + [Some(cfg.raw)] <==> c in linked || c == Some(cfg.raw);
  }

  /** While the temporary file is being written the target is not a link to it. */
  predicate NotLinked(cfg: Config, s: State) {
    s.phase.IdentifyTemporary? || s.phase.WriteTemporary? ==> !Linked(cfg, s)
  }

  /** No step of the environment makes the target a link to the temporary file while it is being
      written. */
  ghost predicate NeverLinks(cfg: Config, s: State, events: seq<Event>)
    decreases |events|
  {
    events == [] ||
    (&& (events[0].Environment? ==> NotLinked(cfg, s.(fs := events[0].fs)))
     && NeverLinks(cfg, Next(cfg, s, events[0]), events[1..]))
  }

  lemma {:induction false} StepKeepsNotLinked(cfg: Config, s: State, choice: Choice)
    requires TemporaryNamed(cfg, s) && NotLinked(cfg, s)
    ensures NotLinked(cfg, Step(cfg, s, choice))
  {
    hide Step, TemporaryNamed, NotLinked;
    if s.phase.MakeTemporary? || s.phase.IdentifyTemporary? || s.phase.WriteTemporary? {
      WritingNotLinked(cfg, s, choice);
    } else {
      OthersNotLinked(cfg, s, choice);
    }
  }

  lemma {:induction false} WritingNotLinked(cfg: Config, s: State, choice: Choice)
    requires TemporaryNamed(cfg, s) && NotLinked(cfg, s)
    requires s.phase.MakeTemporary? || s.phase.IdentifyTemporary? || s.phase.WriteTemporary?
    ensures NotLinked(cfg, Step(cfg, s, choice))
  {
    hide WriteAt;
    NameDiffers(cfg.target, choice.suffix);
  }

  lemma {:induction false} OthersNotLinked(cfg: Config, s: State, choice: Choice)
    requires !s.phase.MakeTemporary? && !s.phase.IdentifyTemporary? && !s.phase.WriteTemporary?
    ensures NotLinked(cfg, Step(cfg, s, choice))
  {
    hide ReadOn, Linked, Renamed, WriteProtocol.Unlinked, Lookup;
  }

  lemma {:induction false} NoLinkedWrites(cfg: Config, s: State, events: seq<Event>)
    requires Inv(cfg, s) && NotLinked(cfg, s) && NeverLinks(cfg, s, events)
    ensures LinkedWrites(cfg, s, events) == []
    decreases |events|
  {
    hide Step, ChecksPassed, OutcomeHonest, TemporaryNamed, Linked;
    if events != [] {
      NextKeeps(cfg, s, events[0]);
      if events[0].Adapter? { StepKeepsNotLinked(cfg, s, events[0].choice); }
      NoLinkedWrites(cfg, Next(cfg, s, events[0]), events[1..]);
    }
  }

  /** Without a link a step changes what the target holds only by publishing, and then to what the
      temporary file's name holds. */
  lemma {:induction false} UnlinkedShows(cfg: Config, s: State, choice: Choice)
    requires Inv(cfg, s) && NotLinked(cfg, s)
    ensures var s' := Step(cfg, s, choice);
      ContentAt(s'.fs, cfg.target) != ContentAt(s.fs, cfg.target) ==>
        && s.phase.Publish? && Finishing(s'.phase)
        && ContentAt(s'.fs, cfg.target) == ContentAt(s.fs, TempIs(s).name)
  {
    hide Step, Inv, TemporaryNamed, ChecksPassed, OutcomeHonest;
    if s.phase.WriteTemporary? {
      UnlinkedWriteShows(cfg, s, choice);
    } else {
      assert TemporaryNamed(cfg, s) by { InvParts(cfg, s); }
      PhasesPass(cfg, s, choice);
      StepFrame(cfg, s, choice);
      if Lookup(Step(cfg, s, choice).fs, cfg.target) == Lookup(s.fs, cfg.target) {
        BytesKept(cfg, s, choice);
      } else {
        PublishedShows(cfg, s, choice);
      }
    }
  }

  lemma {:induction false} InvParts(cfg: Config, s: State)
    requires Inv(cfg, s)
    ensures TemporaryNamed(cfg, s) && (s.phase.WriteTemporary? || s.phase.Publish? ==> s.temporary.Some?)
  {}

  lemma {:induction false} UnlinkedWriteShows(cfg: Config, s: State, choice: Choice)
    requires Inv(cfg, s) && NotLinked(cfg, s) && s.phase.WriteTemporary?
    ensures ContentAt(Step(cfg, s, choice).fs, cfg.target) == ContentAt(s.fs, cfg.target)
  {
    hide WriteAt, ChecksPassed, OutcomeHonest;
  }

  lemma {:induction false} PublishedShows(cfg: Config, s: State, choice: Choice)
    requires Inv(cfg, s) && s.phase.Publish?
    requires Lookup(Step(cfg, s, choice).fs, cfg.target) != Lookup(s.fs, cfg.target)
    ensures ContentAt(Step(cfg, s, choice).fs, cfg.target) == ContentAt(s.fs, TempIs(s).name)
  {
    hide ChecksPassed, OutcomeHonest;
  }

  lemma {:induction false} FinishedShowsNothing(cfg: Config, s: State, events: seq<Event>)
    requires Inv(cfg, s) && Finishing(s.phase)
    ensures TargetContents(cfg, s, events) == []
    decreases |events|
  {
    hide Step, Inv;
    if events != [] {
      NextKeeps(cfg, s, events[0]);
      if events[0].Adapter? {
        assert NotLinked(cfg, s);
        PhasesPass(cfg, s, events[0].choice);
        UnlinkedShows(cfg, s, events[0].choice);
      }
      FinishedShowsNothing(cfg, Next(cfg, s, events[0]), events[1..]);
    }
  }

  /** The target changes once, at event `k`, which publishes what the temporary file's name holds
      then. */
  ghost predicate ChangesAt(cfg: Config, s: State, events: seq<Event>, k: nat) {
    && k < |events| && events[k].Adapter?
    && var publishing := Run(cfg, s, events[..k]);
       && publishing.phase.Publish?
       && TargetContents(cfg, s, events) == [ContentAt(publishing.fs, TempIs(publishing).name)]
  }

  lemma {:induction false} ChangesOnceFrom(cfg: Config, s: State, events: seq<Event>)
    requires Inv(cfg, s) && NotLinked(cfg, s) && NeverLinks(cfg, s, events)
    ensures TargetContents(cfg, s, events) == [] || exists k: nat :: ChangesAt(cfg, s, events, k)
    decreases |events|
  {
    hide Step, Inv, NotLinked;
    if events != [] {
      var s' := Next(cfg, s, events[0]);
      NextKeeps(cfg, s, events[0]);
      if events[0].Adapter? {
        assert TemporaryNamed(cfg, s) by { InvParts(cfg, s); }
        StepKeepsNotLinked(cfg, s, events[0].choice);
        UnlinkedShows(cfg, s, events[0].choice);
      }
      if events[0].Adapter? && ContentAt(s'.fs, cfg.target) != ContentAt(s.fs, cfg.target) {
        FinishedShowsNothing(cfg, s', events[1..]);
        assert ChangesAt(cfg, s, events, 0);
      } else {
        ChangesOnceFrom(cfg, s', events[1..]);
        if k: nat :| ChangesAt(cfg, s', events[1..], k) {
          assert events[..k + 1][0] == events[0] && events[..k + 1][1..] == events[1..][..k];
          assert ChangesAt(cfg, s, events, k + 1);
        }
      }
    }
  }

  /** In every interleaving, whatever happens to the temporary file: while the environment does not
      link the target to it, the adapter changes what the target holds at most once, in the step
      that publishes, to what the temporary file's name then holds. */
  lemma {:induction false} ChangesOnce(cfg: Config, fs: FS, events: seq<Event>)
    requires NeverLinks(cfg, Start(fs), events)
    ensures TargetContents(cfg, Start(fs), events) == [] || exists k: nat :: ChangesAt(cfg, Start(fs), events, k)
    ensures |TargetContents(cfg, Start(fs), events)| <= 1
  {
    hide Step, TargetContents, NeverLinks;
    ChangesOnceFrom(cfg, Start(fs), events);
  }

  /** If it leaves the temporary file alone as well, that one change is to exactly the requested
      bytes. */
  lemma {:induction false} NeverPartial(cfg: Config, fs: FS, events: seq<Event>)
    requires Gentle(cfg, Start(fs), events) && NeverLinks(cfg, Start(fs), events)
    ensures TargetContents(cfg, Start(fs), events) == [] || TargetContents(cfg, Start(fs), events) == [Some(cfg.raw)]
  {
    hide Step, TargetContents, LinkedWrites, Gentle, NeverLinks;
    WholeRun(cfg, Start(fs), events);
    NoLinkedWrites(cfg, Start(fs), events);
  }

  lemma {:induction false} GentleKeepsWhole(cfg: Config, s: State, fs: FS)
    requires TemporaryWhole(cfg, s) && LeavesTemporary(s, fs)
    ensures TemporaryWhole(cfg, s.(fs := fs))
  {}

  predicate Calmly(choice: Choice) { !choice.fails && choice.boundary.None? && choice.sameTarget }

  /** A step without failures; it writes one byte at a time and takes file 0. */
  const OK := Choice(false, None, true, "", 0, 0)

  /** Linking the target to the temporary file shows a part: a create of two bytes or more in an
      empty directory, with the target linked after the temporary file is made, leaves the first
      byte alone at the target after its next write. */
  lemma {:induction false} LinkedTargetIsPartial(target: string, raw: Bytes, sha256: Bytes -> string)
    requires |raw| >= 2
    ensures var cfg := Config(target, raw, Create, sha256);
      var start := Start(FS(map[], map[]));
      var linked := FS(map[TempName(target, "") := 0, target := 0], map[0 := []]);
      var events := [Adapter(OK), Adapter(OK), Adapter(OK), Environment(linked), Adapter(OK)];
      && Gentle(cfg, start, events)
      && TargetContents(cfg, start, events) == [Some(raw[..1])]
      && ContentAt(Run(cfg, start, events).fs, target) == Some(raw[..1]) != Some(raw)
  {
    var cfg := Config(target, raw, Create, sha256);
    var name := TempName(target, "");
    NameDiffers(target, "");
    var linked := FS(map[name := 0, target := 0], map[0 := []]);
    var s0 := Start(FS(map[], map[]));
    var s1 := Next(cfg, s0, Adapter(OK));
    var s2 := Next(cfg, s1, Adapter(OK));
    assert s2.fs == FS(map[name := 0], map[0 := []]);
    var s3 := Next(cfg, s2, Adapter(OK));
    var s4 := Next(cfg, s3, Environment(linked));
    assert WriteAt([], 0, raw[..1]) == raw[..1];
    var s5 := Next(cfg, s4, Adapter(OK));
    assert raw[0..1] == raw[..1];
    assert s5.fs.data[0] == raw[..1];
    EventStep(cfg, s4, Adapter(OK), []);
    EventStep(cfg, s3, Environment(linked), [Adapter(OK)]);
    EventStep(cfg, s2, Adapter(OK), [Environment(linked), Adapter(OK)]);
    EventStep(cfg, s1, Adapter(OK), [Adapter(OK), Environment(linked), Adapter(OK)]);
    EventStep(cfg, s0, Adapter(OK), [Adapter(OK), Adapter(OK), Environment(linked), Adapter(OK)]);
  }

  /** Unfolding a run by one event. */
  lemma {:induction false} EventStep(cfg: Config, s: State, e: Event, rest: seq<Event>)
    ensures var s' := Next(cfg, s, e);
      && Run(cfg, s, [e] + rest) == Run(cfg, s', rest)
      && (Gentle(cfg, s, [e] + rest) <==> (e.Environment? ==> LeavesTemporary(s, e.fs)) && Gentle(cfg, s', rest))
      && TargetContents(cfg, s, [e] + rest) ==
           (if e.Adapter? && ContentAt(s'.fs, cfg.target) != ContentAt(s.fs, cfg.target)
            then [ContentAt(s'.fs, cfg.target)] else []) + TargetContents(cfg, s', rest)
  {
    hide Step;
    assert ([e] + rest)[1..] == rest;
  }

  // ---------------------------------------------------------------- replace as compare-and-swap

  /** The target holds bytes with the expected digest. */
  predicate ExpectedAt(cfg: Config, fs: FS) { Matched(cfg, ContentAt(fs, cfg.target)) }

  /** The state of an uninterrupted second check that began in `fs`. */
  ghost predicate QuietCheck(cfg: Config, fs: FS, s: State) {
    if s.published then ExpectedAt(cfg, fs)
    else if !Checking(s.phase) then Finishing(s.phase)
    else
      && s.fs == fs
      && (s.phase.ReadSecond? ==>
          Lookup(fs, cfg.target) == Some(s.phase.second) && s.phase.secondPart <= Content(fs, s.phase.second))
      && (s.phase.RecheckSecond? || s.phase.CheckTemporary? || s.phase.Publish? ==> ExpectedAt(cfg, fs))
  }

  lemma {:induction false} ReadOnPrefix(content: Bytes, part: Bytes)
    requires part <= content
    ensures ReadOn(content, part) <= content
    ensures |part| >= |content| ==> part == content
  {}

  lemma {:induction false} QuietStep(cfg: Config, fs: FS, s: State, choice: Choice)
    requires cfg.kind.Replace? && QuietCheck(cfg, fs, s)
    ensures QuietCheck(cfg, fs, Step(cfg, s, choice))
  {
    hide TempName, Renamed, Unlinked, WriteAt, ReadOn;
    if !s.published && s.phase.ReadSecond? { ReadOnPrefix(Content(fs, s.phase.second), s.phase.secondPart); }
  }

  lemma {:induction false} QuietRun(cfg: Config, fs: FS, s: State, events: seq<Event>)
    requires cfg.kind.Replace? && QuietCheck(cfg, fs, s)
    requires forall e | e in events :: e.Adapter?
    ensures Run(cfg, s, events).published ==> ExpectedAt(cfg, fs)
    decreases |events|
  {
    hide Step;
    if events != [] {
      QuietStep(cfg, fs, s, events[0].choice);
      QuietRun(cfg, fs, Next(cfg, s, events[0]), events[1..]);
    }
  }

  /** Without interference from the second identity check on, a replace is an exact
      compare-and-swap, whatever happened before: it publishes only over bytes with the expected
      digest. */
  lemma {:induction false} QuietCheckIsExact(cfg: Config, fs: FS, before: seq<Event>, after: seq<Event>)
    requires cfg.kind.Replace? && Run(cfg, Start(fs), before).phase.IdentifyCurrent?
    requires forall e | e in after :: e.Adapter?
    ensures var s := Run(cfg, Start(fs), before);
      Run(cfg, s, after).published ==> ExpectedAt(cfg, s.fs)
  {
    hide Step, Run;
    var s := Run(cfg, Start(fs), before);
    PublishesAtMostOnce(cfg, fs, before);
    QuietRun(cfg, s.fs, s, after);
  }
}
