# O-AI verification model

A Dafny model of the parts of O-AI in which several functions, two implementations or a
whole run have to fit together, and proofs that they do. Every `.dfy` file is one module;
`dafny verify dfyconfig.toml` checks them all.

**The benchmark pipeline, D138.** `BenchmarkContracts` holds cases, trial observations and
route bindings with the checks of their constructors. `TurnEvidence` turns the evidence of one
turn into an observation. `LiveExecutor` is the one-shot executor, an object with the source's
three fields, specified by step functions over which all runs are considered; `LiveRun` drives
it over 48 cases of 3 trials. `BenchmarkScoring`, `OrderStatistics`, `OperatingSummaries`,
`RouteGrouping` and `LaneCompleteness` fold observations into scores, summaries, routes and a
decision; `ScoringFacts` says what the scores count. `CanonicalJson` is the canonical text with a
reader that inverts it, `PythonEquality` the comparison of decoded values.

**Governance, D139.** `GovernanceContracts` holds the normalising constructors. `RunEvidence`
recomputes a run from its stored JSON trials; `EvidenceFacts` says what it reads from trials of any
kind. `StoredTrials`, `Regeneration` and `RegenerationTheorem` prove that this second implementation
agrees with the first, and `EvidenceIntegrity` what its agreement proves. `Comparator` is the
comparator, `VerdictTheorems` and `VerdictFacts` say what its verdicts mean, `DeltaFingerprints` what
an envelope of fingerprints approves, and `MeasuredRun` joins the whole chain from a returned run to
an accepted baseline.

**Bounded input and output.** `WriteProtocol` is the create and replace protocol as a state
machine, one step per system call, with an environment that may change the directory in any
way between two steps; `WriteSafety`, `WriteChecks`, `ReplaceInterference` and `UndisturbedWrite`
hold its guarantees. `DirectoryListing` is the two-pass listing and `MimeWalk` the stack walk over a
MIME tree.

**Contracts stated twice.** `UsageAccounting` compares a Python validator with SQL CHECK
constraints in three-valued logic (`ThreeValuedLogic`). `ExperienceLifecycle` holds the tables
guarded by triggers.

`Results`, `Ordering` and `Sequences` are shared: optional values, Python's `sorted`,
comprehensions and counters.

## Reading the model

- A raised exception is `Raise(code)` with the source's code; a Python built-in exception is
  its class name. `Result.Ok` is a returned value.
- SHA-256, `str` of containers, the text of a float, case folding, base64 and UTF-8 decoding,
  `trim`, the turn port, the clock, the cue matching of observable properties and the path boundary
  are parameters. Nothing is assumed of the hash except injectivity where a lemma asks for it, and
  of the text of a float only, in one place, that it tells halves apart
  (`DeltaFingerprints.HalvesHaveTexts` gives such a text).
- Rates and medians are exact; a median is held as Python holds it, an integer or a float. The
  0.95 rank is ceil(19n/20); with Python's floats `ceil(0.95 * n)` is the same number for every n
  below 2^46.
- A loop that updates variables in the source is a method here, proved equal to a function
  about which the lemmas speak.
- Trials, like all decoded JSON objects, are lists of fields; a trial decoded by Python has no
  repeated key, and where that matters it is a hypothesis.

## What the proofs found

- While the environment does not link the target to the temporary file, the adapter changes what the
  target holds at most once, whatever else happens (`WriteSafety.ChangesOnce`). With the temporary
  file left alone, bytes reach the target before they are complete exactly when such a link is
  there while they are written (`WriteSafety.PartialOnlyThroughLink`, with a run in
  `LinkedTargetIsPartial`).
- The digest of a replace is taken from the file opened by name, the identity from the name. One read
  of the right file is enough: if the first or the second read opened the file found first and that
  file is not written in place from then on, the replace overwrites expected bytes
  (`ReplaceInterference.FirstReadSuffices`, `SecondReadSuffices`). A write in place after the second
  read is overwritten unseen (`ReplaceInterference.InPlaceWriteIsLost`). With files that are never
  written in place some run overwrites unexpected bytes exactly when the target does not hold the
  expected bytes and such bytes exist (`ReplaceInterference.DefeatIsExact`); it swaps both reads by
  renames (`ReplaceInterference.BothReadsSwapped`). Without interference from the second identity
  check on, the replace is an exact compare-and-swap (`WriteSafety.QuietCheckIsExact`).
- Approving one of two duration changes withdraws a pass (`DeltaFingerprints.ApprovalIsNotMonotone`).
  With only durations moved an approval passes exactly when it lists all of them or none
  (`DeltaFingerprints.ApprovalIsAllOrNothing`); `WideningAnEnvelope` says when a pass survives a
  wider envelope.
- `statistics.median` gives the integer 5 for one duration of 5 and the float 5.0 for two. The
  comparator takes them for equal, a fingerprint does not, so the approval of a median change does
  not cover the same change between runs with another parity of durations
  (`DeltaFingerprints.ParityHidesApproval`; `MedianChangeFingerprints` says exactly when it does).
- A decision event with a NULL source state passes the transition CHECK, which is then unknown
  (`ExperienceLifecycle.NullSourceStateIsStored`); `DecisionExact` says exactly what the CHECK asks.
- With 200 files and directories a listing fails when an allowed special file comes after the
  last of them (`DirectoryListing.SpecialFileOverflows`).
- When evaluation or the observation constructor raises, the executor itself does not abort
  (`LiveExecutor.SendEffect` says exactly when it does, `LiveExecutor.RefusalLeavesRunActive`
  names inputs); the runner's handler aborts it (`LiveRun.OneShotRun`).

## Model

| member | source | states |
|---|---|---|
| `CanonicalJson.CanonicalRoundTrip` | backend/benchmarks/d138_contracts.py:201-226 | reading the canonical text gives the value back with its keys sorted, for every JSON value without floats |
| `CanonicalJson.CanonicalTextDecidesEquality` | backend/benchmarks/d138_contracts.py:201-226 | two values have the same canonical text exactly when they are equal up to key order |
| `CanonicalJson.CanonicalTextAscends` | backend/benchmarks/d138_contracts.py:220-226 | the canonical text reads as an equal value whose keys ascend at every level |
| `CanonicalJson.DigestDecidesEquality` | backend/benchmarks/d138_contracts.py:229-230 | with an injective hash, equal digests mean equal values, and conversely |
| `CanonicalJson.EscapeIsShortest` | backend/benchmarks/d138_contracts.py:220-226 | in a printed text each character is written as the shortest text that reads back as it, with lower-case hexadecimal digits |
| `PythonEquality.PythonEqualExact` | backend/benchmarks/d139_evidence.py:124-126 | the comparison of two decoded values without repeated keys is true exactly when they have the same shape, equal texts, and numbers and booleans equal as numbers |
| `Ordering.StrLeqExactly` | backend/benchmarks/d138_scoring.py:206-217 | texts are ordered by the first place where they differ, and a text before every longer one it begins |
| `BenchmarkContracts.IdentifierSpelled` | backend/benchmarks/d138_contracts.py:56-59 | an identifier is a letter or digit followed by letters, digits and four punctuation marks, up to its limit |
| `BenchmarkContracts.PropertyNameSpelled` | backend/benchmarks/d138_contracts.py:56-59 | a property name is a lower-case letter followed by lower-case letters, digits and underscores, up to 96 characters |
| `BenchmarkContracts.DigestSpelled` | backend/benchmarks/d138_contracts.py:56-59 | a digest is 64 lower-case hexadecimal digits |
| `BenchmarkContracts.ObservationAccepted` | backend/benchmarks/d138_contracts.py:341-443 | exactly which observations the constructor accepts, by formats, ranges, binding and repeated names; it changes nothing but the order of results and gates |
| `BenchmarkContracts.ConstructedIsValid` | backend/benchmarks/d138_contracts.py:341-443 | what the observation constructor returns passes it again unchanged |
| `BenchmarkContracts.ValidObservationBinding` | backend/benchmarks/d138_contracts.py:419-442 | in a constructed observation the binding fields are present exactly when something was invoked |
| `BenchmarkContracts.SortKeyInjective` | backend/benchmarks/d138_scoring.py:206-217 | the route sort key determines the route, because no profile is the empty text |
| `BenchmarkContracts.ManifestAcceptsExactly` | backend/benchmarks/d138_contracts.py:624-643 | a manifest accepts exactly nonempty lists of different bindings in ascending order |
| `TurnEvidence.GatesAreViolations` | backend/benchmarks/d138_evaluator.py:381-403 | each violated check raises its own hard gate and nothing else does; contamination reported twice counts once (backend/benchmarks/d138_live_executor.py:743-745) |
| `TurnEvidence.GatesNamed` | backend/benchmarks/d138_evaluator.py:381-403 | each of the eight gates by name with the one check that raises it |
| `TurnEvidence.CallAborts` | backend/benchmarks/d138_live_executor.py:687-733 | a call aborts exactly on evidence whose status is not the one its terminal state and disposition give, whose first binding is of another task kind, or whose bindings differ in adapter, model, profile or task kind |
| `TurnEvidence.MadeRecordsTurn` | backend/benchmarks/d138_live_executor.py:671-770 | every field of a returned observation, by the outcome and its first binding, or for a turn without an outcome |
| `TurnEvidence.MadeReportsJudgement` | backend/benchmarks/d138_live_executor.py:735-761 | the reported results are those the judge gives each property of the case on the recorded facts of the turn |
| `TurnEvidence.EvaluatedNames` | backend/benchmarks/d138_evaluator.py:356-379 | the evaluated properties are those of the case, each once |
| `TurnEvidence.BindingChecksNeverFire` | backend/benchmarks/d138_live_executor.py:674-738 | for every valid outcome the assembled observation passes the binding and count checks |
| `TurnEvidence.MadeReportsCase` | backend/benchmarks/d138_live_executor.py:741-770 | an observation the executor returns is valid and reports exactly the properties of its case |
| `TurnEvidence.ExecutorOutputFits` | backend/app/contracts/cognitive_executive.py:323-415 | with valid evidence in benchmark form the executor aborts exactly when the evidence is not of one piece, and else returns a valid observation of the case; no later check raises |
| `LiveExecutor.TrialIdInjective` | backend/benchmarks/d138_live_executor.py:646 | the trial id determines case and index |
| `LiveExecutor.SendEffect` | backend/benchmarks/d138_live_executor.py:646-770 | a returned trial was sent now, once, is of its case and leaves the run active; one that raises leaves the run active exactly when it was new and the port returned evidence of one piece |
| `LiveExecutor.CallEffect` | backend/benchmarks/d138_live_executor.py:628-770 | one call by its arguments: out of order it changes nothing; a trial sent before aborts; a new one is registered, and the run stays active exactly on evidence of one piece |
| `LiveExecutor.OperationEffect` | backend/benchmarks/d138_live_executor.py:617-666 | the state after a call, an abort or a completion, by the arguments and the state before |
| `LiveExecutor.ContextExactly` | backend/benchmarks/d138_live_executor.py:628-645 | the context a call accepts is the canonical text of exactly the fixture pairs that may be shown, in order, with every key known and some shown |
| `LiveExecutor.RefusalLeavesRunActive` | backend/benchmarks/d138_live_executor.py:730-770 | an unknown property or a context of no tokens raises without aborting; the trial is spent, and sending it again aborts the run |
| `LiveExecutor.RunSafe` | backend/benchmarks/d138_live_executor.py:617-666 | in every run from a safe state sent ids stay distinct and equal the seen set, aborted and complete exclude each other, and both are final |
| `LiveExecutor.ExecutorRuns` | backend/benchmarks/d138_live_executor.py:617-666 | over every sequence of calls, aborts and completions each trial reaches the port at most once, and a completed run sent exactly 144 |
| `LiveExecutor.D138LiveExecutor.CallTrial` | backend/benchmarks/d138_live_executor.py:628-770 | one call moves the object to the state, and returns the result, of the call step |
| `LiveExecutor.D138LiveExecutor.AbortRun` | backend/benchmarks/d138_live_executor.py:617-619 | abort has no effect on a completed run |
| `LiveExecutor.D138LiveExecutor.CompleteRun` | backend/benchmarks/d138_live_executor.py:621-626 | complete succeeds exactly on an unaborted run that saw 144 ids |
| `LiveRun.RunTrial` | backend/benchmarks/d138_runner.py:249-263 | the body of the inner loop |
| `LiveRun.RunLiveEvaluation` | backend/benchmarks/d138_runner.py:240-275 | the runner moves the executor as the run function says |
| `LiveRun.OfficialCasesExactly` | backend/benchmarks/d138_runner.py:227-237 | the official cases are the live-eligible evaluation cases in their order, and anything but 48 of them raises |
| `LiveRun.OneShotRun` | backend/benchmarks/d138_runner.py:240-275 | from a fresh executor: 144 observations of the official cases in order T1 to T3, every id sent exactly once, executor completed; or a raise, executor aborted |
| `LiveRun.ReturnedRunIsRecorded` | backend/benchmarks/d138_live_executor.py:628-770 | in a returned run each observation is what the executor makes of the port's reply to one request, which names run, case, trial and task kind and shows only the owner's request and the model-facing fixture |
| `RunCompleteness.RunCountsOf` | backend/benchmarks/d138_runner.py:246-263 | a run of n cases has 3n distinct trial ids and n distinct case ids |
| `RunCompleteness.LaneIsRun` | backend/benchmarks/d138_scoring.py:230-233 | the lane of a task kind is itself a run of the cases of that kind |
| `RunCompleteness.ReturnedRunCounts` | backend/benchmarks/d138_scoring.py:220-263 | a returned run over 24 cases per task kind meets every counting condition; it is complete exactly when no trial was without a route and each task kind has invoked trials, all on one adapter, model and profile |
| `BenchmarkScoring.PassedBounded` | backend/benchmarks/d138_scoring.py:54-60 | passed never exceeds applicable, and is full exactly when every required property is true and every forbidden one false |
| `BenchmarkScoring.ScoreCase` | backend/benchmarks/d138_scoring.py:38-67 | the two counting loops give the score or the first error |
| `BenchmarkScoring.ScoreDimensions` | backend/benchmarks/d138_scoring.py:70-105 | the accumulating loops give the dimension table or the first error |
| `BenchmarkScoring.ScoreConservation` | backend/benchmarks/d138_scoring.py:80-105 | the twelve dimension totals add up to the totals of all in-split observations |
| `BenchmarkScoring.PerfectRate` | backend/benchmarks/d138_contracts.py:286-297 | a dimension's rate is 1 exactly when all its observations got every property right |
| `ScoringFacts.ScoreByFacts` | backend/benchmarks/d138_scoring.py:38-67 | the score counts the required properties observed true and the forbidden ones observed false out of all; it is given exactly for a trial of the case with results for exactly its properties |
| `ScoringFacts.DimensionsByFacts` | backend/benchmarks/d138_scoring.py:70-105 | the table is returned exactly when case identifiers are unique in the split, every observation of its cases can be scored and every dimension has something to score; each entry adds up the observations of cases of that dimension |
| `OrderStatistics.NearestRankCharacterised` | backend/benchmarks/d138_scoring.py:125-130 | the nearest-rank value is the one member with at least 95% at or below it and fewer than 95% strictly below |
| `OrderStatistics.OddMedianCharacterised` | backend/benchmarks/d138_scoring.py:167 | the median of an odd number of values is the one member with fewer than half strictly below it and more than half at or below it |
| `OrderStatistics.EvenMedianCharacterised` | backend/benchmarks/d138_scoring.py:167 | the median of an even number of values is the mean of its two middle members, each described by the numbers of values below it |
| `OrderStatistics.LowerMedianCharacterised` | backend/benchmarks/d138_runner.py:321-326 | the lower median is the one member with fewer than half strictly below it and at least half at or below it |
| `OrderStatistics.StatisticsOrdered` | backend/benchmarks/d138_scoring.py:160-170 | min, median, p95 and max are in order for every nonempty list, and the lower median never exceeds the median (backend/benchmarks/d138_runner.py:324-326) |
| `OrderStatistics.StatisticsPermutationInvariant` | backend/benchmarks/d138_scoring.py:125-170 | every statistic forgets the order of its list |
| `OperatingSummaries.SummaryOrderIndependent` | backend/benchmarks/d138_scoring.py:133-170 | the summary forgets the order of the observations |
| `OperatingSummaries.ItemsConserve` | backend/benchmarks/d138_scoring.py:148-155 | the counts of a distribution add up to the values counted |
| `OperatingSummaries.SummaryConserves` | backend/benchmarks/d138_scoring.py:133-170 | the five status counts and the terminal distribution each account for every trial; durations are missing exactly when every trial was unavailable |
| `RouteGrouping.GroupRoutes` | backend/benchmarks/d138_scoring.py:173-217 | the dictionary-of-lists loop gives the sorted bindings or the first error |
| `RouteGrouping.CollectGroups` | backend/benchmarks/d138_scoring.py:179-193 | the grouping loop holds one group per route, as long as the route was invoked often |
| `RouteGrouping.RoutesOrderIndependent` | backend/benchmarks/d138_scoring.py:173-217 | the bindings forget the order of the observations |
| `RouteGrouping.RoutesInOrder` | backend/benchmarks/d138_scoring.py:206-217 | the bindings are in ascending order of task kind, then adapter, model and profile |
| `RouteGrouping.RoutesReturnIff` | backend/benchmarks/d138_contracts.py:491-516 | on constructed observations grouping fails exactly when an invoked lane holds more than 72 trials |
| `RouteGrouping.RoutesConserveTrials` | backend/benchmarks/d138_scoring.py:194-217 | invoked counts add up to the invoked trials and are at most their lane |
| `RouteGrouping.ManifestAcceptsIffInvoked` | backend/benchmarks/d138_contracts.py:624-643 | the manifest's sorted-and-unique check accepts the bindings exactly when some trial was invoked |
| `LaneCompleteness.OneRoutePerLane` | backend/benchmarks/d138_scoring.py:246-254 | all invoked trials of a served lane ran on one route |
| `LaneCompleteness.CompletenessExactly` | backend/benchmarks/d138_scoring.py:220-263 | the lanes are complete exactly when there are 144 trials and 48 cases, 72 and 24 of each task kind, and each task kind ran on one route with no trial unavailable |
| `LaneCompleteness.EstablishedExactly` | backend/benchmarks/d138_scoring.py:266-287 | established exactly when not aborted, all reviews passed, no trial has a hard gate and the lanes are complete; else blocked |
| `LaneCompleteness.GatesCollected` | backend/benchmarks/d138_scoring.py:108-122 | the failures of a run are the gates some trial raised, each once, in ascending order |
| `LaneCompleteness.CompleteLanesGiveCanonicalRoutes` | backend/benchmarks/d138_scoring.py:220-263 | complete lanes give exactly one binding per task kind, in order, over 72 trials, counting the lane's invoked ones |
| `GovernanceContracts.CheckPairs` | backend/benchmarks/d139_contracts.py:60-78 | the loop with its seen-set accepts exactly lists of identifier-count pairs without a repeated name, and sorts them |
| `GovernanceContracts.PairsRoundTrip` | backend/benchmarks/d139_contracts.py:60-78 | storing and reading a distribution sorts it; a second pass changes nothing |
| `GovernanceContracts.SummaryRoundTrip` | backend/benchmarks/d139_contracts.py:196-219 | reading a stored summary gives it back with its lists sorted |
| `GovernanceContracts.SummaryAccepted` | backend/benchmarks/d139_contracts.py:196-219 | the constructor accepts exactly the stored forms of well-formed summaries |
| `GovernanceContracts.RecordRoutes` | backend/benchmarks/d139_contracts.py:242-248 | an accepted record holds the given routes, one per task kind, in ascending order of kind |
| `GovernanceContracts.RecordAccepted` | backend/benchmarks/d139_contracts.py:233-248 | a record is accepted exactly with well-formed anchors, at least one observation and at least one route, no two of one task kind |
| `GovernanceContracts.SnapshotAdmitted` | backend/benchmarks/d139_contracts.py:270-290 | a snapshot is accepted exactly with well-formed anchors and gates, at least one observation and counted task kinds without repetition |
| `GovernanceContracts.RecordNormal` | backend/benchmarks/d139_contracts.py:233-248 | an accepted record passes its constructor unchanged |
| `RunEvidence.GroupTrials` | backend/benchmarks/d139_evidence.py:68-82 | the counter loop over JSON trials gives the sorted routes or the first error |
| `RunEvidence.CountGroups` | backend/benchmarks/d139_evidence.py:70-80 | after the loop every key holds its number of invoked trials, in order of first appearance |
| `EvidenceFacts.ColumnCounts` | backend/benchmarks/d139_evidence.py:24-26 | a column of JSON values is counted exactly when it holds only text, only null or only integers and booleans; else it raises |
| `EvidenceFacts.TextCounts` | backend/benchmarks/d139_evidence.py:24-26 | text is counted once for each text, in ascending order |
| `EvidenceFacts.NumberCounts` | backend/benchmarks/d139_evidence.py:24-26 | integers are counted in numeric order, true with 1 and false with 0 |
| `EvidenceFacts.FirstText` | backend/benchmarks/d139_evidence.py:24-26 | a counted number is written as the first of the values equal to it |
| `EvidenceFacts.GatesByTrials` | backend/benchmarks/d139_evidence.py:136 | for trials of any kind the regenerated gates are the texts some gate field yields; anything else in a gate field raises |
| `EvidenceFacts.LedgerReads` | backend/benchmarks/d139_evidence.py:137 | exactly which official ledgers can be sorted, and which of them can never equal the regenerated gates |
| `EvidenceFacts.AggregateOrdered` | backend/benchmarks/d139_evidence.py:124-125 | the aggregate holds every trial unchanged, ordered by the text of its case and then of its trial |
| `EvidenceFacts.DuplicateRaises` | backend/benchmarks/d139_evidence.py:120-122 | two trial files of one identity stop the load |
| `EvidenceFacts.LoadedRun` | backend/benchmarks/d139_evidence.py:36-152 | a run of any kind that loads has readable trials of different identities, and its snapshot counts them by status and holds their gates |
| `StoredTrials.StoredKeysUnique` | backend/benchmarks/d138_contracts.py:317-340 | a stored observation is a dictionary without repeated keys |
| `StoredTrials.StoredIdentity` | backend/benchmarks/d138_contracts.py:317-340 | identity, status and binding of a stored observation under their keys |
| `StoredTrials.StoredOutcome` | backend/benchmarks/d138_contracts.py:317-340 | outcome, property results and hard gates under their keys |
| `StoredTrials.StoredCounts` | backend/benchmarks/d138_contracts.py:317-340 | counts and duration under their keys |
| `StoredTrials.StoredModel` | backend/benchmarks/d138_contracts.py:317-340 | context tokens and support ratings under their keys |
| `Regeneration.CountedTextsAreItems` | backend/benchmarks/d139_evidence.py:24-26 | sorting keys and then counting gives D138's counting and then sorting |
| `Regeneration.SummaryAgrees` | backend/benchmarks/d139_evidence.py:36-51 | the summary regenerated from stored trials is the operating summary |
| `Regeneration.RoutesAgree` | backend/benchmarks/d139_evidence.py:68-82 | the regenerated routes are the authorized route bindings |
| `Regeneration.GatesAgree` | backend/benchmarks/d139_evidence.py:136 | the regenerated hard gates are those of the observations |
| `RegenerationTheorem.AggregateReordered` | backend/benchmarks/d139_evidence.py:124-126 | the aggregate does not depend on the order of the trial files |
| `RegenerationTheorem.RegeneratedInAnyOrder` | backend/benchmarks/d139_evidence.py:112-143 | from trial files in any order the regenerated summary, gates, routes and task-kind counts are D138's |
| `RegenerationTheorem.IndependentRegenerationAgrees` | backend/benchmarks/d139_evidence.py:89-152 | loading the artifacts of a measured run returns the measured snapshot with all five integrity flags true |
| `RegenerationTheorem.OfficialRunsAreArtifacts` | backend/benchmarks/d139_evidence.py:89-110 | the runs the theorem is about are the artifacts of a measured run with trial files and aggregate in any order, and nothing else |
| `EvidenceIntegrity.IntactMeansMeasured` | backend/benchmarks/d139_evidence.py:112-152 | for the trial files of a measured run, loading returns an intact snapshot if and only if manifest and state hold the same five well-formed texts and the official aggregate, summary, ledger, routes and digest are the measured ones up to order; the snapshot is then the measured one |
| `EvidenceIntegrity.ChangedTrialDetected` | backend/benchmarks/d139_evidence.py:124-126 | an official trial that holds another value than the measured one under some key makes the snapshot not intact, whatever else the run holds |
| `EvidenceIntegrity.ChangedDurationDetected` | backend/benchmarks/d139_evidence.py:124-126 | so does one changed duration |
| `EvidenceIntegrity.NegatedResultDetected` | backend/benchmarks/d139_evidence.py:124-126 | so does one negated property result |
| `EvidenceIntegrity.AggregateConfirmed` | backend/benchmarks/d139_evidence.py:124-126 | the two sorted aggregates are equal exactly when the official one can be rearranged into dictionaries that hold the values of the measured trials, True and False as 1 and 0 |
| `RegenerationTheorem.DigestFlagDetectsChange` | backend/benchmarks/d139_evidence.py:128-131 | with an injective hash the digest flag holds exactly when the stored trials are the measured ones |
| `Comparator.OperatingDeltas` | backend/benchmarks/d139_comparator.py:30-36 | the loop over the fields lists a delta for each field that differs |
| `Comparator.DurationPaths` | backend/benchmarks/d139_comparator.py:9-86 | a path's last segment names a duration exactly for the four duration fields |
| `Comparator.Decide` | backend/benchmarks/d139_comparator.py:63-87 | the branches over filtered lists give the verdict stated over fields |
| `Comparator.AssessCandidate` | backend/benchmarks/d139_comparator.py:43-89 | the whole assessment: flags, verdict, sorted deltas and reasons |
| `VerdictFacts.VerdictByFacts` | backend/benchmarks/d139_comparator.py:71-87 | drift class and status for every record, pair of snapshots and envelope, over their fields: flags, five anchors, counts, measurement, routes, task-kind counts, the fifteen compared columns and the listed fingerprints |
| `VerdictFacts.FlagsByFacts` | backend/benchmarks/d139_comparator.py:16-46 | the four flags and two passes of the assessment, over the same fields |
| `VerdictFacts.ReasonsByFacts` | backend/benchmarks/d139_comparator.py:47-87 | each of the seven reasons is reported exactly when its cause holds, and no other |
| `VerdictFacts.DeltasByFacts` | backend/benchmarks/d139_comparator.py:12-36 | the deltas are exactly the failed gates, the changed routes and the moved columns with their values and fingerprints, ordered by domain, path and fingerprint |
| `VerdictTheorems.ReasonsExplainVerdict` | backend/benchmarks/d139_comparator.py:48-87 | a candidate passes exactly when no reason is recorded |
| `VerdictTheorems.HardGatesReject` | backend/benchmarks/d139_comparator.py:55-74 | hard gates reject under every envelope |
| `VerdictTheorems.WideningAnEnvelope` | backend/benchmarks/d139_comparator.py:79-87 | after widening, a pass survives exactly when all operating changes are approved or none is and they are durations |
| `DeltaFingerprints.FingerprintDecidesChange` | backend/benchmarks/d139_contracts.py:362-366 | with an injective hash two fingerprints are equal exactly when domain and path are and both values print alike: equal, a median also in being an integer or a float |
| `DeltaFingerprints.ChangeReads` | backend/benchmarks/d139_contracts.py:362-366 | the digested record holds domain, path, reference value and candidate value under their own keys |
| `DeltaFingerprints.FieldFingerprints` | backend/benchmarks/d139_comparator.py:30-36 | operating deltas of any two runs share a fingerprint exactly when they change one field between values that print alike |
| `DeltaFingerprints.EnvelopeApprovesListed` | backend/benchmarks/d139_comparator.py:39-40 | an envelope approves exactly the changes it lists, field and printed values |
| `DeltaFingerprints.MedianChangeFingerprints` | backend/benchmarks/d139_evidence.py:50 | median changes between any loaded runs share a fingerprint exactly when the medians are equal before and after and the numbers of durations have equal parities |
| `DeltaFingerprints.ParityHidesApproval` | backend/benchmarks/d139_comparator.py:30-40 | medians of one 5 and of two are equal to the comparator, but approving a change from the one does not approve it from the other |
| `DeltaFingerprints.ApprovalIsAllOrNothing` | backend/benchmarks/d139_comparator.py:79-87 | a candidate that moved only durations passes under an approval exactly when it lists all its changes or none |
| `DeltaFingerprints.ApprovalIsNotMonotone` | backend/benchmarks/d139_comparator.py:79-87 | with an injective hash, approving one of two moved durations withdraws the pass, approving both restores it |
| `VerdictTheorems.SelfComparisonIsIdentical` | backend/benchmarks/d139_comparator.py:16-78 | a measured run without gates compared with itself is identical under every envelope |
| `VerdictTheorems.CompleteLanesAcceptRecord` | backend/benchmarks/d139_contracts.py:242-248 | complete lanes satisfy the one-route-per-task-kind rule, and the record verifies the snapshot |
| `MeasuredRun.ReturnedRunRegenerates` | backend/benchmarks/d139_evidence.py:89-152 | every run that returns over a balanced corpus is confirmed by regeneration |
| `MeasuredRun.DecisionOnReturnedRun` | backend/benchmarks/d138_scoring.py:266-287 | a returned run is established exactly when it was not aborted since, the four reviews passed, no trial has a hard gate or was without a route, and each task kind has invoked trials, all on one adapter, model and profile; else it is blocked |
| `MeasuredRun.EstablishedRunIsAccepted` | backend/benchmarks/d138_scoring.py:266-287 | an established run loads intact, is accepted as a record, and compares with itself as identical |
| `MeasuredRun.RunOrderIsCanonical` | backend/benchmarks/d138_runner.py:246-263 | over a corpus in case order the run order is the order of the digested aggregate |
| `WriteProtocol.StepFrame` | backend/app/adapters/filesystem_write_tools.py:240-359 | one step leaves other names and other files alone; only the publishing step rebinds the target, and create only an absent one |
| `WriteProtocol.PublishesAtMostOnce` | backend/app/adapters/filesystem_write_tools.py:240-359 | in every interleaving the adapter binds the target to another file at most once, and success means it published |
| `WriteProtocol.ReplaceIsChecked` | backend/app/adapters/filesystem_write_tools.py:315-350 | replace rebinds only after two reads with the expected digest and three identity checks |
| `WriteChecks.PublishedPassedAll` | backend/app/adapters/filesystem_write_tools.py:240-359 | in every interleaving a published write passed, each at some step, every check of its kind: path allowed twice and target the same, expected digest read twice, target bound to the file found at three checks, bytes complete, temporary name unchanged, and for a create the target free |
| `WriteChecks.RefusedIsNotPublished` | backend/app/adapters/filesystem_write_tools.py:330-338 | a write refused on revalidation, or whose target moved, is never published and changes nothing at the target |
| `WriteSafety.ChangesOnce` | backend/app/adapters/filesystem_write_tools.py:240-359 | in every interleaving, whatever is done to the temporary file: while the environment does not link the target to it as it is written, the adapter changes what the target holds at most once, in the publishing step, to what the temporary name then holds |
| `WriteSafety.NeverPartial` | backend/app/adapters/filesystem_write_tools.py:46-73 | if the environment leaves the temporary file alone as well, that one change is to exactly the requested bytes |
| `WriteSafety.PartialOnlyThroughLink` | backend/app/adapters/filesystem_write_tools.py:46-73 | exactly what the adapter shows at the target if the environment leaves the temporary file alone: the part written by each write through a link, then at most once all the bytes; so something partial if and only if it writes through a link before all is written |
| `WriteSafety.LinkedTargetIsPartial` | backend/app/adapters/filesystem_write_tools.py:62-66 | a run from an empty directory in which a link made by the environment shows the first byte alone |
| `WriteSafety.QuietCheckIsExact` | backend/app/adapters/filesystem_write_tools.py:340-350 | without interference from the second identity check on, replace publishes only over the expected digest |
| `ReplaceInterference.FirstReadFaithful` | backend/app/adapters/filesystem_write_tools.py:35-43 | in every interleaving the first read holds the bytes of the file it opened, if that file is not written in place from its open on |
| `ReplaceInterference.SecondReadFaithful` | backend/app/adapters/filesystem_write_tools.py:35-43 | the same of the second read |
| `ReplaceInterference.SecondReadSuffices` | backend/app/adapters/filesystem_write_tools.py:340-350 | if the second read opened the file found first and that file is not written in place from that open on, what is overwritten has the expected digest, whatever else is written or renamed before the last check |
| `ReplaceInterference.FirstReadSuffices` | backend/app/adapters/filesystem_write_tools.py:315-350 | the same of the first read |
| `ReplaceInterference.LastCheckIsExact` | backend/app/adapters/filesystem_write_tools.py:315-350 | with files never written in place and nothing disturbed after the last check, a replace overwrites the bytes it found first; if these lack the expected digest, both its reads opened another file |
| `ReplaceInterference.DefeatIsExact` | backend/app/adapters/filesystem_write_tools.py:315-350 | for every directory with a target: some run with files never written in place passes all checks and overwrites unexpected bytes if and only if the target's bytes lack the expected digest and some bytes have it |
| `ReplaceInterference.InPlaceWriteIsLost` | backend/app/adapters/filesystem_write_tools.py:343-350 | from every directory whose target holds the expected bytes, for all bytes, a run in which those bytes are written into the target and overwritten; they have the expected digest exactly if the caller expected them |
| `ReplaceInterference.BothReadsSwapped` | backend/app/adapters/filesystem_write_tools.py:315-350 | from every directory whose target lacks the expected bytes while another file has them, a run of renames alone in which both reads are swapped and the unexpected bytes are overwritten |
| `UndisturbedWrite.UndisturbedInvocation` | backend/app/adapters/filesystem_write_tools.py:240-359 | an undisturbed invocation returns the promised outcome, leaves exactly the promised names and bytes, and no temporary name |
| `UndisturbedWrite.Ends` | backend/app/adapters/filesystem_write_tools.py:240-359 | an undisturbed invocation reaches its end from each of its states |
| `DirectoryListing.ListDirectory` | backend/app/adapters/filesystem_tools.py:94-135 | the two passes give the listing or the first error |
| `DirectoryListing.FirstPass` | backend/app/adapters/filesystem_tools.py:98-112 | the first pass raises exactly on more than 200 allowed children in its window |
| `DirectoryListing.SecondPass` | backend/app/adapters/filesystem_tools.py:114-129 | the second pass adds each unscanned file and directory, and raises exactly on an overflow |
| `DirectoryListing.ListingIsComplete` | backend/app/adapters/filesystem_tools.py:94-135 | a listing of an unchanged directory holds each allowed file and directory once, sorted, at most 200 |
| `DirectoryListing.ListingByEntries` | backend/app/adapters/filesystem_tools.py:94-135 | the entries are one per allowed file and directory with its name and kind, none twice, at most 200, in the order of their folded names |
| `DirectoryListing.LimitIsEnforced` | backend/app/adapters/filesystem_tools.py:94-135 | more than 200 files and directories always raise; a raise means more than 200 allowed children |
| `DirectoryListing.SmallDirectoryExact` | backend/app/adapters/filesystem_tools.py:100-112 | with at most 265 children the listing succeeds exactly when at most 200 are allowed |
| `DirectoryListing.SpecialFileOverflows` | backend/app/adapters/filesystem_tools.py:121-128 | at 200 entries an allowed special file met after the last entry raises |
| `DirectoryListing.ListingExact` | backend/app/adapters/filesystem_tools.py:94-135 | exactly when a listing of an unchanged directory succeeds, for every directory and both iteration orders |
| `MimeWalk.ExtractPlainText` | backend/app/connectors/gmail.py:433-480 | the stack walk returns what the recursive preorder walk returns, and terminates |
| `MimeWalk.WalkExact` | backend/app/connectors/gmail.py:433-480 | success exactly when all parts are typed, at most 16 deep and 128 in number, and the first qualifying body decodes; the result is that body or the empty text |
| `MimeWalk.WalkByParts` | backend/app/connectors/gmail.py:433-490 | the result by what the parts hold: an error unless all are typed, at most 16 deep and 128; then the decoded data of the first plain part, an error if it does not decode, and the empty text if none is plain |
| `MimeWalk.Padded` | backend/app/connectors/gmail.py:485-486 | padding completes groups of four with fewer than four equals signs and changes nothing else |
| `UsageAccounting.TokensAgree` | backend/alembic/versions/0015_ai_usage_observability.py:127-154 | validator and CHECKs agree on tokens for every status, integer and NULL |
| `UsageAccounting.BillingAgrees` | backend/alembic/versions/0015_ai_usage_observability.py:155-165 | they agree on billing |
| `UsageAccounting.ValidatorMatchesTable` | backend/app/contracts/ai_usage.py:124-214 | the validator accepts exactly the admitted rows whose texts have its formats |
| `UsageAccounting.AcceptedRows` | backend/app/contracts/ai_usage.py:124-214 | the rows both contracts accept, status by status: clean texts, counters that add up exactly when measured, and the billing each status allows |
| `UsageAccounting.UnknownCheckIsCaught` | backend/alembic/versions/0015_ai_usage_observability.py:137-154 | with a NULL counter the token CHECK alone is unknown and the shape CHECK rejects |
| `ExperienceLifecycle.ExperienceStore.ChangeRoots` | backend/alembic/versions/0014_trusted_experience_lifecycle.py:26-61 | an update of any number of rows is applied whole or, if one row is refused, not at all |
| `ExperienceLifecycle.ExperienceStore.Session` | backend/alembic/versions/0014_trusted_experience_lifecycle.py:24-99 | any sequence of statements on the tables, each applied or refused, leaves them consistent; no row is lost, sources and events are unchanged, states only move forward, and each revision counts its updates, two at most |
| `ExperienceLifecycle.RevisionOfState` | backend/alembic/versions/0014_trusted_experience_lifecycle.py:298-303 | the revision CHECK fixes the revision of each state |
| `ExperienceLifecycle.RootAdmittedExactly` | backend/alembic/versions/0014_trusted_experience_lifecycle.py:250-305 | exactly which root rows the constraints admit |
| `ExperienceLifecycle.UpdateAccepted` | backend/alembic/versions/0014_trusted_experience_lifecycle.py:26-61 | an update is accepted exactly when it keeps identity and source, counts the revision up by one, and approves or rejects a pending root or revokes a trusted one |
| `ExperienceLifecycle.OtherStatements` | backend/alembic/versions/0014_trusted_experience_lifecycle.py:24-99 | a new root is inserted exactly when admitted; stored roots and events are never deleted, nor events updated |
| `ExperienceLifecycle.EventAdmittedExactly` | backend/alembic/versions/0014_trusted_experience_lifecycle.py:333-378 | exactly which event rows the constraints admit |
| `ExperienceLifecycle.RunKeeps` | backend/alembic/versions/0014_trusted_experience_lifecycle.py:24-99 | over every run no row disappears, no source projection or event changes, and states only move forward |
| `ExperienceLifecycle.RevisionCountsUpdates` | backend/alembic/versions/0014_trusted_experience_lifecycle.py:47-55 | a root's revision counts its updates, at most two |
| `ExperienceLifecycle.OneProposal` | backend/alembic/versions/0014_trusted_experience_lifecycle.py:333-378 | each experience has at most one PROPOSED event, the first of its events |
| `ExperienceLifecycle.DecisionExact` | backend/alembic/versions/0014_trusted_experience_lifecycle.py:364-378 | exactly what the transition CHECK asks of a decision event |
| `ExperienceLifecycle.NullSourceStateIsStored` | backend/alembic/versions/0014_trusted_experience_lifecycle.py:346-378 | an approval without a source state is admitted |

## Left out

- RegenerationTheorem.IndependentRegenerationAgrees: what the artifacts hold is stated by `OfficialRun`, because the program that writes them is not part of the repository; the trial files and the aggregate may come in any order, the routes in D138's.
- CanonicalJson.CanonicalRoundTrip: floats are not JSON values here; a duration median enters the operating summary as an integer or float of its own.
- RunEvidence.GroupTrials: for a run with several defects the model keeps the order of checks in the source except inside the hard-gate ledger, where gates that are not text are reported at once; a ledger of nested lists is not modelled.
- GovernanceContracts.RecordRoutes: the checks on identifiers, commits and digests of records and snapshots share one code per constructor.
- BenchmarkContracts.ConstructedIsValid: checks of Python types, byte lengths, fixture encodings and version constants are folded into the data types.
- RunEvidence.CountGroups: measurement identities are compared as a whole; the eleven fields and their formats are not spelled out.
- TurnEvidence.ExecutorOutputFits: the cue matching of each observable property is a parameter; the conversation and executive services behind the turn port are not part of this model.
- WriteProtocol.StepFrame: `ReplaceFileW`, `chmod` and `fsync` are single steps without effect on names and bytes, and the validation of requests before `_run` is left out.
- DirectoryListing.ListDirectory: the relative path in the result is left out.
- DeltaFingerprints.FingerprintDecidesChange: a float median is printed as a JSON text of a parameter that gives its digits, because floats are not JSON values here; the two values of a field are compared within one kind.
- MimeWalk.ExtractPlainText: all failures share the connector's one code, so the order of checks inside a part is not observable and not kept.
- UsageAccounting.ValidatorMatchesTable: the widths of text and integer columns are left out.
- ExperienceLifecycle.RunKeeps: `INSERT OR REPLACE` and statements issued while triggers are dropped are left out; event rows are not tied to the state of their root, because no constraint ties them.
- The projection of observations to model evidence (`project_d135_evidence`) and the derivation of model intelligence: grouping and minima that the route grouping and the order statistics already show.
- Report rendering, loading of JSON files, dependency wiring, HTTP handlers, the frontend and the remaining connectors and migrations.
