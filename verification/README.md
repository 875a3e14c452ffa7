# Verified model of godog's workflow engine and scenario runner

This project models two parts of the repository in Dafny and proves what they promise.

**The workflow engine (`workflow/`)** turns a specification and its Gherkin features into a
graph of tasks, runs the tasks in git worktrees with bounded parallelism, survives crashes,
integrates the results, and plans incrementally from records of what is already implemented.

* `Ids`, `Graph`, `Types`: identifiers, task graphs, paths, cycles and topological orders.
* `Texts`: white space, safe names, hashes written in hexadecimal.
* `Planner`, `Validator`, `IdChecks`: Kahn's algorithm, the depth-first validator, the two
  identifier checks, and their agreement.
* `Scheduler`, `Executor`: the step relation of the parallel scheduler (any completion order,
  cancellation at any time), and the loop that refines it over its own counters.
* `Git`, `Worker`, `Integrator`: commits as immutable trees; one task's attempts; the merge
  loops that integrate the results.
* `Durable`, `Crashes`, `Histories`, `Tampering`, `Launched`, `Persisted`, `Finishing`: the run
  directory, with a crash possible between any two writes, what every run with any number of crashes
  and resumes keeps, where its run records come from, what recovery refuses, and one task's code, the
  main loop and the closing of a run as steps of it.
* `Snapshots`, `Metadata`, `Registry`, `Semantics`, `Closures`, `Tracking`, `Incremental`,
  `Evidence`, `Recording`, `Acceptance`: scenario keys, the registry, the incremental planner,
  its checks, and the plan-record-replan round trip.
* `Lifecycle`: the parts composed, from an incremental plan through an interrupted durable run
  to a record that makes the next plan empty.
* `Compiler`, `Render`, `Generate`: compiling specifications, rendering steps for
  fingerprints, and generated specifications.
* `Executable`: the executor accepts whatever the compilers return.
* `Example`: a small specification carried through the round trip, which shows that what the
  results about tracking assume can be met, and runs two of the cases below.

**The scenario runner** executes steps, hooks and nested steps.

* `Errors`, `Steps`, `Scenarios`, `Runner`, `Verdicts`, `Results`: error identities, what a step
  must log, the runner as a class proved to log it, and what follows about hooks, handlers, stored
  and shown results and verdicts.
* `Multistep`: matching, the pre-flight of nested steps, and their execution.
* `Concurrent`, `OnFlush`, `Dispatch`: scenarios in flight under a channel of slots, the
  buffering formatter as part of that run, and the order of dispatch.

Conventions. Go maps iterated in unspecified order are iterated in an arbitrary order here, so
results hold for every order. Completions, interleavings, cancellation, write failures and
crashes are nondeterministic. User code (hooks, handlers, task commands, git merges) is
arbitrary: a function, a parameter or a nondeterministic choice. Errors are values, and methods
that the source lets fail return them; the accepting condition is stated in both directions.
A commit contains its parents, a record stands for its file name and a commit for its identifier.
Hashes are arbitrary functions into their format; where a result needs two of them to differ, it
says so of the values at hand (`Semantics.ReadingOk`, `Recording.Distinguished`).

Where the code does not do what one would expect of it, the model follows the code:

* After-scenario hooks run more than once when one of them answers a failing step before the
  last with an error that `shouldFail` forgives (`Verdicts.RunForgivingHook`);
  `Verdicts.AfterScenarioHooksRunOnceIff` is the exact condition.
* A step does not always store exactly one result (`Verdicts.RunFailingHook` stores two,
  `Verdicts.RunUndefinedHandler` none); `Verdicts.ResultsStored` is the exact condition.
* A nested step's error loses its identity, so a pending nested step fails its parent
  (`Multistep.RunPendingParent`); `Multistep.NestedFailsIff` says exactly which nested steps do.
* Recording takes any text that git resolves as the name of the integration commit, but readers
  of records want a full object id. A record with an abbreviated one is published and makes its scope
  unreadable (`Example.RunAbbreviated`); `Recording.RegistryStaysIntact` is the exact condition.
* A plan whose scenarios moved to other lines is still accepted, although it names them by
  identifiers that no longer exist (`Example.RunMoved`); `Recording.StaleIff` is the exact condition.
* A tracked success that cannot be recorded is closed again as failed, but if that cannot be
  written, the run directory keeps saying success (`Finishing.FinishRun`).
* A run that was interrupted cannot be resumed once a checkpointed worktree is unclean
  (`Crashes.ResumePassesIffClean`), although committing a task does not by itself leave its worktree clean.

## Model

| member | source | states |
|---|---|---|
| `Planner.CountTask` | workflow/compiler.go:426-439 | one task of the first loop succeeds exactly when its needs are known and unrepeated; it then adds their number to the task's count and lists the task once under each need, and changes nothing else; an error names a real fault |
| `Planner.CountNeeds` | workflow/compiler.go:424-439 | over all tasks, in any map order: succeeds exactly on known, unrepeated needs, and leaves the in-degrees and the dependents lists of the whole graph |
| `Planner.SortDependents` | workflow/compiler.go:440-442 | sorting the dependents lists keeps whom they list |
| `Planner.InitialReady` | workflow/compiler.go:444-450 | whatever the map order, the ready list starts as the ascending list of the tasks without needs |
| `Planner.Release` | workflow/compiler.go:456-462 | releasing a finished task's dependents leaves exactly the counts of needs still open, and the ready list is again the ascending list of the idle tasks |
| `Planner.TakeReady` | workflow/compiler.go:453-462 | a turn of the main loop takes the least ready task and keeps the bookkeeping of all others |
| `Planner.DrainReady` | workflow/compiler.go:452-463 | the main loop yields the order that always takes the least ready identifier |
| `Planner.TopologicalTasks` | workflow/compiler.go:423-468 | succeeds exactly when every need is known, none is repeated and there is no cycle; the result holds each task itself, in the topological order that no other precedes lexicographically; an error says something true of the tasks |
| `Planner.GreedyIsTopological` | workflow/compiler.go:452-463 | on an acyclic graph the greedy order is a permutation with every need before its dependents |
| `Planner.PlannedOrderIsLeast` | workflow/compiler.go:423-468 | the planned order is topological and no topological order of the same tasks comes before it lexicographically, so it does not depend on map iteration order |
| `Planner.LexNotAfterIsAntisymmetric` | workflow/compiler.go:423-468 | there is only one lexicographically least order |
| `Ids.BeforeIs` | workflow/compiler.go:440-461 | identifiers are compared as in a dictionary: a beginning first, and otherwise by the first characters that differ |
| `Planner.RunTwoTasks` | workflow/compiler.go:444-463 | two tasks without needs, b and a, are planned as a and b |
| `Planner.GreedyCoversIffAcyclic` | workflow/compiler.go:464-466 | the order runs out of ready tasks early exactly when there is a cycle, which is what the length comparison tests |
| `Validator.DepthFirst.Visit` | workflow/executor.go:316-333 | the recursive visit either reports a cycle that exists, or marks the task and leaves the finished tasks in an order with every need earlier |
| `Validator.CheckNeeds` | workflow/executor.go:299-313 | accepts a task exactly when its needs are known, not itself and not repeated |
| `Validator.SearchCycles` | workflow/executor.go:314-344 | the depth-first search succeeds exactly when the graph has no cycle |
| `Validator.ValidateGraph` | workflow/executor.go:293-345 | validatePlan's graph checks accept exactly distinct identifiers with known, unrepeated, acyclic needs; an error is accurate |
| `Validator.PlanThenValidate` | workflow/executor.go:299-344 | the Kahn planner and the depth-first validator accept the same task graphs, and the validator accepts every plan the planner returns |
| `IdChecks.DecodeRune` | workflow/compiler.go:361 | a range over a string yields ASCII bytes as themselves and never an ASCII rune for anything else, malformed bytes included |
| `IdChecks.IsSafePathComponent` | workflow/compiler.go:357-368 | the rune-based check accepts exactly the empty text and the safe identifiers |
| `IdChecks.ExecutorSafeTaskID` | workflow/executor.go:420-442 | the byte-based check accepts exactly the safe identifiers |
| `IdChecks.ChecksAgree` | workflow/compiler.go:319-324 | for every byte string, the compiler's nonblank-and-rune check and the executor's byte check agree |
| `Texts.SafeNameStaysInside` | workflow/compiler.go:357-368 | a safe identifier is one component of a path: it has no separator and is neither of the two dots |
| `Scheduler.StepKeepsInv` | workflow/executor.go:138-210 | every scheduler step keeps: at most Jobs tasks run, every started task has all needs successful, every blocked task a failed or blocked need, cancellation only after the context ended |
| `Scheduler.RunKeepsInv` | workflow/executor.go:138-210 | so it holds at every moment of every run, fresh or resumed, with completions in any order and cancellation at any time |
| `Scheduler.BlockedHasFailedAncestor` | workflow/executor.go:444-451 | a blocked task transitively needs a task that ran and failed |
| `Scheduler.NothingStartsAfterObserving` | workflow/executor.go:139-188 | once the end of the context is observed, no task is ever launched again |
| `Scheduler.SettledAndIdleIsFinished` | workflow/executor.go:190-195 | with nothing running, nothing to block and nothing to launch, every task of an acyclic graph is terminal |
| `Scheduler.FinishedIsVerdict` | workflow/executor.go:138-210 | a finished uncancelled state is the recursive verdict: own outcome if all needs succeeded, otherwise blocked |
| `Scheduler.Confluence` | workflow/resume.go:229-301 | two finished uncancelled runs with the same own outcomes end in the same statuses, whatever the interleavings, the Jobs limits and the dependency-closed sets of recovered successes, and in the verdict of any rank |
| `Executor.Loop.Observe` | workflow/executor.go:139-152 | the top of a turn cancels every pending task when the context has ended and counts each as terminal |
| `Executor.Loop.NeedFailed` | workflow/executor.go:444-451 | true exactly when some need is failed, blocked or cancelled |
| `Executor.Loop.NeedsSucceeded` | workflow/executor.go:453-460 | true exactly when every need is successful |
| `Executor.Loop.BlockScan` | workflow/executor.go:158-168 | one scan blocks what it finds, or changes nothing because nothing is left to block |
| `Executor.Loop.BlockAll` | workflow/executor.go:155-169 | the blocking fixpoint ends with nothing left to block |
| `Executor.Loop.LaunchReady` | workflow/executor.go:171-187 | launching stops at the limit or when no ready task is left; every launch is a step of the relation |
| `Executor.Loop.Receive` | workflow/executor.go:196-209 | one completion, of any running task, moves one task from running to terminal |
| `Executor.Loop.Turn` | workflow/executor.go:138-210 | every turn ends the loop with all tasks terminal or raises the number of terminal tasks; the no-progress branch is never taken |
| `Executor.Loop.Run` | workflow/executor.go:138-210 | the loop terminates, never reports a lack of progress, and ends with every task terminal; running and terminal always count the running and terminal tasks |
| `Executor.Schedule` | workflow/executor.go:129-210 | from any Jobs: negative is refused, zero means one, and otherwise the whole loop is a run of the step relation from the recovered successes to its reported states |
| `Git.Merge` | workflow/executor.go:494 | a merge contains both sides and all they contained |
| `Git.AncestorIsAntisymmetric` | workflow/resume.go:695-698 | two commits that contain each other are the same commit |
| `Worker.CommitTask` | workflow/executor.go:597-632 | fails exactly when git does or the task discarded the commit it started from; otherwise the result is the task's own head with what was staged committed on top of it, and contains what the task started from |
| `Worker.RunAttempts` | workflow/executor.go:515-543 | the attempt loop stops at the first conclusive attempt or the last, with that attempt's result; its journal entries never lower the attempts and never promise a commit |
| `Worker.DecidedByAttempts` | workflow/executor.go:515-543 | on the attempts' own fields: success exactly when some attempt was live before and after, exited as expected with no error or that exit error, had its commit made, and all before it were live and missed this; cancelled exactly when the run context ended where it could be noticed, failed otherwise; the attempts used are those up to the first that does not miss |
| `Worker.MergedHeadContains` | workflow/executor.go:489-504 | the merged setup head contains the baseline and every need's commit; only an ended run context makes the status cancelled |
| `Worker.MergedHeadTrace` | workflow/executor.go:489-504 | each merge has the head before it and the next need as its parents, unless that need is contained already |
| `Worker.MergeNeeds` | workflow/executor.go:489-509 | the setup head is the in-order merge of the needs' commits onto the baseline and contains them all; a failing merge decides the status instead |
| `Worker.ExecuteTaskAt` | workflow/executor.go:468-545 | a task succeeds exactly when log, worktree, merges and head go through and its attempts do as above, and is cancelled exactly when the run context ended in a merge, at the head or in the attempts; success means a commit containing the baseline and all needs' commits; attempts stay within the budget |
| `Worker.RunUnexpectedExit` | workflow/executor.go:525-538 | a command that exits 1 where 0 is expected fails its task, although it left something staged |
| `Worker.RunExpectedExit` | workflow/executor.go:525-532 | where that exit is expected, what it staged is committed |
| `Integrator.MergingContains` | workflow/resume.go:479-498 | the merged head contains the baseline and every successful task's commit |
| `Integrator.IntegrateAll` | workflow/resume.go:479-498 | the loop computes the in-order merge of the successful commits, skipping those already contained, and fails exactly when an ancestry inspection breaks or a merge that is needed fails |
| `Integrator.MergingTakesTurns` | workflow/resume.go:479-498 | the head goes from task to task: it stays for a task without a commit or with one seen to be contained, becomes a merge with both parents otherwise, and the first turn that cannot be taken gives the error |
| `Integrator.IntegratedCases` | workflow/executor.go:634-671 | a fresh integration records the last head once it is read, and until then no commit |
| `Integrator.ReintegratedCases` | workflow/resume.go:432-477 | a recorded integration is kept exactly when it is valid, clean, at its commit and contains every success; one that cannot be looked at, or that a completed run left and that does not stand, is refused; otherwise a new one is made from the baseline |
| `Integrator.RunReuse` | workflow/resume.go:432-477 | a concrete integration that stands is kept |
| `Integrator.Integrate` | workflow/executor.go:634-671 | a fresh integration succeeds exactly when its worktree opens, the inspections and merges go through and the merged head can be read, and then contains baseline and successes |
| `Integrator.IntegrateResumed` | workflow/resume.go:432-477 | reuses the recorded integration exactly when its worktree still stands, clean, at a commit containing every success, rebuilds otherwise when that is allowed, and refuses exactly in the remaining cases |
| `Integrator.IntegratesEach` | workflow/executor.go:655-668 | an integration of the results taken in identifier order contains the commit of every successful task of the journal |
| `Durable.ValidateRunHistory` | workflow/resume.go:550-572 | accepts exactly nonempty histories numbered from one, the first fresh and the rest resumed, all closed except possibly the last |
| `Durable.ClosingKeepsHistory` | workflow/resume.go:574-582 | closing gives the last run record its status, its end and the tasks of the journal, leaves the others, and keeps the history valid |
| `Durable.ReopeningKeepsHistory` | workflow/resume.go:584-595 | a record in progress becomes interrupted, with the tasks of the journal; all others stay; one resumed record in progress is appended; the history stays valid |
| `Durable.AcceptCheckpoint` | workflow/resume.go:354-382 | the per-task checks accept exactly a checkpoint that agrees with the journal, contains the baseline, and whose worktree stands clean at its commit |
| `Durable.LinkCheckpoint` | workflow/resume.go:383-397 | the dependency checks accept exactly commits recorded as in the needs' own checkpoints and contained in the task's commit |
| `Durable.RecoverCompletedTasks` | workflow/resume.go:352-399 | recovery succeeds exactly on recoverable directories and then reuses exactly the checkpointed results |
| `Crashes.StepKeepsWorld` | workflow/executor.go:113-123 | every durable step, including a crash at any write and a resume, keeps disk and memory consistent |
| `Crashes.RunKeepsWorld` | workflow/resume.go:109-136 | so every moment of every run, through any number of crashes and resumes, is consistent |
| `Crashes.CrashConsistency` | workflow/resume.go:330-399 | a journal success has a checkpoint saying the same; checkpoints are closed under needs and record the needs' checkpointed commits, which their commit contains; the directory is recoverable exactly when its checkpointed worktrees are clean; the history is valid; attempts are at most runs times the budget |
| `Crashes.RecoverableIffClean` | workflow/resume.go:352-418 | of a directory the workflow wrote, recovery refuses exactly those with an unclean checkpointed worktree |
| `Crashes.ResumePassesIffClean` | workflow/resume.go:102-127 | after a crash at any moment, Resume's history and recovery checks pass exactly when every checkpointed worktree is still clean, whatever Jobs it is given |
| `Crashes.ResumedStartsClosed` | workflow/resume.go:184-228 | the successes a resume starts from are closed under needs |
| `Crashes.CheckpointedIsNeverRerun` | workflow/resume.go:352-399 | a checkpoint, once written, stays as it is and its task is never executed again |
| `Crashes.AttemptsNeverFall` | workflow/resume.go:109-136 | a task's journalled attempts never decrease, whatever a crash loses |
| `Crashes.RecordedSuccessIsIntegrated` | workflow/executor.go:222-240 | a run recorded as a success had every task succeed, and its integration, as the merge loops left it, contains the baseline and every task's commit |
| `Crashes.CommitsContainAncestors` | workflow/executor.go:489-509 | a checkpointed task's commit contains the commits of everything it transitively needs |
| `Crashes.StepRefinesScheduler` | workflow/resume.go:229-301 | each durable step within a process is a scheduler step or none, possibly followed by the end of the context |
| `Crashes.ConfluenceAcrossCrashes` | workflow/resume.go:184-328 | however often a plan is interrupted and resumed, with whatever Jobs each time, the run that finishes uncancelled has the statuses of an uninterrupted one |
| `Tampering.TamperingIsRefused` | workflow/resume.go:352-418 | in the directory of any moment of a run, a single change to what a completed task left is refused: another head, commit, baseline, status, mark or dependency, a missing worktree or checkpoint, or a journal entry that no longer agrees |
| `Histories.ResumedHistory` | workflow/resume.go:116-129 | Resume closes the record in progress as interrupted with the tasks of that moment, leaves all others and opens exactly one |
| `Histories.ResumedTasks` | workflow/resume.go:184-203 | it takes over the checkpointed results and makes every other task pending, with its attempts and its worktree and without a commit |
| `Histories.RecordsAccounted` | workflow/resume.go:109-136 | over every durable run: only the last record is in progress, an interrupted one was in progress when a Resume found it and holds the journal's tasks of that moment, and any other was closed by its own process with that status and the tasks of that moment |
| `Histories.RecordStays` | workflow/resume.go:109-136 | a record that is not the last never changes again |
| `Histories.InterruptedIff` | workflow/resume.go:584-595 | a record is interrupted exactly when its process left it in progress and a Resume found it so |
| `Histories.LeftInProgress` | workflow/executor.go:102-112 | and a process leaves it in progress if it never finishes it, and only if it never writes it finished |
| `Histories.StatusesAgree` | workflow/executor.go:113-123 | at every moment the journal in memory says of every task what the scheduler made of it |
| `Histories.WritesAll` | workflow/executor.go:88-101 | a write that goes through puts all of it on disk; after one that fails nothing is written but the closing of the record, and the context ends |
| `Launched.RunLaunched` | workflow/executor.go:468-545 | the journal writes and the completion of one launched task, with any durable steps of other tasks between them, form a chain of durable steps, ending in a checkpoint for a success and a journal entry otherwise |
| `Launched.SomeSurroundings` | workflow/executor.go:129-210 | there are surroundings of that kind, whether or not the context ends meanwhile: a pending completion of another task is journalled first |
| `Finishing.FinishRun` | workflow/executor.go:213-247 | the end of a run, from the end of its loop, is a chain of durable steps: the record says success exactly when the journal was whole, the context alive, integration, write and both checks of the repository went through, all tasks succeeded, and, on a tracked plan, recording, whose success is given here and characterised by `Lifecycle.FinishedIsRecordable`, did not fail; the integration then contains every commit; a success that cannot be recorded is closed again as failed, and stays one on disk when that write fails |
| `Finishing.IntegrateAndClose` | workflow/resume.go:302-328 | the part of it that integrates and closes: the status is a success exactly when nothing up to there failed, and a failing resumed run counts as cancelled if its context has ended |
| `Finishing.VerdictMeans` | workflow/executor.go:213-247 | said out in full, what a run needs to end without an error, and which status it can have otherwise |
| `Persisted.LoopIsDurable` | workflow/executor.go:129-210 | every run of the scheduling loop, with whatever reports and head movements of the workers between its steps, whatever journal writes fail (which ends the context), and whatever results its tasks end with, is a journey of durable steps through the same statuses: launches and statuses are journalled as the source does, and a success is checkpointed first |
| `Persisted.RunPersisted` | workflow/resume.go:229-301 | the loop, started by Execute or by a resume from the checkpointed successes, is such a journey, and the run can be finished after it |
| `Persisted.DeliveredMayEnd` | workflow/executor.go:468-545 | what executeTaskAt promises of a result is all that sequence asks of it |
| `Persisted.ResumeStarts` | workflow/resume.go:184-228 | a resume starts that loop with exactly the checkpointed tasks as successes |
| `Persisted.ExecuteStarts` | workflow/executor.go:68-110 | a fresh run starts it without successes |
| `Persisted.SomeTasksDeliver` | workflow/executor.go:489-509 | there are results of that kind for every plan: a merge of the baseline and the needs' commits is one |
| `Snapshots.TrustedMultiplicity` | workflow/incremental.go:959-1000 | of the listed records, the trusted ones are those whose commit HEAD contains, each as often as listed |
| `Registry.ValidateImplementationRecord` | workflow/incremental.go:1060-1084 | accepts exactly the records of version 1 and of this scope with a policy hash of 64 digits, an object id of 40 or 64 and distinct, well-formed scenarios whose tasks have safe names |
| `Registry.TrustedRecords` | workflow/incremental.go:959-1000 | fails exactly when some file of the scope is damaged or holds an invalid record, trusted or not; otherwise returns the records whose commit HEAD contains |
| `Snapshots.MarkMaximal` | workflow/incremental.go:1002-1036 | the double loop marks exactly the records with no other record strictly above |
| `Registry.LatestTrusted` | workflow/incremental.go:1002-1036 | on an intact registry, returns a record exactly when it is the greatest of the trusted multiset, so independently of listing order |
| `Snapshots.NoneGreatestIffRivals` | workflow/incremental.go:1002-1036 | a nonempty list has no greatest record exactly when two records are maximal, and those are incomparable or share a commit |
| `Snapshots.ChangedKeys` | workflow/incremental.go:778-797 | a key is changed exactly when its scenario is not recorded as it is in the single base record of the same policy |
| `Snapshots.PreviousIs` | workflow/incremental.go:778-790 | what the base record knows of a key is its last scenario with that key |
| `Semantics.CompileSemanticScenarios` | workflow/incremental.go:586-662 | each scenario is read once, with its fingerprint and the key of its names and of its number among the scenarios up to it with the same names, although the counter starts anew in every feature |
| `Semantics.KeysAreDistinct` | workflow/incremental.go:640-641 | so no two scenarios of all features share a key, unless the hashes of these very scenarios collide |
| `Example.NumberingIsOk` | workflow/incremental.go:586-662 | there are readings whose hashes do not, on features with two scenarios of the same names |
| `Metadata.TakeSnapshot` | workflow/incremental.go:768-776 | the snapshot holds the same scenarios in strictly ascending order of their keys |
| `Metadata.SnapshotIgnoresOrder` | workflow/incremental.go:768-776 | the order in which scenarios were read does not show in it |
| `Metadata.CheckScenarios` | workflow/incremental.go:331-355 | accepts exactly scenario trackings with hashes for keys and fingerprints, a name and distinct, named tasks, without repeated keys or identifiers |
| `Metadata.SortInputs` | workflow/incremental.go:1146-1161 | what the input fingerprint hashes of the scenarios: keys, fingerprints and tasks in the order of the keys |
| `Metadata.SortedInputsDecide` | workflow/incremental.go:1146-1161 | that list is the same exactly when the sets of keys with their fingerprints and tasks are, so listing order and identifiers do not show in it |
| `Tracking.SpecScope` | workflow/incremental.go:940-953 | the scope is the path of a specification within the repository, or the hash of the clean path of one outside with that path; ValidateTracking accepts it |
| `Closures.Selection.IncludePrerequisites` | workflow/incremental.go:151-160 | adds exactly what is needed to close the set under needs below the task |
| `Closures.Selection.IncludeVerification` | workflow/incremental.go:164-170 | adds exactly the tasks needed by something downstream, and terminates by position in the full plan although it is not memoised |
| `Closures.Selection.IncludeAll` | workflow/incremental.go:161-173 | the include map ends as exactly the tasks needed by an affected task or by one downstream of it |
| `Closures.IsDownstreamOf` | workflow/incremental.go:835-854 | the shared-memo search answers exactly whether the task transitively needs an affected one or is one |
| `Tracking.AssociateScenarioTasks` | workflow/incremental.go:748-766 | each scenario gets exactly the tasks that have it, in strictly ascending order; it fails exactly when a task's scenario is untracked |
| `Tracking.BuildFullTracking` | workflow/incremental.go:213-262 | succeeds exactly when the specification compiles; the scenarios are those of the features with distinct keys, the tasks are in the planned order, the association never fails and every scenario has a task |
| `Incremental.SelectTargets` | workflow/incremental.go:136-142 | a task's targets are its changed scenarios in order |
| `Incremental.TargetsAre` | workflow/incremental.go:136-142 | which are exactly the tracked, changed scenarios the task has |
| `Incremental.ReasonOf` | workflow/incremental.go:187-192 | the label is changed exactly for the affected tasks, verification exactly for the others that transitively need one, and prerequisite for the rest |
| `Incremental.CompileIncremental` | workflow/incremental.go:92-211 | fails exactly on a damaged registry; the plan is a no-op exactly when nothing changed; otherwise it keeps, in order, exactly the tasks needed by an affected task or one downstream of it, each with its own needs, its changed scenarios, their keys and its reason |
| `Acceptance.KeptTaskIs` | workflow/incremental.go:175-206 | each task of the plan has its name, needs, attempts and work from the full plan, exactly its changed scenarios with their keys, and the reason that follows from these and from the tasks it transitively needs |
| `Incremental.KeptIsClosed` | workflow/incremental.go:151-173 | a kept task's needs are kept |
| `Incremental.IncrementalGraphIsValid` | workflow/incremental.go:175-206 | the kept tasks have distinct identifiers, stay in topological order, and pass the validator's graph checks |
| `Incremental.CompileFull` | workflow/incremental.go:266-289 | the full plan lists every task with all its scenarios' keys as changed, without a base record |
| `Evidence.ValidateTracking` | workflow/incremental.go:312-400 | accepts exactly the plans of this version whose scope and path agree, whose fingerprints are those of their tasks and scenarios, and whose entries list every task once, with a tracked key for each of its scenarios if it changed and without scenarios otherwise |
| `Evidence.ValidateCarriedEvidence` | workflow/incremental.go:527-564 | accepts exactly when the base records can still be read, have this policy and are contained, and for every scenario the last base record that knows its key has its fingerprint, or every task assigned to it lists the key |
| `Evidence.RecordEvidenceIs` | workflow/incremental.go:527-548 | of several base records with a key, the last scenario of the last one counts |
| `Acceptance.IncrementalIsValid` | workflow/incremental.go:309-400 | every plan CompileIncremental returns passes ValidateTracking |
| `Acceptance.FullIsValid` | workflow/incremental.go:309-400 | so does every plan CompileFull returns |
| `Acceptance.IncrementalEvidence` | workflow/incremental.go:527-564 | the evidence of an incremental plan is complete as soon as the integration contains the baseline, if its base record is still there |
| `Acceptance.FullEvidence` | workflow/incremental.go:527-564 | the evidence of a full plan is always complete |
| `Recording.ValidatePlanInputs` | workflow/incremental.go:404-450 | accepts exactly valid plans whose baseline is HEAD and whose input fingerprint is that of the specification compiled now |
| `Recording.StaleIff` | workflow/incremental.go:404-450 | unless the two fingerprints compared collide, that is exactly when HEAD, the policy and the set of keys with their fingerprints and tasks are as they were |
| `Acceptance.ValidateMoved` | workflow/compiler.go:200-203 | moving scenarios to other lines changes their identifiers, and the plan that names the old ones is still accepted |
| `Example.RunMoved` | workflow/incremental.go:1146-1161 | a concrete plan of two scenarios that is accepted after a blank line is put above them |
| `Recording.ValidateSuccessfulResult` | workflow/incremental.go:566-584 | accepts exactly as many results as tasks, all successes, of different tasks, one for each task of the plan |
| `Recording.RecordImplementation` | workflow/incremental.go:453-525 | records exactly the recordable results: among others nothing uncommitted, HEAD and baseline those of the plan, every task a success with a commit the integration contains, every scenario carried or done; the record has this version, the plan's scope, policy and scenarios, and the integration's commit |
| `Recording.Inspect` | workflow/incremental.go:424-450 | what the specification in the repository compiles to now: nothing exactly when it does not compile |
| `Recording.RecordIn` | workflow/incremental.go:453-525 | recording with that recompilation: accepts exactly the recordable results, and what it publishes can be read exactly when its commit is named by a full object id |
| `Recording.PublishedIsReadable` | workflow/incremental.go:503-523 | a published record passes the checks of those who read records exactly when its commit is named by a full object id: the other checks, also those publishing does not make, it always passes |
| `Recording.RegistryStaysIntact` | workflow/incremental.go:503-523 | so publishing leaves the registry readable exactly then |
| `Example.RunAbbreviated` | workflow/incremental.go:478-523 | a concrete result with an abbreviated commit: it is recorded, and the next compilation fails |
| `Acceptance.NoOpIffRecorded` | workflow/incremental.go:106-121 | a plan is a no-op exactly when the greatest trusted record has this policy and holds every scenario as it is |
| `Acceptance.RecordedPlanIsNoOp` | workflow/incremental.go:503-523 | after recording, with HEAD containing the integration, semantics unchanged and all other trusted records older, the next incremental plan is a no-op |
| `Acceptance.PlanRecordReplan` | workflow/incremental.go:92-523 | compile, run successfully, record, merge, compile again: it is recorded unless there was nothing to do or a task did not succeed; compiling again succeeds exactly when the commit was named in full, and then there is nothing left to do |
| `Example.RunNamedInFull` | workflow/incremental.go:92-523 | all of it from a specification of two scenarios, ending with nothing to do |
| `Lifecycle.FinishedIsRecordable` | workflow/incremental.go:453-525 | an incremental plan run durably, through any crashes and resumes, to a run recorded as success can be recorded, if HEAD and the specification have not changed and its base record is still there |
| `Lifecycle.FinishedNeedsNothing` | workflow/incremental.go:503-523 | and once it is recorded and merged, planning again finds nothing to do |
| `Compiler.MatchSelector` | workflow/compiler.go:380-393 | one selector: fails exactly on a malformed pattern, and yields exactly the matching features |
| `Compiler.SelectFeatures` | workflow/compiler.go:370-402 | succeeds exactly when every selector is well formed and matches some feature; selects the matching features in their order, or all without selectors |
| `Compiler.ChosenKeepOrder` | workflow/compiler.go:395-401 | the selected features keep the order of the features |
| `Compiler.ValidateTaskSpec` | workflow/compiler.go:315-355 | accepts exactly safe names, one of a command and a prompt, a model for a prompt, zero to five attempts but no explicit zero, exit codes from 0 to 255 that only a command may expect to be nonzero, known efforts and positive timeouts |
| `Compiler.MakeTask` | workflow/compiler.go:272-302 | a task with valid fields is made exactly when its selectors are good and choose a feature; it has its own needs and attempts, one attempt by default; a prompt has its own effort and its own trimmed model if it names them and otherwise those of the specification; nothing else changes |
| `Compiler.RunOwnChoices` | workflow/compiler.go:274-283 | a prompt with a model and an effort of its own keeps them under other defaults |
| `Texts.OnlyTrimmed` | workflow/compiler.go:279-282 | trimming is determined by what it means: no white space at either end, and nothing but white space cut off |
| `Compiler.MakeTasks` | workflow/compiler.go:264-303 | succeeds exactly on distinct identifiers and good task specifications, fields included, and collects exactly the covered scenarios |
| `Compiler.CheckCoverage` | workflow/compiler.go:305-311 | succeeds exactly when every scenario is covered |
| `Compiler.CompileTasks` | workflow/compiler.go:254-313 | compiles exactly the compilable specifications, into the planned order of the specification's own graph; every task is made so from one of its specifications, with safe names, one to five attempts and every scenario assigned |
| `Compiler.CompiledIsRunnable` | workflow/compiler.go:272-302 | what the field checks let through, with its defaults filled in, passes the executor's field checks, though these ask for a model and at least one attempt of the task itself |
| `Validator.CheckFields` | workflow/executor.go:262-291 | accepts exactly the tasks that can be run: a safe name, a known effort, one of a command and a prompt, a model for a prompt, one to five attempts, an exit code, a positive timeout |
| `Executable.ValidatePlan` | workflow/executor.go:249-345 | accepts exactly plans of this version with valid tracking, tasks unless there is nothing to do, runnable and distinct tasks, and an acyclic graph |
| `Executable.CompiledIsExecutable` | workflow/executor.go:249-345 | every plan Compile returns is accepted |
| `Executable.CompileAndValidate` | workflow/executor.go:249-345 | so a specification with tasks whose features have distinct scenarios is compiled and then executed exactly when it is compilable |
| `Executable.IncrementalIsExecutable` | workflow/executor.go:249-345 | every plan CompileIncremental returns is accepted, those with nothing to do included |
| `Executable.FullIsExecutable` | workflow/executor.go:249-345 | and every plan CompileFull returns |
| `Render.PassesAreOneCode` | workflow/compiler.go:248-252 | the three successive replacement passes amount to one character code: no pass touches what an earlier one wrote |
| `Render.EscapeRoundTrip` | workflow/compiler.go:248-252 | escaping can be undone, and never emits a raw newline, a bare pipe or an unfinished escape |
| `Render.UnescapeRoundTrip` | workflow/compiler.go:248-252 | every such clean text is the escape of what it decodes to |
| `Render.RenderStep` | workflow/compiler.go:205-246 | the builder loop writes the keyword of the step's kind and its text first, then one line per row, and the doc string between its fences |
| `Render.CellsAreInjective` | workflow/compiler.go:210-220 | a rendered row determines all its cells |
| `Render.RenderingIsInjective` | workflow/compiler.go:205-233 | the rendered text of a step determines its keyword, text, every table cell and its doc string |
| `Generate.ChainTasks` | workflow/generate.go:85-103 | the loop chains each feature's task to the one before, and the review needs them all; each is one attempt at its prompt with the given model |
| `Generate.ChainOrderIsForced` | workflow/generate.go:85-103 | on such a chain the planner's order is the chain, whatever the identifiers |
| `Generate.ChainCompiles` | workflow/generate.go:85-103 | the chained specification compiles exactly when identifiers are distinct and safe, there is a model and a feature, the effort is known and every selector is good |
| `Generate.GenerateAndCompile` | workflow/generate.go:85-103 | and it is then planned in feature order with the review last |
| `Generate.AssignFeatures` | workflow/generate_codex.go:174-184 | succeeds exactly when the task's features are selected and not yet assigned |
| `Generate.ImplementTasks` | workflow/generate_codex.go:159-186 | accepts exactly the tasks with fresh, nonblank identifiers, allowed choices, rationales, and selected features assigned once |
| `Generate.ReviewNeeds` | workflow/generate_codex.go:190-198 | collects every task as a need of the review, and fails exactly on an unknown dependency |
| `Generate.CompileGenerationPlan` | workflow/generate_codex.go:132-201 | accepts exactly the acceptable plans, in which every selected feature is assigned once, by the subset-and-equal-count argument; each task becomes one attempt at its prompt with its planned needs, model, effort and the selectors of its features, and the review needs them all |
| `Generate.EveryFeatureHasOneOwner` | workflow/generate_codex.go:174-189 | in an accepted plan every selected feature has exactly one task and one place there |
| `Generate.CodexReviewIsLast` | workflow/generate_codex.go:190-199 | whenever the planner accepts the generated tasks, the review is last |
| `Errors.MergeErrors` | suite.go:672-701 | a joined error has an identity exactly when one of its parts has it |
| `Errors.MergeFails` | suite.go:610-620 | a merged error fails the scenario exactly when neither part is one that shouldFail forgives |
| `Steps.ClosedHas` | suite.go:389-425 | the after-scenario result has an identity exactly when the step's error or some hook's error has it |
| `Steps.AfterScenarioForgives` | suite.go:389-425 | after-scenario hooks forgive a failing step exactly when one of them returns an error that shouldFail forgives |
| `Runner.Suite.RunBeforeScenarioHooks` | suite.go:363-387 | calls the hooks in order, stopping only at a panic, and gathers and wraps their errors |
| `Runner.Suite.RunBeforeStepHooks` | suite.go:315-340 | likewise on top of the error so far, wrapped only if a hook failed |
| `Runner.Suite.RunAfterStepHooks` | suite.go:342-361 | calls every hook with the status and the error merged so far |
| `Runner.Suite.RunAfterScenarioHooks` | suite.go:389-425 | calls every hook with the error so far, wrapping the step's error when the first hook error joins it |
| `Runner.Suite.RunBody` | suite.go:251-312 | the exits of a step in the source's order, with what each stores and shows |
| `Runner.Suite.Conclude` | suite.go:156-241 | the deferred function: test state, status, after-step hooks, after-scenario hooks on a failing or last step, result unless returning early |
| `Runner.Suite.RunStep` | suite.go:150-313 | a step logs exactly its opening and its deferred part, panics recovered, and every logged outcome is what the user code returned |
| `Runner.Suite.RunSteps` | suite.go:593-608 | the log of a scenario is its steps' logs in order, each step given the error before it |
| `Runner.Suite.RunPickle` | suite.go:622-670 | a scenario without steps runs nothing and is undefined |
| `Verdicts.BeforeScenarioHooksRunOnce` | suite.go:243-246 | before-scenario hooks come first and run once each, except those after a panicking one |
| `Verdicts.AfterScenarioHooksRun` | suite.go:206-209 | every after-scenario hook runs once, plus once for each failure before the last step that the hooks forgave |
| `Verdicts.AfterScenarioHooksRunOnceIff` | suite.go:203-209 | so exactly once precisely when no hook answers such a failure with an error that shouldFail forgives |
| `Verdicts.UnforgivingHooksRunOnce` | suite.go:203-209 | in an environment whose after-scenario hooks never return such an error, each runs exactly once, whatever else happens |
| `Verdicts.RunForgivingHook` | suite.go:203-209 | a suite where it is not once: a hook answering ErrSkip runs twice in a two-step scenario |
| `Verdicts.ScenarioFailsIff` | suite.go:593-620 | the scenario fails exactly when some step's returned error fails it |
| `Verdicts.HandlerRunsIff` | suite.go:299-312 | a step's handler runs, once, exactly when every earlier step returned no error at all and the step's own hooks, match and nested steps are fine |
| `Verdicts.ResultsStored` | suite.go:215-308 | how many results a step stores, by what its hooks, its look-up and its handler returned and whether an earlier step erred: two, none or one |
| `Verdicts.RunFailingHook` | suite.go:215-257 | a suite that stores two results for a step: a before-step hook fails it |
| `Verdicts.RunUndefinedHandler` | suite.go:160-241 | a suite that stores none: the handler returns ErrUndefined |
| `Results.DeferredShows` | suite.go:215-241 | the deferred part of a step stores and shows one and the same status: passed exactly when the step returns no error, else pending, skipped or ambiguous by the first of these identities the error has, else failed; and nothing after an earlier error or where the step's own error is undefined |
| `Results.HooksAreTold` | suite.go:186-204 | after-step hooks are told the status of the step's own error: ambiguous, pending, skipped or undefined by the first of these identities, else failed; without an error passed, or skipped after an earlier error |
| `Results.HooksAreGiven` | suite.go:342-361 | and each is given an error with the identities of the step's own and of those the hooks before it returned |
| `Results.StepBody` | suite.go:251-312 | what a step logs before its handler, and the identity of its error: failed hooks store a failure, several matches are ambiguous, nested steps without a match store and show undefined, and an earlier error skipped |
| `Results.HandlerDecides` | suite.go:156-184 | a handler's error is kept, its panic is an ordinary error unless it is that of FailNow or SkipNow, and without an error the scenario's TestingT decides: skipped, failed or fine |
| `Results.VerdictFails` | suite.go:593-620 | the scenario fails exactly when some step returns an error that is not a skip and, unless strict, neither undefined nor pending |
| `Results.RunPassingHandler` | suite.go:156-241 | the whole log of a passing step |
| `Results.RunFailingHandler` | suite.go:156-241 | of a failing one |
| `Results.RunPanickingHandler` | suite.go:156-241 | of one that panics |
| `Results.RunFailNow` | testingt.go:83-193 | of one that calls FailNow |
| `Results.RunSkipNow` | testingt.go:83-193 | of one that calls SkipNow |
| `Results.RunPendingHandler` | suite.go:610-620 | of a pending one, which fails its scenario exactly when strict |
| `Multistep.CollectedIsAmbiguous` | suite.go:566-571 | counting the matching expressions decides ambiguity: strict mode and two different definitions that fit |
| `Multistep.MatchStep` | suite.go:530-575 | fails exactly when strict and two definitions suit the step, by expression and by the keyword they were made for, and otherwise returns the first that does, or none |
| `Multistep.MaybeUndefined` | suite.go:427-464 | resolves exactly the steps whose expansion is unambiguous, plain and made of multisteps that return steps, and then returns the unmatched leaves of the expansion tree from left to right |
| `Multistep.MaybeSubSteps` | suite.go:466-496 | running what a handler returned gives exactly the error and the meetings of the recursive run: none, the handler's own error, or that of its nested steps up to the first that errs |
| `Multistep.StepsCovered` | suite.go:466-528 | what nested steps meet is an initial part of their full course, and all of it when they return no error |
| `Multistep.RunSubStep` | suite.go:498-528 | a nested step runs as the recursive run says: its own error, made text, merged under what its after-step hooks return |
| `Multistep.NestedHooksAreTold` | suite.go:498-528 | the hooks of a nested step are told only that it passed or failed, whatever its error was |
| `Multistep.NestedStepSucceedsIff` | suite.go:498-528 | a matched nested step returns no error exactly when its before-hooks, its handler, its own nested steps and its after-hooks give none |
| `Multistep.NestedErrorIdentity` | suite.go:466-528 | the error handed to the step above has an identity exactly when the first failing nested step is ambiguous or undefined itself or its after-step hooks supply it |
| `Multistep.NestedFailsIff` | suite.go:466-528 | exactly when a failing nested step makes the step above fail: an ambiguous one always, an undefined one when strict, one that failed by itself unless its hooks forgive it, and any other when its hooks' error does |
| `Multistep.RunPendingParent` | suite.go:466-528 | a multistep whose one nested step is pending fails, although a pending step by itself would not |
| `Multistep.PreflightIsSound` | suite.go:427-528 | for an accepted step, nothing is reported missing exactly when it is matched and the full course of its nested steps meets only matched steps |
| `Multistep.LookThenRun` | suite.go:270-312 | so after a clean pre-flight, no undefined or ambiguous nested step is ever met while running |
| `Concurrent.StepKeepsInv` | run.go:87-164 | every step of dispatcher and scenarios keeps: slots count the scenarios in flight and the dispatcher's own, the shared log of each scenario is the shown part of its buffer, each scenario is handled at most once |
| `Concurrent.InFlightBounded` | run.go:100-112 | at most rate scenarios are in flight at any moment of any interleaving |
| `Concurrent.BarrierHolds` | run.go:151-164 | when after-suite handlers and Summary run, every scenario was handled exactly once and is over; the shared formatter was told the calls it made, in order, or none if it was passed over, which only another scenario's failure causes; the features' headings came in order, and Summary is last |
| `Concurrent.FailedIff` | run.go:133-138 | over every run, the suite has failed exactly when some scenario was finished with a failure |
| `Concurrent.NothingFailsNothingSkipped` | run.go:114-138 | if none fails, every scenario runs and the suite does not fail |
| `Concurrent.HeadingsComeFirst` | run.go:100-112 | a scenario's calls are shown only after the headings of its feature and of those before |
| `Concurrent.NeverStuck` | run.go:87-164 | dispatcher and scenarios never deadlock |
| `OnFlush.OnFlushFormatter.Flush` | internal/formatters/fmt_flushwrap.go:102-108 | the flush is a sequence of steps of the concurrent run; whatever others show in between, the shared formatter is told exactly the buffered calls for this scenario, in order |
| `OnFlush.RunPickle` | run.go:110-149 | one scenario's events, verdict, flush and release are steps of the concurrent run under any interference; the shared formatter ends with exactly its calls, or none if an earlier failure stopped it; the suite has failed afterwards exactly when it had before, this scenario failed or another one did meanwhile |
| `Dispatch.Shuffle` | run.go:89-95 | the seeded arrangement is a permutation that puts each scenario where the permutation says |
| `Dispatch.Arrange` | run.go:88-98 | the dispatched scenarios are those of the features, as they are without a seed, and with one each where its feature's permutation puts it |
| `Dispatch.FlatAppends` | run.go:87-98 | they are dispatched feature after feature |
| `Dispatch.RunInTurn` | run.go:100-154 | with one slot the executed scenarios are all of them, or with stopOnFailure exactly those through the first failure; the suite fails exactly when one of them failed |

## Left out

- Git commands, worktrees, processes and file systems: commits, merge outcomes, exit codes, worktree heads and atomic writes stand for them; failures are nondeterministic or parameters.
- JSON, YAML, SHA-256, timestamps and log digests: decoding undoes encoding and files keep their digests, so the identity fields of a checkpoint that only compare digests of unchanged files are constant; the baseline and the task result are kept.
- Locks, path checks and repository inspection before a run (`inspectRepository`, `createRunDirectory`): no later check depends on them.
- Evidence.ValidateTracking: leaves out the format of the baseline, an independent check of one text.
- Registry.TrustedRecords: a file that cannot be read, is misnamed or does not decode is one case, `Damaged`.
- Recording.RecordImplementation: the file is written whole or not at all.
- Compiler.MakeTask: the texts put around a prompt, there and by the incremental planner, are left out; they never make one blank, and no later step reads them.
- Retry feedback and task timeouts: texts; the timeout is an outcome of an attempt.
- Gherkin parsing, pickle expansion and scenario identifiers: features and scenarios are given, with what their names and contexts hash to; `path.Match` is a parameter of `Compiler`.
- literalFeatureGlob, the planner process and the decoding of its response: text handling and I/O.
- Identifiers are Dafny strings ordered character by character, which is Go's order on the ASCII identifiers that the checks admit.
- Durable.After: the journal is one atomic value per write, as writeJSONAtomic promises; a torn write is not modelled.
- Context values, attachments and error texts in the scenario runner: one user state is threaded through all user code, and only error identities are kept.
- Panics in after-step and after-scenario hooks: they leave the deferred function and end the whole run.
- MustInsertStepDefintionMatch and the arguments a step match collects: storage and reflection.
- Multistep.MaybeUndefined: handlers are pure and nesting is well founded, because otherwise the source itself need not terminate or agree with its own pre-flight.
- Panics of nested handlers while running: `Runner` covers a panic of the whole step.
- Concurrent.Enabled: a scenario may be passed over only after a failure was written; when the unsynchronised read of the flag sees that write is left open.
- Contiguity of different scenarios' calls in the shared formatter: the source does not promise it.
- The formatters' printing, tag filters, the command line, the builder and in-memory storage: they would only add easy members.
