# deeplo: the deployment control plane

deeplo watches git repositories and deploys Docker Compose projects to hosts over SSH. This project
models the part that decides which (project, host) pairs to deploy or tear down, runs those jobs
concurrently and records how they ended, and proves what that part is relied on for.

`dafny verify dfyconfig.toml` checks everything.

## How it is laid out

| files | what they hold |
|---|---|
| `RunnerModel`, `RunnerSafety`, `RunnerTheorems`, `RunnerOutcomes` | the job runner as a step relation: every goroutine of `Submit`, `dispatch`, `execute`, `finish` and `Stop`, cut wherever another one can run; its invariant; what follows for every run; what becomes of each job |
| `RunnerClass` | the `Runner` and `KeyedMutex` objects with their fields, each stretch of code proved to be its step |
| `DeploymentStore` | the record store: the class, and its history as a specification |
| `DeploySystem`, `DeployProgress`, `DeployCourse`, `Daemon` | the body of deploy and teardown jobs interleaved with runner and store at every access; that it never gets stuck and its runs are bounded; the course each body takes and why; the objects that refine it |
| `Shutdown` | the reconcile worker, the runner and `App.shutdown` interleaved |
| `ReconcileLoop` | the one-slot trigger loop together with the config reloader |
| `DeployConfig`, `Planner`, `Glob` | validation, indexes, planning, path matching |
| `Reconcile`, `ReconcilePass`, `Convergence`, `PassRuns` | the config diff, the code of one pass, what a pass does to the machines, and that it does so in every interleaving of its jobs |
| `Resume`, `Poller` | which targets are behind a commit; the poll cursor |
| `Executor`, `LostFiles`, `Shell` | the staged remote deploy on a file system where any command can fail half-way; two runs of it that lose a file; shell quoting |
| `Dedupe` | the webhook delivery ring |
| `Base`, `Jobs` | shared vocabulary |

Code that works by updating fields is a class or a method with the source's loops, proved equal to a
function; the properties are lemmas about these functions and about whole runs. A run is a list of
steps in any order in which each step was possible when it was taken.

## Where the code falls short of a promise

Each of these is a lemma with a concrete input, or an exact condition for all inputs.

- A persist file outlives any sequence of deploys exactly if none of them loses it
  (`Executor.PersistFileSurvives`). Two kinds do. The cleanup of the staging directory is best-effort
  and `[ ! -e ]` takes a leftover for a committed version: `LostFiles.LeftoverReplacesFile` runs two
  deploys after which the file is gone although the second reports success. A swap that stops with the
  live directory set aside loses it at the next deploy's `rm -rf` of `.old`:
  `LostFiles.SetAsideIsRemoved` runs that.
- A successful deploy leaves the bundle over the kept persist files exactly if every leftover in the
  staging directory was harmless: `Executor.StagedAsPromised`.
- A reconcile pass leaves exactly the new placements live if and only if no kept pair leaves something
  behind (`Convergence.PassConverges`). Changing only a host's address does:
  `Convergence.AddressChangeOrphans`.
- `isStalePoll` asks only the first mirror that holds both commits, so the cursor can move to a commit
  that the second mirror calls an ancestor; exactly when the two disagree:
  `Poller.RewindsOnlyOnDisagreement`, `Poller.MirrorsCanDisagree`. Two full clones disagree only when
  git itself fails, as `IsAncestor` then answers no.
- On a branch that only grows the cursor can go back in three ways: by a push of an older commit, by a
  poll of one when no mirror holds it and the cursor's commit, and by a poll that is overtaken, when a
  push or another poll moves the cursor between its read and its save of the repo state and the poll
  is held back, finds nothing new, or brings an older commit. Over every interleaving of polls and
  pushes, exactly then: `Poller.CursorNeverRewinds`, with a run for each in `Poller.LatePushRewinds`,
  `Poller.BlindPollRewinds` and `Poller.OvertakenPollRewinds`. Mirrors are taken to tell the order of
  two commits they both hold.
- The cursor can move on a step that dispatches nothing; exactly when no target of the repo is behind
  the commit (`Poller.MovesWithoutDispatch`, with a poll that does so in `Poller.QuietPoll`). Then every
  target is at the commit or up to date with it (`Poller.NothingBehindMeans`).
- A target that failed is dispatched by polls only once the cursor moves to another commit:
  `Poller.FailedWaitsForNextCommit`.
- Additions fall back from the mirror's head to the saved cursor; redeploys of changed projects look at
  the cursor only. The pass submits all it should exactly if it knows these commits:
  `ReconcilePass.ReconcileOnce`.
- A pair with an empty project or host name is never deduplicated: `DeploySystem.EmptyNameNeverSkipped`.
  `Validate` reports such names as blocking and no reload brings them in, but a config read from a local
  file at start-up is only warned about (`internal/daemon/daemon.go:99`), and with it such a project is
  planned and deployed although the warning says the daemon cannot deploy: `Planner.UnnamedIsPlanned`.
- Two pairs can share an index entry, exactly when one host's name goes on, after a slash, below the
  other's and the project of the shorter one makes up for the difference
  (`DeploymentStore.IndexKeysCollide`); a list of hosts is safe for every project exactly if no name
  goes on below another (`DeploymentStore.HostsKeepApart`).
- The empty delivery ID never leaves the map of the dedupe cache: `Dedupe.SizeBounded`. The webhook
  handler does not ask the cache about deliveries without an ID.

## Assumptions

- A store write succeeds and is one atomic update. The clock does not go backwards. A deployment ID
  keeps its project, host and start time and is new when a deploy starts.
- Host names contain no slash (project names may); project names contain no NUL.
- `Start` is called once, before `Stop`; results are received; a `DeployFunc` returns.
- A `Submit` that races `Stop` may leave an accepted job in the channel; it counts as queued.
- A diff of two commits lists exactly the paths that differ, when it answers at all.
- `filepath.Match` is any partial predicate on a pattern segment and a path segment; `path.Join` is any
  function of two strings; answers of docker, SSH, git and the config repository are arbitrary.

## Model

| member | source | states |
|---|---|---|
| RunnerTheorems.Limits | internal/runner/runner.go:140-224 | after any schedule at most the worker limit of jobs run, at most the host limit on each host, and at most one per (project, host) |
| RunnerTheorems.PairExclusive | internal/runner/runner.go:174-198 | two tasks with one lock key are never both past the pair lock |
| RunnerTheorems.SomebodyMoves | internal/runner/runner.go:140-198 | whichever task is in flight, some internal step is possible: the order global, host, pair excludes deadlock |
| RunnerTheorems.NoDeadlock | internal/runner/runner.go:102-198 | a state without internal steps has no job in flight, an empty queue unless Stop began, and if Stop was called it has returned |
| RunnerTheorems.RunLength | internal/runner/runner.go:102-209 | a measure over queue, phases and stop stage pays for every step: runs are bounded by their submissions |
| RunnerTheorems.StopReturns | internal/runner/runner.go:102-122 | once Stop has begun every run is finite, and one that cannot go on has released the wait and closed the results |
| RunnerTheorems.CancelledNeverRuns | internal/runner/runner.go:140-186 | a job cancelled before the last look at its context never starts in any continuation and never succeeds |
| RunnerTheorems.OnCompleteOnce | internal/runner/runner.go:200-209 | OnComplete happens at most once per job, exactly once for a finished one, never for a rejected, queued or dropped one |
| RunnerTheorems.ClosedAfterLastSender | internal/runner/runner.go:102-122 | once results is closed nobody is left, or comes later, who could send on it |
| RunnerTheorems.Conservation | internal/runner/runner.go:84-209 | accepted jobs are the queued, the in-flight, the dropped and the finished ones |
| RunnerOutcomes.FailsOnlyForAReason | internal/runner/runner.go:84-172 | over every schedule a job that failed unrun, or that Submit refused, was cancelled or met the stop, and a job is dropped only by the drain of Stop |
| RunnerOutcomes.SlotHoldersIgnoreStop | internal/runner/runner.go:174-186 | a job that waits for the pair lock or holds it heeds its context only: unless cancelled it goes on to run, Stop or not |
| RunnerOutcomes.OutcomeIsReturned | internal/runner/runner.go:188-209 | a job has succeeded exactly if its DeployFunc returned without error, has run and failed exactly if that returned an error, and no DeployFunc returns twice |
| RunnerOutcomes.EveryJobRuns | internal/runner/runner.go:124-209 | without Stop a run that cannot go on has run every job that was not cancelled, with the outcome its DeployFunc returned |
| RunnerOutcomes.JobsAreSubmitted | internal/runner/runner.go:84-96 | the jobs are the submitted ones, in order |
| RunnerOutcomes.QueueIsFifo | internal/runner/runner.go:124-138 | what left the job channel followed by what is in it is what went in |
| RunnerOutcomes.ResultsInOrder | internal/runner/runner.go:200-209 | results are received in the order they were sent, none lost or made up |
| RunnerOutcomes.ResultIsSent | internal/runner/runner.go:200-209 | a finished job has sent its result at most once, and exactly once unless Stop closed its channel |
| RunnerOutcomes.GrantedExactly | internal/runner/runner.go:62-76 | a waiting job can take its slot or lock exactly while fewer jobs hold it than MaxWorkers (or the number of CPUs), MaxHostConcurrency (or one), and one |
| RunnerSafety.StepKeepsInv | internal/runner/runner.go:84-224 | every step keeps: each semaphore's and lock's tokens equal the number of tasks in the phases that hold them, queue and wait group count exactly, Stop's stages are in order |
| RunnerSafety.RunKeepsInv | internal/runner/runner.go:84-224 | so does every run |
| Jobs.LockKeyIsPair | internal/runner/runner.go:174-178 | two jobs use one lock exactly if they name the same pair |
| RunnerClass.KeyedMutex.Lock | internal/runner/keyed_mutex.go:17-37 | takes the key's one token, creating the key with a token when it is new |
| RunnerClass.Runner.Submit | internal/runner/runner.go:84-96 | refuses exactly after Stop began, else a submitting task appears |
| RunnerClass.Runner.Dispatch | internal/runner/runner.go:124-138 | takes the oldest queued job, counts it in the wait group before its goroutine starts |
| RunnerClass.Runner.GetHostSemaphore | internal/runner/runner.go:211-224 | a host keeps its semaphore; a new one is made empty |
| RunnerClass.Runner.Perform | internal/runner/runner.go:84-224 | the object performs every possible step exactly as the step relation does |
| RunnerClass.Runner.Run | internal/runner/runner.go:62-224 | so for every interleaving the object ends in the predicted state with the invariant |
| DeploymentStore.IndexAgreesWithHistory | internal/state/filestore.go:38-75 | after any saves, deletes and mark-stale an entry is the last written among those with the greatest start since the last delete, equals its run file, and is absent exactly if nothing was written |
| DeploymentStore.MarkedNoneRunning | internal/state/filestore.go:203-241 | marking leaves no entry running, changes exactly the running ones, adds and removes none |
| DeploymentStore.IndexKeySplits | internal/state/filestore.go:276-278 | distinct pairs have distinct keys when host names have no slash |
| DeploymentStore.IndexKeysCollide | internal/state/filestore.go:276-278 | two different pairs share a key exactly if the longer host name is the shorter one, a slash and s, and the shorter one's project is s, a slash and the other project |
| DeploymentStore.HostsKeepApart | internal/state/filestore.go:276-278 | all pairs on a set of hosts have keys of their own exactly if no host's name goes on below another's |
| DeploymentStore.FileStore.SaveDeployment | internal/state/filestore.go:38-57 | the new state is the old history with this write; refused exactly for an ID with a separator |
| DeploymentStore.FileStore.UpdateProjectsIndex | internal/state/filestore.go:59-75 | replaces the entry exactly if there is none, it is the same deployment, or it did not start later |
| DeploymentStore.FileStore.GetLatestDeployment | internal/state/filestore.go:124-147 | absent, unreadable for a record with an empty ID or name, else the entry |
| DeploymentStore.FileStore.DeleteLatestDeployment | internal/state/filestore.go:178-201 | removes the pair's entry and nothing else, tells whether there was one, leaves run files |
| DeploymentStore.FileStore.MarkStaleRunningDeploymentsFailed | internal/state/filestore.go:203-241 | marks every running entry and its run file, and counts them |
| DeploymentStore.FileStore.ShouldSkipDeploy | internal/engine/deploy.go:24-34 | true exactly for a readable record at the commit that is running or successful |
| DeploySystem.NoRedundantDeploy | internal/engine/handler.go:66-94 | in every run, of two consecutive deploy runs of a pair at one commit where the later is no redeploy, the earlier failed or a teardown cleared the record in between |
| DeploySystem.UnlockedNotRunning | internal/engine/deploy.go:37-142 | in every run, while no job holds a pair's lock its latest record is not running |
| DeploySystem.StepKeepsInv | internal/engine/handler.go:66-94 | every step of runner, bodies, store and clock keeps log, records and program counters in agreement |
| DeploySystem.EmptyNameNeverSkipped | internal/state/filestore.go:280-294 | the dedup never applies to a pair with an empty name |
| Planner.UnnamedIsPlanned | internal/daemon/daemon.go:99-101 | a config whose project has no name is invalid, yet lists and wants that project's target |
| DeployProgress.BodyMoves | internal/engine/handler.go:69-87 | a job's body can go on from wherever it stands |
| DeployProgress.NoDeadlock | internal/runner/runner.go:102-198 | when nothing can happen by itself no job is in flight, no body under way, no record running, and Stop has returned if it was called |
| DeployProgress.EveryRunSettles | internal/engine/handler.go:66-94 | every run of runner, bodies and store is bounded by its submissions and clock ticks, and one that cannot go on has finished every job it took on |
| DeployCourse.EveryBodyKeepsCourse | internal/engine/handler.go:66-94 | over every run each job's body does, in order, what the source does: look at the config, look at the record, save, deploy, save again; or come home early; and the runner reports the outcome it returned |
| DeployCourse.UnwantedIsNotDeployed | internal/engine/handler.go:70-74 | a body that was told the config no longer has its target never saves a run |
| DeployCourse.EndsWithoutRunForAReason | internal/engine/handler.go:70-80 | a deploy that ended without a run was told so or, being no redeploy, met a readable running or successful record at its commit; one that failed had a run that failed |
| DeployCourse.ReAddedIsNotTornDown | internal/engine/reconcile.go:112-116 | a teardown that was told the config has the directory again tears nothing down |
| DeployCourse.EveryDeployIsSeenThrough | internal/engine/handler.go:66-94 | without Stop a run of the daemon that cannot go on has sent every uncancelled deploy home for such a reason or run it to the end |
| DeployCourse.RecordGoesOnlyByTeardown | internal/engine/reconcile.go:117-124 | a pair's latest record goes away exactly by a teardown of the pair that succeeded and was to remove the state |
| DeployCourse.StartIsRecorded | internal/engine/deploy.go:52-65 | what the first save writes, field by field |
| DeployCourse.EndIsRecorded | internal/engine/deploy.go:128-141 | what the second save writes, field by field |
| Daemon.Daemon.constructor | internal/state/filestore.go:203-241 | marking stale records at start-up gives a start from which the run theorems hold |
| Daemon.Daemon.LookRecord | internal/engine/handler.go:76-80 | the second dedup is the model's step |
| Daemon.Daemon.AskDesired | internal/engine/handler.go:70-74 | the body goes on exactly if the current config has a directory for the pair |
| Daemon.Daemon.AskReAdded | internal/engine/reconcile.go:112-116 | the teardown goes on exactly if the current config does not have the pair in the directory |
| Daemon.Daemon.SaveRunning | internal/engine/deploy.go:52-65 | the running record is saved as the model's step says |
| Daemon.Daemon.SaveFinal | internal/engine/deploy.go:128-141 | the same record is saved again as successful, or failed with the message |
| Daemon.Daemon.FinishTeardown | internal/engine/reconcile.go:112-124 | the record is cleared exactly after a successful teardown that is to remove the state |
| Daemon.Daemon.Run | internal/engine/handler.go:66-94 | for every interleaving the objects end as the model predicts, with all invariants |
| Shutdown.NoTeardownDropped | internal/daemon/daemon.go:336-390 | in every interleaving no teardown is dropped, and once Stop began each was refused or had its OnComplete exactly once |
| Shutdown.NeverStuckWaiting | internal/engine/reconcile.go:98-137 | when nothing can move the worker is between passes or gone, and after a shutdown request it is gone and Stop has returned |
| Shutdown.EveryPassJobIsSubmitted | internal/engine/reconcile.go:98-137 | over every run the runner has been given exactly the jobs of the passes and of other submitters, but for what the worker is still to submit |
| Shutdown.ShutdownCompletes | internal/daemon/daemon.go:336-390 | runs are bounded by outside events, and one that cannot go on has released both waits |
| Shutdown.StopFirstLosesTeardown | internal/runner/runner.go:102-122 | without the wait for the worker an accepted teardown can be dropped, and then no continuation completes it |
| ReconcileLoop.NoLostUpdate | internal/daemon/reconcile_loop.go:45-94 | for every interleaving, when the worker idles and nothing is on its way the applied baseline is the current config or that one is blocked |
| ReconcileLoop.ReconcilesFormChain | internal/daemon/reconcile_loop.go:68-94 | each reconcile starts from the config the one before applied, for an unblocked and different config; and nothing else changes the baseline once there is one |
| ReconcileLoop.StepWorks | internal/daemon/reconcile_loop.go:56-94 | every step but a config swap uses up work, so the loop comes to rest |
| ReconcileLoop.RestsOnlyWhenQuiet | internal/daemon/reconcile_loop.go:56-66 | it rests exactly when the worker idles with no trigger and no swap under way |
| ReconcileLoop.Loop.ApplyConfigChange | internal/daemon/reloader.go:83-112 | swaps a config in exactly if it differs from the current one and has no blocking issue |
| ReconcileLoop.Loop.Trigger | internal/daemon/reconcile_loop.go:45-50 | fills the slot or leaves it full |
| ReconcileLoop.Loop.PassDecides | internal/daemon/reconcile_loop.go:68-94 | adopts, skips or reconciles as the model does |
| ReconcileLoop.Loop.PassFinishes | internal/daemon/reconcile_loop.go:86-94 | the reconciled config becomes the baseline |
| ReconcileLoop.Loop.Run | internal/daemon/reconcile_loop.go:45-94 | every interleaving leaves the object as the model predicts, and at rest with the current config applied or blocked |
| DeployConfig.Validate | internal/config/validate.go:23-131 | reports exactly the issues the config has |
| DeployConfig.BlockingIssues | internal/config/validate.go:133-141 | keeps exactly the blocking ones |
| DeployConfig.ValidMeans | internal/config/validate.go:23-131 | without blocking issues names are unique and every reference resolves |
| DeployConfig.ValidExactly | internal/config/validate.go:23-169 | a config has no blocking issue exactly if it is sound, field by field: names, references, ports, trigger modes, watch path patterns, persist file paths |
| DeployConfig.IndexLastWins | internal/config/config.go:50-72 | an index knows exactly the names there are, and the last entry wins |
| DeployConfig.FirstIsLast | internal/engine/desired.go:20-46 | with unique names the first match is the index entry |
| Glob.MatchParts | internal/planner/planner.go:141-168 | true exactly if the path splits so that every ** takes some run of segments and every other pattern segment matches one |
| Glob.MatchPath | internal/planner/planner.go:135-139 | the same for strings split at slashes |
| Glob.TrailingStar | internal/planner/planner.go:141-168 | a pattern that ends in ** matches exactly the paths that begin with what the rest matches |
| Planner.AllTargetsComplete | internal/planner/planner.go:40-59 | for a valid config AllTargets lists every (project, listed host) with its own entries and nothing else |
| Planner.AllTargets | internal/planner/planner.go:40-59 | the loops list the targets in config order |
| Planner.TargetsForRepo | internal/planner/planner.go:62-70 | the targets of the repo, in order |
| Planner.Plan | internal/planner/planner.go:73-106 | forced targets as they are, else the targets of the repo's touched projects |
| Planner.ProjectMatchesChangedFiles | internal/planner/planner.go:110-133 | true exactly without watch paths, without a diff, or if some changed file matches some watch path |
| Planner.PlanMeans | internal/planner/planner.go:73-133 | a target is planned exactly if it is forced, or nothing is forced, its project is of the event's repo and the diff is unknown, the project has neither watch paths nor directory, or some changed file concerns it |
| Planner.FilesBelowConcern | internal/planner/planner.go:86-89 | without watch paths every file below the project's directory concerns it, at any depth |
| Planner.OnlyFilesBelowConcern | internal/planner/planner.go:86-89 | and no other does |
| Planner.TouchedMeansChosen | internal/planner/planner.go:110-133 | the same for the test of one project; explicit watch paths alone decide when there are any |
| Planner.InPlanUpTo | internal/planner/planner.go:73-106 | a target is planned exactly if its project is of the repo and touched |
| Planner.UnknownDiffPlansAll | internal/planner/planner.go:73-106 | an unknown diff plans what TargetsForRepo lists |
| Planner.PlanMonotone | internal/planner/planner.go:73-133 | a plan only grows with the changed files |
| Planner.DesiredRemoteDir | internal/engine/desired.go:20-46 | the first-match scans find the directory, or nothing when an entry is missing |
| Planner.TargetDesired | internal/engine/desired.go:11-14 | true exactly if there is a desired directory |
| Planner.DesiredIsListed | internal/engine/desired.go:11-46 | for a valid config a pair is desired in a directory exactly if AllTargets places it there |
| Planner.FindFirstIsIndex | internal/engine/desired.go:20-46 | on unique names scans and indexes agree on every name |
| Reconcile.FindTeardownTargets | internal/engine/reconcile.go:31-77 | finds exactly the old entries whose directory the new config does not keep |
| Reconcile.FindAddedDeployTargets | internal/engine/reconcile.go:188-205 | finds exactly the new targets of pairs the old config does not list |
| Reconcile.FindChangedTargets | internal/engine/reconcile.go:274-328 | groups by repo exactly the targets of old pairs whose compared fields differ |
| Reconcile.TeardownIsDifference | internal/engine/reconcile.go:31-77 | for valid configs the teardowns are the old placements minus the new ones, and state is removed exactly if the pair is gone |
| Reconcile.TeardownsExactly | internal/engine/reconcile.go:31-77 | each teardown as it is handed on: an old target not kept in its place, with the old host, directory and compose files |
| Reconcile.AddedIsDifference | internal/engine/reconcile.go:188-205 | the additions are the targets of pairs the old config does not place |
| Reconcile.ChangedIsDifference | internal/engine/reconcile.go:257-328 | the changes are the targets of pairs both place whose host is not the same, or whose project is not the same in anything but repo, targets and watch paths |
| Reconcile.ComparedFields | internal/engine/reconcile.go:257-270 | that is what the compared fields amount to |
| Reconcile.AddedOrChanged | internal/engine/reconcile.go:188-328 | no pair is both |
| Reconcile.NewPlacementDeployed | internal/engine/reconcile.go:188-328 | every new placement is an addition or a change, so a pair that moved is redeployed |
| ReconcilePass.ReconcileRemovals | internal/engine/reconcile.go:81-137 | submits exactly the teardowns whose pair has a record |
| ReconcilePass.ReconcileAdditions | internal/engine/reconcile.go:209-255 | forces exactly the additions of repos with a known commit, at the mirror's head or else the cursor |
| ReconcilePass.ReconcileProjectChanges | internal/engine/reconcile.go:274-356 | forces exactly the changes of repos with a cursor, at the cursor, as redeploys |
| ReconcilePass.JobsAreUnskipped | internal/engine/handler.go:55-103 | the push handler submits exactly the planned targets without a running or successful record at the commit |
| ReconcilePass.SubmitsExactly | internal/engine/handler.go:56-62 | when the first dedup lets a target through, field by field |
| ReconcilePass.PushHandler | internal/engine/handler.go:36-103 | plan, first dedup and submission, in order |
| ReconcilePass.ReconcileOnce | internal/daemon/daemon.go:172-176 | while nobody else makes records on the hosts of the two configs, the pass submits every addition and change exactly if it knows the commits it looks for, and then takes records to the new config, and live placements too exactly if nothing is orphaned |
| ReconcilePass.RecordsHaveStore | internal/state/filestore.go:276-278 | whatever the projects are called, some store holds exactly given records on hosts of which none goes on below another |
| Convergence.PassConverges | internal/engine/reconcile.go:81-356 | for every order of the jobs within each phase: records become those of the new config, and live placements do if and only if there are no orphans |
| PassRuns.PhaseIsSomeOrder | internal/runner/runner.go:174-198 | jobs of a phase that run side by side, each pair's one at a time, do what they do one after the other in some order |
| PassRuns.PhaseEnds | internal/runner/runner.go:140-198 | a phase takes at most three steps for each job, and stops only when all have finished |
| PassRuns.PassConvergesInterleaved | internal/engine/reconcile.go:81-356 | the same convergence for every interleaving of the removals and then of the deploys |
| Convergence.LiveAfterPass | internal/engine/reconcile.go:81-356 | what is live afterwards is what was deployed plus the kept placements that nothing ran over |
| Convergence.KeptAddressesSuffice | internal/engine/reconcile.go:31-77 | hosts of kept pairs keeping their address leave no orphans |
| Convergence.AddressChangeOrphans | internal/engine/reconcile.go:44-60 | a host whose address alone changes leaves the old machine running the project |
| Resume.TargetUntouchedSinceLastDeploy | internal/engine/resume.go:112-153 | the decision chain, with every reason to answer no |
| Resume.PendingTargetsForHead | internal/engine/resume.go:85-106 | the targets that are neither skipped nor untouched, in order |
| Resume.PendingDropsNothing | internal/engine/resume.go:85-153 | a target is left out only if running or done at the head, or equal to its last success on every file it watches |
| Resume.WatchesMeans | internal/engine/resume.go:140-153 | the watched files are those that concern the project |
| Resume.UpToDateIsLeftOut | internal/engine/resume.go:112-153 | and such a target is left out when the diff answers |
| Resume.ResumeIncompleteDeploys | internal/engine/resume.go:28-82 | forces exactly the configured targets behind the known commit of their repo, in an event of that repo for that commit: the mirror's head if there is one, else the cursor |
| Poller.RepoCursor.HandleSHA | internal/poller/poller.go:104-193 | when the poll stays, spelled out, it notes the commit and dispatches nothing; else the cursor moves and what is pending is forced |
| Poller.PollMeans | internal/poller/poller.go:104-213 | the same as a statement about the functions of the runs below |
| Poller.RepoCursor.HandlePush | internal/engine/handler.go:143-210 | a push of an unknown repo, on another branch, not enabled or with a config repo that cannot be reloaded does nothing; any other is handed on at its commit, with its files unless nothing was deployed before, and moves the cursor |
| Poller.PushMeans | internal/engine/handler.go:143-210 | the same as a statement about the functions of the runs below |
| Poller.IsStalePoll | internal/poller/poller.go:198-213 | the first mirror holding both commits decides |
| Poller.RepoCursor.FinishSHA | internal/poller/poller.go:112-193 | the same after a read that may be out of date: the save goes on from what was read |
| Poller.RepoCursor.Run | internal/poller/poller.go:104-193 | however polls, cut between read and save, and pushes interleave, the object ends as the runs say |
| Poller.CursorIsLastMove | internal/poller/poller.go:104-193 | after any interleaving the cursor is what the last save wrote: a push's commit, the commit of a poll that was not held back, else what that poll had read; or what it was at the start |
| Poller.CursorNeverRewinds | internal/poller/poller.go:104-213 | over every interleaving of polls, cut between read and save, and pushes on one line of history the cursor never goes back exactly if no older commit comes by a push or by a poll of which no mirror holds both commits, and no poll is overtaken |
| Poller.LatePushRewinds | internal/engine/handler.go:175-195 | a push of an older commit takes the cursor back |
| Poller.BlindPollRewinds | internal/poller/poller.go:198-213 | so does a poll whose mirror lacks the cursor's commit |
| Poller.OvertakenPollRewinds | internal/poller/poller.go:112-128 | and a poll that finds nothing new undoes a push that came between its read and its save |
| Poller.CloneOfCursorSuffices | internal/poller/poller.go:198-213 | while a mirror holds the cursor and all before it, a poll that is not overtaken does not take the cursor back, also when the new commit has yet to be fetched |
| Poller.RewindsOnlyOnDisagreement | internal/poller/poller.go:198-213 | a poll moves the cursor to a commit some mirror calls an ancestor exactly if the mirrors disagree |
| Poller.MirrorsCanDisagree | internal/poller/poller.go:198-213 | there is such a poll |
| Poller.AdvanceDispatchesAllBehind | internal/poller/poller.go:146-193 | when the cursor moves every configured target of the repo is dispatched, at the head, or equal to it on what it watches, whatever the old cursor |
| Poller.MovesWithoutDispatch | internal/poller/poller.go:171-182 | a poll that moves the cursor dispatches nothing exactly if no target of the repo is pending |
| Poller.NothingBehindMeans | internal/poller/poller.go:169-182 | then every target is at the head or equal to it on what it watches |
| Poller.QuietPoll | internal/poller/poller.go:171-182 | a poll that moves the cursor past a configured target and dispatches nothing |
| Poller.FailedWaitsForNextCommit | internal/poller/poller.go:104-193 | a poll dispatches a failed target exactly if it is not held back: readable, another commit than the cursor's, not stale, reloaded and fetched |
| Executor.CommandKeepsProper | internal/compose/executor.go:45-132 | no command, finished or not, makes a name both a file and a directory |
| Executor.PersistedMeans | internal/compose/executor.go:75-89 | copying adds exactly the listed live files whose name was free |
| Executor.StagedAsPromised | internal/compose/executor.go:56-89 | what is staged is the bundle over the kept persist files exactly if every leftover is harmless |
| Executor.PromisedMeans | internal/compose/executor.go:66-89 | that promise file by file: the last bundle file of a name, else a listed live file the bundle has nothing for |
| Executor.Executor.Deploy | internal/compose/executor.go:45-132 | for every pattern of failures: at every state any command may pass through the previous contents are at live or .old or the staged ones are live; the swap is sent only after a preflight that succeeded; a preflight that fails ends the deploy with live and .old untouched; every error names the one command that failed, and without one every file was uploaded, every persist file looked at, and preflight, swap and up done; success means the staged tree is live and all reported services run |
| Executor.DeployCourse | internal/compose/executor.go:45-132 | whatever the answers, the commands are sent in their order up to the first that matters to fail, with its cleanup, and the error is that one's or the verdict on the services |
| Executor.CoursePromises | internal/compose/executor.go:45-132 | what that order of commands promises |
| Executor.RunningMeans | internal/compose/executor.go:125-129 | running means the state "running", each letter in either case |
| Executor.FilesOfMeans | internal/compose/executor.go:66-73 | the uploads are the bundle's files in order, each under its remote name with its local content |
| Executor.NameOfJoin | internal/compose/executor.go:67 | a path of proper segments has them as its name |
| Executor.Executor.Stage | internal/compose/executor.go:56-95 | from clearing staging to the preflight only the staging directory changes |
| Executor.Executor.SwapIn | internal/compose/executor.go:97-109 | where the three directories are after the swap or its interruption |
| Executor.Executor.Verify | internal/compose/executor.go:120-131 | success exactly if the report could be read and every service is running, in any letter case |
| Executor.SwapLosesNothing | internal/compose/executor.go:97-107 | in every state the swap may pass through, .old half removed included, the previous contents are at live or .old |
| Executor.AttemptKeepsFile | internal/compose/executor.go:75-107 | an attempt keeps an uncommitted persist file exactly if it neither stops with live set aside nor shadows it by a leftover |
| Executor.PersistFileSurvives | internal/compose/executor.go:75-107 | over any sequence of attempts, whatever the host writes in between, each keeps the file with the content it finds exactly if none loses it |
| Executor.AtomicSwapKeepsFile | internal/compose/executor.go:75-107 | with the swap taken as atomic each keeps it exactly if no deploy that replaced the live directory found a leftover in its place |
| Executor.CleanAtomicLosesNothing | internal/compose/executor.go:56-107 | and with staging directories that were cleared it survives every sequence |
| LostFiles.LeftoverReplacesFile | internal/compose/executor.go:56-89 | two deploys of a bundle with a compose file, joined by the course of their commands: the first fails at the copy, the second succeeds and the file's content is nowhere |
| LostFiles.SetAsideIsRemoved | internal/compose/executor.go:97-109 | two deploys joined likewise: the first stops in the swap, the second succeeds and removes the only copy |
| LostFiles.DeployTwice | internal/compose/executor.go:45-132 | the executor run twice ends as that course of commands says, for any answers |
| Shell.QuoteRoundTrip | internal/compose/executor.go:222-224 | a quoted argument is read back, by the quoting rules of POSIX.1-2017 Shell Command Language 2.2.1 and 2.2.2, as that one word, for every string without NUL |
| Shell.BuildCommand | internal/compose/executor.go:174-185 | the loops print the parts joined by spaces |
| Shell.CommandRoundTrip | internal/compose/executor.go:174-185 | the printed command is read back as exactly the intended words for any directory, project and compose file names |
| Shell.UpCallIsPlain | internal/compose/executor.go:112 | the words of the up call need no quoting |
| Shell.ShortCallsArePlain | internal/compose/executor.go:32-165 | nor do those of config, ps and down |
| Dedupe.DedupeCache.Seen | internal/webhook/github/dedupe.go:29-44 | true exactly if the ID is among the last capacity accepted ones (an empty ID: was ever accepted); an ID that was not seen is accepted |
| Dedupe.SeenIsRing | internal/webhook/github/dedupe.go:29-44 | the map is the set of non-empty ring slots, and the empty ID once accepted |
| Dedupe.SizeBounded | internal/webhook/github/dedupe.go:29-44 | the map is within capacity exactly as long as no empty ID has left the window |
| Dedupe.RedeliveryCaught | internal/webhook/github/dedupe.go:29-44 | over any sequence a redelivery is refused unless capacity others were accepted since |
| Dedupe.ForgottenAfterWindow | internal/webhook/github/dedupe.go:29-44 | after that it passes again |
| Dedupe.AcceptedSpaced | internal/webhook/github/dedupe.go:29-44 | equal accepted IDs are at least capacity apart |

## Left out

- SSH, SFTP, git, HTTP, the socket, webhook signatures and JSON: their answers are parameters.
- JSON files, atomic writes and their failures: a store write is one map update that succeeds.
- Docker's `config`, `up`, `ps` and `down`: arbitrary answers; containers writing into the live directory during a deploy.
- Empty directories, links, permissions and `..` in file names on the remote side.
- The text of the copy, swap and cleanup commands of `Deploy`: their effects are modelled, their printing is covered by the quoting round trip alone.
- Deployment fields that no decision reads: branch, trigger source, report token and status; run logs and the reporter.
- Deploy timeouts and the grace timer: a job may fail or be cancelled at any step.
- Poller.RepoCursor.HandlePush: one step, as what it saves does not depend on what it read; whether its diff counts as unknown does, and is decided by that step's state.
- PassRuns.PassConvergesInterleaved: all jobs of the pass succeed, and the config does not change meanwhile; the record saved when a deploy starts is left to `DeploySystem`.
- Executor.PersistFileSurvives: what containers write while a deploy is under way.
- ReconcilePass.PushHandler: the summary goroutine that logs the results.
- DeployConfig.Validate: the wording of the issues.
- The managed watcher, repo watching intervals, YAML parsing, defaults and bootstrap of the config, the command line.
- `ListDeployments`, `ListLatestDeployments` and retention: they only read or delete run files.
