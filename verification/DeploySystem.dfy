/** Push handler, record store and runner together: the body that the runner executes for a job
    (internal/engine/handler.go, deploy.go and the teardown of reconcile.go), interleaved at every
    access to the store and the config with everything else the runner may do. */
module DeploySystem {
  import opened Base
  import opened Jobs
  import RM = RunnerModel
  import RS = RunnerSafety
  import RT = RunnerTheorems
  import opened DeploymentStore

  /** Where the body of a running job stands. */
  datatype Pc =
    | Begin
    | Checked                    // the config still wants the deploy
    | MayDeploy                  // and the record does not make it redundant
    | Deploying(d: Deployment)   // the running record is saved
    | TearingDown                // the config does not want the directory back
    | Returned(ok: bool)

  datatype Event =
    | Started(project: string, host: string, sha: string, redeploy: bool, id: string)
    | Ended(project: string, host: string, id: string, ok: bool)
    | Cleared(project: string, host: string)

  /** `config` answers are oracle values: the config may change at any time. */
  datatype Action =
    | RunnerStep(a: RM.Action)
    | LookDesired(i: nat, desired: bool)
    | LookRecord(i: nat)
    | SaveRunning(i: nat, id: string)
    | SaveFinal(i: nat, ok: bool, message: string)
    | LookReAdded(i: nat, reAdded: bool)
    | FinishTeardown(i: nat, ok: bool)
    | Tick(now: int)

  datatype Sys = Sys(
    runner: RM.State,
    files: Files,
    pcs: map<nat, Pc>,
    clock: int,
    log: seq<Event>)

  function JobOf(s: Sys, i: nat): Job
    requires i < |s.runner.tasks|
  {
    s.runner.tasks[i].job
  }

  predicate InBody(s: Sys, i: nat, pc: Pc) {
    i < |s.runner.tasks| && i in s.pcs && s.pcs[i] == pc
  }

  predicate Enabled(s: Sys, a: Action) {
    match a
    case RunnerStep(r) =>
      && RM.Enabled(s.runner, r)
      && (r.DeployReturns? ==> InBody(s, r.i, Returned(r.ok)))
    case LookDesired(i, _) => InBody(s, i, Begin) && JobOf(s, i).work.Deploy?
    case LookRecord(i) => InBody(s, i, Checked)  && JobOf(s, i).work.Deploy?
    case SaveRunning(i, id) =>
      InBody(s, i, MayDeploy) && JobOf(s, i).work.Deploy? && id != "" && ValidId(id) && id !in s.files.runs
    case SaveFinal(i, _, _) => i < |s.runner.tasks| && i in s.pcs && s.pcs[i].Deploying?
    case LookReAdded(i, _) => InBody(s, i, Begin) && JobOf(s, i).work.Teardown?
    case FinishTeardown(i, _) => InBody(s, i, TearingDown) && JobOf(s, i).work.Teardown?
    case Tick(now) => s.clock <= now
  }

  function StartRecord(job: Job, id: string, now: int): Deployment
    requires job.work.Deploy?
  {
    Deployment(id, job.project, job.host, job.work.sha, StatusRunning, now, None, "")
  }

  function FinalRecord(d: Deployment, ok: bool, message: string, now: int): Deployment {
    if ok then d.(status := StatusSuccess, completedAt := Some(now))
    else d.(status := StatusFailed, completedAt := Some(now), error := message)
  }

  function NextPcs(s: Sys, r: RM.Action): map<nat, Pc>
    requires RM.Enabled(s.runner, r)
  {
    if r.StartOrSkip? && !s.runner.tasks[r.i].cancelled then s.pcs[r.i := Begin]
    else if r.DeployReturns? then s.pcs - {r.i}
    else s.pcs
  }

  function Next(s: Sys, a: Action): Sys
    requires Enabled(s, a)
  {
    match a
    case RunnerStep(r) => s.(runner := RM.Next(s.runner, r), pcs := NextPcs(s, r))
    case LookDesired(i, desired) => s.(pcs := s.pcs[i := if desired then Checked else Returned(true)])
    case LookRecord(i) =>
      var job := JobOf(s, i);
      var skip := !job.work.redeploy && ShouldSkip(s.files, job.project, job.host, job.work.sha);
      s.(pcs := s.pcs[i := if skip then Returned(true) else MayDeploy])
    case SaveRunning(i, id) =>
      var job := JobOf(s, i);
      var d := StartRecord(job, id, s.clock);
      s.(files := SavedFiles(s.files, d), pcs := s.pcs[i := Deploying(d)],
         log := s.log + [Started(job.project, job.host, job.work.sha, job.work.redeploy, id)])
    case SaveFinal(i, ok, message) =>
      var d := s.pcs[i].d;
      s.(files := SavedFiles(s.files, FinalRecord(d, ok, message, s.clock)), pcs := s.pcs[i := Returned(ok)],
         log := s.log + [Ended(d.project, d.host, d.id, ok)])
    case LookReAdded(i, reAdded) => s.(pcs := s.pcs[i := if reAdded then Returned(true) else TearingDown])
    case FinishTeardown(i, ok) =>
      var job := JobOf(s, i);
      var s' := s.(pcs := s.pcs[i := Returned(ok)]);
      if ok && job.work.removeState
      then s'.(files := DeletedFiles(s.files, job.project, job.host), log := s.log + [Cleared(job.project, job.host)])
      else s'
    case Tick(now) => s.(clock := now)
  }

  // ---- The log, and what it says about a pair ----

  datatype View = NoRun | Gone | Ran(id: string, sha: string, end: Option<bool>)

  function ViewStep(v: View, project: string, host: string, e: Event): View {
    if e.project != project || e.host != host then v
    else
      match e
      case Started(_, _, sha, _, id) => Ran(id, sha, None)
      case Cleared(_, _) => Gone
      case Ended(_, _, id, ok) => if v.Ran? && v.id == id then v.(end := Some(ok)) else v
  }

  /** The last thing the log says happened to a pair. */
  function ViewOf(log: seq<Event>, project: string, host: string): View {
    if log == [] then NoRun
    else ViewStep(ViewOf(log[..|log| - 1], project, host), project, host, log[|log| - 1])
  }

  predicate Named(project: string, host: string) {
    project != "" && host != ""
  }

  /** A run may not repeat the pair's last run unless that one failed, it is a redeploy, or a
      teardown cleared the record. */
  predicate NotRedundant(before: seq<Event>, e: Event) {
    e.Started? && !e.redeploy && Named(e.project, e.host) ==>
      var v := ViewOf(before, e.project, e.host);
      v.Ran? && v.sha == e.sha ==> v.end == Some(false)
  }

  ghost predicate GoodLog(log: seq<Event>) {
    forall n :: 0 <= n < |log| ==> NotRedundant(log[..n], log[n])
  }

  // ---- The invariant ----

  function StatusOf(end: Option<bool>): Status {
    match end
    case None => StatusRunning
    case Some(ok) => if ok then StatusSuccess else StatusFailed
  }

  predicate Agrees(v: View, f: Files, project: string, host: string) {
    var key := IndexKey(project, host);
    match v
    case NoRun => true
    case Gone => key !in f.latest
    case Ran(id, sha, end) =>
      && key in f.latest && f.latest[key].id == id && f.latest[key].commitSha == sha
      && f.latest[key].project == project && f.latest[key].host == host
      && f.latest[key].status == StatusOf(end)
  }

  ghost predicate PcOk(s: Sys, i: nat)
    requires i < |s.runner.tasks| && i in s.pcs
  {
    var job := JobOf(s, i);
    match s.pcs[i]
    case Begin => true
    case Checked => job.work.Deploy?
    case MayDeploy =>
      && job.work.Deploy?
      && (job.work.redeploy || !ShouldSkip(s.files, job.project, job.host, job.work.sha))
    case Deploying(d) =>
      && job.work.Deploy? && d.project == job.project && d.host == job.host && d.status == StatusRunning
      && ValidId(d.id)
      && KeyOf(d) in s.files.latest && s.files.latest[KeyOf(d)] == d
    case TearingDown => job.work.Teardown?
    case Returned(_) => true
  }

  /** Some job is between its two saves with exactly this record. */
  ghost predicate BeingDeployed(s: Sys, key: string)
    requires key in s.files.latest
  {
    exists i: nat :: InBody(s, i, Deploying(s.files.latest[key]))
  }

  ghost predicate FilesOk(s: Sys) {
    forall key :: key in s.files.latest ==>
      && KeyOf(s.files.latest[key]) == key
      && s.files.latest[key].startedAt <= s.clock
      && s.files.latest[key].id in s.files.runs
      && (s.files.latest[key].status == StatusRunning ==> BeingDeployed(s, key))
      && (s.files.latest[key].id != "")
  }

  ghost predicate BodiesOk(s: Sys) {
    && (forall i: nat :: i in s.pcs <==> i < |s.runner.tasks| && s.runner.tasks[i].phase.Running?)
    && (forall i :: i in s.pcs ==> PcOk(s, i))
    && (forall i :: 0 <= i < |s.runner.tasks| ==> SlashFree(s.runner.tasks[i].job.host))
  }

  ghost predicate LogOk(s: Sys) {
    && GoodLog(s.log)
    && (forall e :: e in s.log ==> SlashFree(e.host))
    && (forall project, host :: Agrees(ViewOf(s.log, project, host), s.files, project, host))
    && (forall project, host :: !SlashFree(host) ==> ViewOf(s.log, project, host) == NoRun)
  }

  ghost predicate Inv(s: Sys) {
    RS.Inv(s.runner) && BodiesOk(s) && FilesOk(s) && LogOk(s)
  }

  /** What is assumed of the environment: submitted jobs name hosts without a slash. */
  ghost predicate Allowed(a: Action) {
    a.RunnerStep? && a.a.Submit? ==> SlashFree(a.a.job.host)
  }

  /** A start of the daemon: no job yet, and the records as MarkStale leaves them. */
  ghost predicate Start(s: Sys) {
    && (exists c :: 0 < RM.WorkerLimit(c) && s.runner == RM.Init(c))
    && s.pcs == map[] && s.log == []
    && (forall key :: key in s.files.latest ==>
          && KeyOf(s.files.latest[key]) == key && s.files.latest[key].status != StatusRunning
          && s.files.latest[key].startedAt <= s.clock
          && s.files.latest[key].id in s.files.runs && s.files.latest[key].id != "")
  }

  lemma StartInv(s: Sys)
    requires Start(s)
    ensures Inv(s)
  {
    var c :| 0 < RM.WorkerLimit(c) && s.runner == RM.Init(c);
    RS.InitInv(c);
  }

  /** Two jobs inside their bodies are for different pairs, and so use different index keys. */
  lemma OtherPair(s: Sys, i: nat, j: nat)
    requires Inv(s) && i in s.pcs && j in s.pcs && i != j
    ensures i < |s.runner.tasks| && j < |s.runner.tasks|
    ensures IndexKey(JobOf(s, i).project, JobOf(s, i).host) != IndexKey(JobOf(s, j).project, JobOf(s, j).host)
  {
    var a, b := JobOf(s, i), JobOf(s, j);
    if IndexKey(a.project, a.host) == IndexKey(b.project, b.host) {
      IndexKeySplits(a.project, a.host, b.project, b.host);
      RT.PairExclusive(s.runner, i, j);
    }
  }

  // ---- Steps that leave the files and the log alone ----

  lemma RunningChanges(s: RM.State, a: RM.Action, i: nat)
    requires RS.Inv(s) && RM.Enabled(s, a) && i < |RM.Next(s, a).tasks|
    ensures i < |s.tasks| ==> RM.Next(s, a).tasks[i].job == s.tasks[i].job
    ensures RM.Next(s, a).tasks[i].phase.Running? <==>
            if a.StartOrSkip? && a.i == i then !s.tasks[i].cancelled
            else
              && i < |s.tasks| && s.tasks[i].phase.Running?
              && a != RM.DeployReturns(i, true) && a != RM.DeployReturns(i, false)
  {
    if !a.Submit? {
      RS.OneTaskMoves(s, a);
      RS.InvMover(s, a);
      if RS.Mover(s, a) >= 0 {
        MoverRunningChanges(s, a);
      }
    }
  }

  lemma MoverRunningChanges(s: RM.State, a: RM.Action)
    requires RM.Enabled(s, a) && RS.MoverOk(s, a) && !a.Submit? && RS.Mover(s, a) >= 0
    ensures RS.Mover(s, a) < |s.tasks|
    ensures RM.Next(s, a).tasks[RS.Mover(s, a)].phase.Running? <==>
            var t := s.tasks[RS.Mover(s, a)];
            if a.StartOrSkip? then !t.cancelled else t.phase.Running? && !a.DeployReturns?
  {
    if RM.Takes(a) {
      assert RM.Next(s, a) == RM.Take(s, a);
    } else if RM.GivesBack(a) {
      assert RM.Next(s, a) == RM.GiveBack(s, a);
    } else if RM.InExecute(a) {
      assert RM.Next(s, a) == RM.Execute(s, a);
    } else if RM.InFinish(a) {
      assert RM.Next(s, a) == RM.Finish(s, a);
    }
  }

  lemma RunnerStepKeepsInv(s: Sys, r: RM.Action)
    requires Inv(s) && Enabled(s, RunnerStep(r)) && Allowed(RunnerStep(r))
    ensures Inv(Next(s, RunnerStep(r)))
  {
    var s' := Next(s, RunnerStep(r));
    RS.StepKeepsInv(s.runner, r);
    RunnerStepKeepsBodies(s, r);
    forall key | key in s'.files.latest && s'.files.latest[key].status == StatusRunning
      ensures BeingDeployed(s', key)
    {
      assert BeingDeployed(s, key);
      var i: nat :| InBody(s, i, Deploying(s.files.latest[key]));
      assert InBody(s', i, Deploying(s'.files.latest[key]));
    }
  }

  lemma RunnerStepKeepsBodies(s: Sys, r: RM.Action)
    requires Inv(s) && Enabled(s, RunnerStep(r)) && Allowed(RunnerStep(r))
    ensures BodiesOk(Next(s, RunnerStep(r)))
  {
    var s' := Next(s, RunnerStep(r));
    forall i: nat | i < |s'.runner.tasks|
      ensures i in s'.pcs <==> s'.runner.tasks[i].phase.Running?
      ensures i in s'.pcs ==> PcOk(s', i)
      ensures SlashFree(s'.runner.tasks[i].job.host)
    {
      RunningChanges(s.runner, r, i);
      assert i in s.pcs ==> PcOk(s, i);
    }
  }

  /** A step that only moves one job's program counter, and not away from Deploying. */
  lemma PcStepKeepsInv(s: Sys, i: nat, pc: Pc)
    requires Inv(s) && i in s.pcs && !s.pcs[i].Deploying? && !pc.Deploying?
    requires i < |s.runner.tasks| && PcOk(s.(pcs := s.pcs[i := pc]), i)
    ensures Inv(s.(pcs := s.pcs[i := pc]))
  {
    var s' := s.(pcs := s.pcs[i := pc]);
    forall j | j in s'.pcs
      ensures PcOk(s', j)
    {
      assert PcOk(s, j);
    }
    forall key | key in s'.files.latest && s'.files.latest[key].status == StatusRunning
      ensures BeingDeployed(s', key)
    {
      assert BeingDeployed(s, key);
      var j: nat :| InBody(s, j, Deploying(s.files.latest[key]));
      assert InBody(s', j, Deploying(s'.files.latest[key]));
    }
  }

  lemma TickKeepsInv(s: Sys, now: int)
    requires Inv(s) && s.clock <= now
    ensures Inv(Next(s, Tick(now)))
  {
    var s' := Next(s, Tick(now));
    assert forall i :: i in s'.pcs ==> PcOk(s, i);
    forall key | key in s'.files.latest && s'.files.latest[key].status == StatusRunning
      ensures BeingDeployed(s', key)
    {
      assert BeingDeployed(s, key);
      var j: nat :| InBody(s, j, Deploying(s.files.latest[key]));
      assert InBody(s', j, Deploying(s'.files.latest[key]));
    }
  }

  // ---- Steps that write one pair's record ----

  /** What a store step of job i does: its own pair's entry, its own program counter, one log line. */
  ghost predicate WritesPair(s: Sys, s': Sys, i: nat, e: Event) {
    && i in s.pcs && i < |s.runner.tasks|
    && var job := JobOf(s, i); var key := IndexKey(job.project, job.host);
    && s'.runner == s.runner && s'.clock == s.clock
    && i in s'.pcs && s'.pcs == s.pcs[i := s'.pcs[i]] && PcOk(s', i)
    && s'.files.latest - {key} == s.files.latest - {key}
    && s'.files.runs.Keys >= s.files.runs.Keys
    && s'.log == s.log + [e] && e.project == job.project && e.host == job.host
    && NotRedundant(s.log, e)
    && Agrees(ViewStep(ViewOf(s.log, job.project, job.host), job.project, job.host, e), s'.files, job.project, job.host)
    && (key in s'.files.latest ==>
          && KeyOf(s'.files.latest[key]) == key
          && s'.files.latest[key].startedAt <= s.clock && s'.files.latest[key].id in s'.files.runs
          && s'.files.latest[key].id != ""
          && (s'.files.latest[key].status == StatusRunning ==> s'.pcs[i] == Deploying(s'.files.latest[key])))
  }

  lemma OtherEntry(s: Sys, s': Sys, key: string, other: string)
    requires s'.files.latest - {key} == s.files.latest - {key} && other != key
    ensures other in s'.files.latest <==> other in s.files.latest
    ensures other in s.files.latest ==> s'.files.latest[other] == s.files.latest[other]
  {
    assert other in s.files.latest <==> other in s.files.latest - {key};
    assert other in s'.files.latest <==> other in s'.files.latest - {key};
  }

  lemma WriteKeepsBodies(s: Sys, s': Sys, i: nat, e: Event)
    requires Inv(s) && WritesPair(s, s', i, e)
    ensures BodiesOk(s')
  {
    var job := JobOf(s, i);
    forall j | j in s'.pcs
      ensures PcOk(s', j)
    {
      if j != i {
        assert PcOk(s, j);
        OtherPair(s, i, j);
        OtherEntry(s, s', IndexKey(job.project, job.host), IndexKey(JobOf(s, j).project, JobOf(s, j).host));
      }
    }
  }

  lemma WriteKeepsFiles(s: Sys, s': Sys, i: nat, e: Event)
    requires Inv(s) && WritesPair(s, s', i, e)
    ensures FilesOk(s')
  {
    var job := JobOf(s, i);
    var key := IndexKey(job.project, job.host);
    forall other | other in s'.files.latest
      ensures KeyOf(s'.files.latest[other]) == other
      ensures s'.files.latest[other].startedAt <= s'.clock && s'.files.latest[other].id in s'.files.runs
      ensures s'.files.latest[other].id != ""
      ensures s'.files.latest[other].status == StatusRunning ==> BeingDeployed(s', other)
    {
      if other == key {
        if s'.files.latest[key].status == StatusRunning {
          assert InBody(s', i, Deploying(s'.files.latest[key]));
        }
      } else {
        OtherEntry(s, s', key, other);
        if s.files.latest[other].status == StatusRunning {
          assert BeingDeployed(s, other);
          var j: nat :| InBody(s, j, Deploying(s.files.latest[other]));
          assert PcOk(s, j) && PcOk(s, i);
          assert IndexKey(JobOf(s, j).project, JobOf(s, j).host) == other;
          assert InBody(s', j, Deploying(s'.files.latest[other]));
        }
      }
    }
  }

  lemma ViewOfOthers(log: seq<Event>, e: Event, project: string, host: string)
    ensures ViewOf(log + [e], project, host) == ViewStep(ViewOf(log, project, host), project, host, e)
  {
    assert (log + [e])[..|log|] == log;
  }

  lemma WriteKeepsLog(s: Sys, s': Sys, i: nat, e: Event)
    requires Inv(s) && WritesPair(s, s', i, e)
    ensures LogOk(s')
  {
    var job := JobOf(s, i);
    forall n | 0 <= n < |s'.log|
      ensures NotRedundant(s'.log[..n], s'.log[n])
    {
      if n < |s.log| {
        assert s'.log[..n] == s.log[..n];
      } else {
        assert s'.log[..n] == s.log;
      }
    }
    forall project, host
      ensures Agrees(ViewOf(s'.log, project, host), s'.files, project, host)
      ensures !SlashFree(host) ==> ViewOf(s'.log, project, host) == NoRun
    {
      ViewOfOthers(s.log, e, project, host);
      assert Agrees(ViewOf(s.log, project, host), s.files, project, host);
      if (project != job.project || host != job.host) && SlashFree(host) {
        if IndexKey(project, host) == IndexKey(job.project, job.host) {
          IndexKeySplits(project, host, job.project, job.host);
        }
        OtherEntry(s, s', IndexKey(job.project, job.host), IndexKey(project, host));
      }
    }
  }

  lemma WriteKeepsInv(s: Sys, s': Sys, i: nat, e: Event)
    requires Inv(s) && WritesPair(s, s', i, e)
    ensures Inv(s')
  {
    WriteKeepsBodies(s, s', i, e);
    WriteKeepsFiles(s, s', i, e);
    WriteKeepsLog(s, s', i, e);
  }

  /** The check before the save, seen from the log: what it lets through is not redundant. */
  lemma CheckPassed(s: Sys, i: nat, e: Event)
    requires Inv(s) && InBody(s, i, MayDeploy) && e.Started?
    requires JobOf(s, i).work == Deploy(e.sha, e.redeploy) && e.project == JobOf(s, i).project
    requires e.host == JobOf(s, i).host
    ensures NotRedundant(s.log, e)
  {
    assert PcOk(s, i);
    assert Agrees(ViewOf(s.log, e.project, e.host), s.files, e.project, e.host);
    var key := IndexKey(e.project, e.host);
    if key in s.files.latest {
      var d := s.files.latest[key];
      assert KeyOf(d) == key && d.id != "";
    }
  }

  lemma SaveRunningKeepsInv(s: Sys, i: nat, id: string)
    requires Inv(s) && Enabled(s, SaveRunning(i, id))
    ensures Inv(Next(s, SaveRunning(i, id)))
  {
    var s' := Next(s, SaveRunning(i, id));
    var job := JobOf(s, i);
    var e := Started(job.project, job.host, job.work.sha, job.work.redeploy, id);
    CheckPassed(s, i, e);
    WriteKeepsInv(s, s', i, e);
  }

  lemma SaveFinalKeepsInv(s: Sys, i: nat, ok: bool, message: string)
    requires Inv(s) && Enabled(s, SaveFinal(i, ok, message))
    ensures Inv(Next(s, SaveFinal(i, ok, message)))
  {
    var s' := Next(s, SaveFinal(i, ok, message));
    var d := s.pcs[i].d;
    assert PcOk(s, i);
    assert Agrees(ViewOf(s.log, d.project, d.host), s.files, d.project, d.host);
    WriteKeepsInv(s, s', i, Ended(d.project, d.host, d.id, ok));
  }

  lemma FinishTeardownKeepsInv(s: Sys, i: nat, ok: bool)
    requires Inv(s) && Enabled(s, FinishTeardown(i, ok))
    ensures Inv(Next(s, FinishTeardown(i, ok)))
  {
    var job := JobOf(s, i);
    var s' := Next(s, FinishTeardown(i, ok));
    if ok && job.work.removeState {
      assert s'.files.latest - {IndexKey(job.project, job.host)} == s.files.latest - {IndexKey(job.project, job.host)};
      WriteKeepsInv(s, s', i, Cleared(job.project, job.host));
    } else {
      PcStepKeepsInv(s, i, Returned(ok));
    }
  }

  lemma StepKeepsInv(s: Sys, a: Action)
    requires Inv(s) && Enabled(s, a) && Allowed(a)
    ensures Inv(Next(s, a))
  {
    match a
    case RunnerStep(r) => RunnerStepKeepsInv(s, r);
    case LookDesired(i, desired) => PcStepKeepsInv(s, i, if desired then Checked else Returned(true));
    case LookRecord(i) =>
      var job := JobOf(s, i);
      PcStepKeepsInv(s, i, if !job.work.redeploy && ShouldSkip(s.files, job.project, job.host, job.work.sha)
                           then Returned(true) else MayDeploy);
    case SaveRunning(i, id) => SaveRunningKeepsInv(s, i, id);
    case SaveFinal(i, ok, message) => SaveFinalKeepsInv(s, i, ok, message);
    case LookReAdded(i, reAdded) => PcStepKeepsInv(s, i, if reAdded then Returned(true) else TearingDown);
    case FinishTeardown(i, ok) => FinishTeardownKeepsInv(s, i, ok);
    case Tick(now) => TickKeepsInv(s, now);
  }

  // ---- Whole runs ----

  ghost predicate Legal(s: Sys, schedule: seq<Action>)
    decreases |schedule|
  {
    schedule == [] || (Enabled(s, schedule[0]) && Allowed(schedule[0]) && Legal(Next(s, schedule[0]), schedule[1..]))
  }

  ghost function After(s: Sys, schedule: seq<Action>): Sys
    requires Legal(s, schedule)
    decreases |schedule|
  {
    if schedule == [] then s else After(Next(s, schedule[0]), schedule[1..])
  }

  lemma {:induction false} RunKeepsInv(s: Sys, schedule: seq<Action>)
    requires Inv(s) && Legal(s, schedule)
    ensures Inv(After(s, schedule))
    decreases |schedule|
  {
    if schedule != [] {
      StepKeepsInv(s, schedule[0]);
      RunKeepsInv(Next(s, schedule[0]), schedule[1..]);
    }
  }

  predicate Of(e: Event, project: string, host: string) {
    e.project == project && e.host == host
  }

  /** Until a pair starts again or is cleared, its view stays with the run it started last, and
      becomes a failure only through that run's end. */
  lemma {:induction false} ViewStays(log: seq<Event>, i: nat, project: string, host: string)
    requires i < |log| && log[i].Started? && Of(log[i], project, host)
    requires forall k :: i < k < |log| && Of(log[k], project, host) ==> log[k].Ended?
    ensures var v := ViewOf(log, project, host);
            && v.Ran? && v.id == log[i].id && v.sha == log[i].sha
            && (v.end == Some(false) ==> exists k :: i < k < |log| && log[k] == Ended(project, host, log[i].id, false))
    decreases |log|
  {
    var n := |log| - 1;
    if i < n {
      ViewStays(log[..n], i, project, host);
      if ViewOf(log, project, host).end == Some(false) && log[n] != Ended(project, host, log[i].id, false) {
        var k :| i < k < n && log[..n][k] == Ended(project, host, log[i].id, false);
        assert log[k] == Ended(project, host, log[i].id, false);
      }
    }
  }

  /** In every run of the daemon: when two consecutive deploy runs of a pair are for the same commit
      and the second is not a redeploy, the first one failed or a teardown cleared the record in
      between. */
  lemma NoRedundantDeploy(s: Sys, schedule: seq<Action>, i: nat, j: nat)
    requires Start(s) && Legal(s, schedule)
    requires var log := After(s, schedule).log;
      && i < j < |log| && log[i].Started? && log[j].Started?
      && Of(log[j], log[i].project, log[i].host) && Named(log[i].project, log[i].host)
      && (forall k :: i < k < j && Of(log[k], log[i].project, log[i].host) ==> !log[k].Started?)
      && log[j].sha == log[i].sha && !log[j].redeploy
    ensures var log := After(s, schedule).log;
      exists k :: i < k < j && (log[k] == Ended(log[i].project, log[i].host, log[i].id, false)
                                || log[k] == Cleared(log[i].project, log[i].host))
  {
    StartInv(s);
    RunKeepsInv(s, schedule);
    var log := After(s, schedule).log;
    var project, host := log[i].project, log[i].host;
    if forall k :: i < k < j ==> log[k] != Cleared(project, host) {
      var before := log[..j];
      assert NotRedundant(before, log[j]);
      ViewStays(before, i, project, host);
      var k :| i < k < |before| && before[k] == Ended(project, host, log[i].id, false);
      assert log[k] == before[k];
    }
  }

  ghost predicate PairLocked(s: RM.State, project: string, host: string) {
    exists i: nat :: HoldsPair(s, i, project, host)
  }

  predicate HoldsPair(s: RM.State, i: nat, project: string, host: string) {
    i < |s.tasks| && s.tasks[i].job.project == project && s.tasks[i].job.host == host && RS.Held(s.tasks[i].phase) == 3
  }

  /** Whenever no job holds a pair's lock, the pair's latest record is not "running". */
  lemma UnlockedNotRunning(s: Sys, schedule: seq<Action>, project: string, host: string)
    requires Start(s) && Legal(s, schedule) && SlashFree(host)
    requires !PairLocked(After(s, schedule).runner, project, host)
    ensures var latest := After(s, schedule).files.latest; var key := IndexKey(project, host);
      key in latest ==> latest[key].status != StatusRunning
  {
    StartInv(s);
    RunKeepsInv(s, schedule);
    var s' := After(s, schedule);
    var key := IndexKey(project, host);
    if key in s'.files.latest && s'.files.latest[key].status == StatusRunning {
      assert BeingDeployed(s', key);
      var i: nat :| InBody(s', i, Deploying(s'.files.latest[key]));
      assert PcOk(s', i);
      IndexKeySplits(project, host, JobOf(s', i).project, JobOf(s', i).host);
      assert HoldsPair(s'.runner, i, project, host);
      assert false;
    }
  }

  /** A pair with an empty name is never deduplicated: its record cannot be read back. */
  lemma EmptyNameNeverSkipped(f: Files, project: string, host: string, sha: string)
    requires IndexKey(project, host) in f.latest ==>
      f.latest[IndexKey(project, host)].project == project && f.latest[IndexKey(project, host)].host == host
    ensures !Named(project, host) ==> !ShouldSkip(f, project, host, sha)
  {
  }
}
