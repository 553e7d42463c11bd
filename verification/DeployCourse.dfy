/** What the body of a job does over a whole run, from its first look to its return: which answers send
    it on and which send it home, and which of its steps touch the records. */
module DeployCourse {
  import opened Base
  import opened Jobs
  import RM = RunnerModel
  import RS = RunnerSafety
  import RO = RunnerOutcomes
  import opened DeploymentStore
  import opened DeploySystem
  import DP = DeployProgress

  // ---- The course of a body, read off a run ----

  /** One thing a body does, with what it is told or meets. */
  datatype Step =
    | Wanted(answer: bool)       // the config's answer about the target
    | Record(atCommit: bool)     // the look at the record: is it a running or successful one at the commit
    | SavedStart(id: string)
    | SavedEnd(id: string, ok: bool)
    | WantedBack(answer: bool)   // the config's answer about the torn down directory
    | TornDown(ok: bool)

  /** A readable record of the pair says that the commit is being deployed or was. */
  predicate AtCommit(f: Files, project: string, host: string, sha: string) {
    var key := host + "/" + project;
    && key in f.latest
    && f.latest[key].id != "" && f.latest[key].project != "" && f.latest[key].host != ""
    && f.latest[key].commitSha == sha
    && (f.latest[key].status == StatusRunning || f.latest[key].status == StatusSuccess)
  }

  /** What a step of the system is for the body of job i. */
  function StepOf(s: Sys, a: Action, i: nat): seq<Step>
    requires Enabled(s, a)
  {
    if a.RunnerStep? || a.Tick? || a.i != i then []
    else
      match a
      case LookDesired(_, desired) => [Wanted(desired)]
      case LookRecord(_) =>
        var job := JobOf(s, i);
        [Record(AtCommit(s.files, job.project, job.host, job.work.sha))]
      case SaveRunning(_, id) => [SavedStart(id)]
      case SaveFinal(_, ok, _) => [SavedEnd(s.pcs[i].d.id, ok)]
      case LookReAdded(_, reAdded) => [WantedBack(reAdded)]
      case FinishTeardown(_, ok) => [TornDown(ok)]
  }

  /** The course of job i when the run starts after `before`. */
  ghost function CourseAfter(before: seq<Step>, s: Sys, schedule: seq<Action>, i: nat): seq<Step>
    requires Legal(s, schedule)
    decreases |schedule|
  {
    if schedule == [] then before
    else CourseAfter(before + StepOf(s, schedule[0], i), Next(s, schedule[0]), schedule[1..], i)
  }

  ghost function Course(s: Sys, schedule: seq<Action>, i: nat): seq<Step>
    requires Legal(s, schedule)
  {
    CourseAfter([], s, schedule, i)
  }

  // ---- What a course may be ----

  /** A deploy that returned `ok`: the config did not want it; or it is no redeploy and the record was at
      the commit; or it ran between its two saves, and returned what it saved. */
  ghost predicate Deployed(course: seq<Step>, redeploy: bool, ok: bool) {
    || (ok && course == [Wanted(false)])
    || (ok && !redeploy && course == [Wanted(true), Record(true)])
    || (exists met, id :: (met ==> redeploy) && course == [Wanted(true), Record(met), SavedStart(id), SavedEnd(id, ok)])
  }

  /** A teardown that returned `ok`: the config wanted the directory back; or it was carried out. */
  ghost predicate TornAway(course: seq<Step>, ok: bool) {
    (ok && course == [WantedBack(true)]) || course == [WantedBack(false), TornDown(ok)]
  }

  ghost predicate Returns(course: seq<Step>, work: Work, ok: bool) {
    match work
    case Deploy(_, redeploy) => Deployed(course, redeploy, ok)
    case Teardown(_, _) => TornAway(course, ok)
  }

  /** How far a course has come at each program counter. */
  ghost predicate Reaches(course: seq<Step>, work: Work, pc: Pc) {
    match pc
    case Begin => course == []
    case Checked => work.Deploy? && course == [Wanted(true)]
    case MayDeploy => work.Deploy? && exists met :: (met ==> work.redeploy) && course == [Wanted(true), Record(met)]
    case Deploying(d) =>
      work.Deploy? && exists met :: (met ==> work.redeploy) && course == [Wanted(true), Record(met), SavedStart(d.id)]
    case TearingDown => work.Teardown? && course == [WantedBack(false)]
    case Returned(ok) => Returns(course, work, ok)
  }

  /** Before a job runs its course is empty; while it runs it fits the program counter; and afterwards it
      has returned the job's outcome. */
  ghost predicate Fits(s: Sys, i: nat, course: seq<Step>)
    requires i < |s.runner.tasks|
  {
    var t := s.runner.tasks[i];
    if i in s.pcs then Reaches(course, t.job.work, s.pcs[i])
    else if t.started then Returns(course, t.job.work, t.outcome == RM.Succeeded)
    else course == []
  }

  lemma SkipIsAtCommit(f: Files, project: string, host: string, sha: string)
    ensures ShouldSkip(f, project, host, sha) <==> AtCommit(f, project, host, sha)
  {
  }

  lemma DeployStepFits(s: Sys, a: Action, i: nat, course: seq<Step>)
    requires Inv(s) && Enabled(s, a) && i < |s.runner.tasks| && Fits(s, i, course)
    requires (a.LookDesired? || a.LookRecord? || a.SaveRunning? || a.SaveFinal?) && a.i == i
    ensures Fits(Next(s, a), i, course + StepOf(s, a, i))
  {
    var job := JobOf(s, i);
    assert PcOk(s, i);
    SkipIsAtCommit(s.files, job.project, job.host, job.work.sha);
  }

  lemma TeardownStepFits(s: Sys, a: Action, i: nat, course: seq<Step>)
    requires Inv(s) && Enabled(s, a) && i < |s.runner.tasks| && Fits(s, i, course)
    requires (a.LookReAdded? || a.FinishTeardown?) && a.i == i
    ensures Fits(Next(s, a), i, course + StepOf(s, a, i))
  {
  }

  lemma BodyStepFits(s: Sys, a: Action, i: nat, course: seq<Step>)
    requires Inv(s) && Enabled(s, a) && !a.RunnerStep? && i < |s.runner.tasks| && Fits(s, i, course)
    ensures Fits(Next(s, a), i, course + StepOf(s, a, i))
  {
    if a.Tick? || a.i != i {
      assert course + [] == course;
    } else if a.LookReAdded? || a.FinishTeardown? {
      TeardownStepFits(s, a, i, course);
    } else {
      DeployStepFits(s, a, i, course);
    }
  }

  /** What a runner step can do to a task, as far as its body is concerned. */
  ghost predicate SameForBody(s: RM.State, r: RM.Action, i: nat)
    requires RM.Enabled(s, r) && i < |s.tasks|
  {
    && i < |RM.Next(s, r).tasks|
    && var t, t' := s.tasks[i], RM.Next(s, r).tasks[i];
    && t'.job == t.job
    && (t'.started <==> t.started || (r == RM.StartOrSkip(i) && !t.cancelled))
    && (t'.outcome == RM.Succeeded <==> t.outcome == RM.Succeeded || r == RM.DeployReturns(i, true))
  }

  lemma RunnerStepForBody(s: RM.State, r: RM.Action, i: nat)
    requires RS.Inv(s) && RM.Enabled(s, r) && i < |s.tasks|
    ensures SameForBody(s, r, i)
  {
    if !r.Submit? {
      RS.OneTaskMoves(s, r);
      if RS.Mover(s, r) >= 0 {
        RO.StepFollows(s, r);
      }
    }
  }

  lemma RunnerStepFits(s: Sys, r: RM.Action, i: nat, course: seq<Step>)
    requires Inv(s) && Enabled(s, RunnerStep(r)) && i < |s.runner.tasks| && Fits(s, i, course)
    ensures i < |Next(s, RunnerStep(r)).runner.tasks| && Fits(Next(s, RunnerStep(r)), i, course)
  {
    RunnerStepForBody(s.runner, r, i);
    assert RS.TaskOk(s.runner.tasks[i]);
    assert i in s.pcs <==> s.runner.tasks[i].phase.Running?;
  }

  lemma NewTaskFits(s: Sys, a: Action, i: nat)
    requires Inv(s) && Enabled(s, a) && |s.runner.tasks| <= i
    ensures StepOf(s, a, i) == []
    ensures i < |Next(s, a).runner.tasks| ==> Fits(Next(s, a), i, [])
  {
  }

  ghost predicate FitsIfThere(s: Sys, i: nat, course: seq<Step>) {
    if i < |s.runner.tasks| then Fits(s, i, course) else course == []
  }

  lemma StepFits(s: Sys, a: Action, i: nat, course: seq<Step>)
    requires Inv(s) && Enabled(s, a) && FitsIfThere(s, i, course)
    ensures FitsIfThere(Next(s, a), i, course + StepOf(s, a, i))
  {
    assert course + [] == course;
    if |s.runner.tasks| <= i {
      NewTaskFits(s, a, i);
    } else if a.RunnerStep? {
      RunnerStepFits(s, a.a, i, course);
    } else {
      BodyStepFits(s, a, i, course);
    }
  }

  lemma {:induction false} CourseFits(s: Sys, schedule: seq<Action>, i: nat, before: seq<Step>)
    requires Inv(s) && Legal(s, schedule) && FitsIfThere(s, i, before)
    ensures FitsIfThere(After(s, schedule), i, CourseAfter(before, s, schedule, i))
    decreases |schedule|
  {
    if schedule != [] {
      StepKeepsInv(s, schedule[0]);
      StepFits(s, schedule[0], i, before);
      CourseFits(Next(s, schedule[0]), schedule[1..], i, before + StepOf(s, schedule[0], i));
    }
  }

  // ---- Theorems about whole runs ----

  /** In every run of the daemon the course of each job's body is one of those the source allows: empty
      before the job runs, as far as its program counter while it does, and complete with the outcome the
      runner reports afterwards. */
  lemma EveryBodyKeepsCourse(s: Sys, schedule: seq<Action>, i: nat)
    requires Start(s) && Legal(s, schedule) && i < |After(s, schedule).runner.tasks|
    ensures Fits(After(s, schedule), i, Course(s, schedule, i))
  {
    StartInv(s);
    CourseFits(s, schedule, i, []);
  }

  lemma {:induction false} CourseGoesOn(before: seq<Step>, s: Sys, schedule: seq<Action>, i: nat, step: Step)
    requires Legal(s, schedule) && step in before
    ensures step in CourseAfter(before, s, schedule, i)
    decreases |schedule|
  {
    if schedule != [] {
      CourseGoesOn(before + StepOf(s, schedule[0], i), Next(s, schedule[0]), schedule[1..], i, step);
    }
  }

  /** The action is this step of job i's body, whatever the state. */
  predicate IsStep(a: Action, i: nat, step: Step) {
    || (a.LookDesired? && a.i == i && step == Wanted(a.desired))
    || (a.SaveRunning? && a.i == i && step == SavedStart(a.id))
    || (a.LookReAdded? && a.i == i && step == WantedBack(a.reAdded))
    || (a.FinishTeardown? && a.i == i && step == TornDown(a.ok))
  }

  lemma {:induction false} InCourse(before: seq<Step>, s: Sys, schedule: seq<Action>, i: nat, k: nat, step: Step)
    requires Legal(s, schedule) && k < |schedule| && IsStep(schedule[k], i, step)
    ensures step in CourseAfter(before, s, schedule, i)
    decreases |schedule|
  {
    var now := before + StepOf(s, schedule[0], i);
    if k > 0 {
      InCourse(now, Next(s, schedule[0]), schedule[1..], i, k - 1, step);
    } else {
      assert StepOf(s, schedule[0], i) == [step];
      assert now[|before|] == step;
      CourseGoesOn(now, Next(s, schedule[0]), schedule[1..], i, step);
    }
  }

  /** A target that the config had dropped when its deploy looked is not deployed, in any run. */
  lemma UnwantedIsNotDeployed(s: Sys, schedule: seq<Action>, i: nat, k: nat, n: nat)
    requires Start(s) && Legal(s, schedule) && i < |After(s, schedule).runner.tasks|
    requires k < |schedule| && schedule[k] == LookDesired(i, false)
    requires n < |schedule| && schedule[n].SaveRunning?
    ensures schedule[n].i != i
  {
    if schedule[n].i == i {
      EveryBodyKeepsCourse(s, schedule, i);
      InCourse([], s, schedule, i, k, Wanted(false));
      InCourse([], s, schedule, i, n, SavedStart(schedule[n].id));
      NoMix(After(s, schedule), i, Course(s, schedule, i), schedule[n].id);
    }
  }

  lemma NoMix(s: Sys, i: nat, course: seq<Step>, id: string)
    requires i < |s.runner.tasks| && Fits(s, i, course)
    ensures !(Wanted(false) in course && SavedStart(id) in course)
    ensures !(WantedBack(true) in course && (TornDown(true) in course || TornDown(false) in course))
  {
  }

  /** A directory that the config wanted back when its teardown looked is not torn down, in any run. */
  lemma ReAddedIsNotTornDown(s: Sys, schedule: seq<Action>, i: nat, k: nat, n: nat)
    requires Start(s) && Legal(s, schedule) && i < |After(s, schedule).runner.tasks|
    requires k < |schedule| && schedule[k] == LookReAdded(i, true)
    requires n < |schedule| && schedule[n].FinishTeardown?
    ensures schedule[n].i != i
  {
    if schedule[n].i == i {
      EveryBodyKeepsCourse(s, schedule, i);
      InCourse([], s, schedule, i, k, WantedBack(true));
      InCourse([], s, schedule, i, n, TornDown(schedule[n].ok));
      NoMix(After(s, schedule), i, Course(s, schedule, i), "");
    }
  }

  /** The course of a deploy that came home without a run. */
  predicate SentHome(course: seq<Step>, redeploy: bool) {
    course == [Wanted(false)] || (!redeploy && course == [Wanted(true), Record(true)])
  }

  lemma RunOrSentHome(course: seq<Step>, redeploy: bool, ok: bool)
    requires Deployed(course, redeploy, ok)
    ensures (forall id :: SavedStart(id) !in course) <==> SentHome(course, redeploy)
    ensures SentHome(course, redeploy) ==> ok
    ensures !ok ==> exists id :: SavedStart(id) in course && SavedEnd(id, false) in course
    ensures !SentHome(course, redeploy) ==> exists id :: SavedStart(id) in course && SavedEnd(id, ok) in course
  {
    if met, id :| (met ==> redeploy) && course == [Wanted(true), Record(met), SavedStart(id), SavedEnd(id, ok)] {
      assert course[2] in course && course[3] in course;
    }
  }

  /** And the way back: a deploy that has ended without a run of its own was told that the config does not
      want it, or is no redeploy and met a record at its commit, and it succeeded; one that failed after it
      started had a run that failed. */
  lemma EndsWithoutRunForAReason(s: Sys, schedule: seq<Action>, i: nat)
    requires Start(s) && Legal(s, schedule) && i < |After(s, schedule).runner.tasks|
    requires var t := After(s, schedule).runner.tasks[i]; t.job.work.Deploy? && t.started && t.phase.Finished?
    ensures var t, course := After(s, schedule).runner.tasks[i], Course(s, schedule, i);
      && ((forall id :: SavedStart(id) !in course) <==> SentHome(course, t.job.work.redeploy))
      && (SentHome(course, t.job.work.redeploy) ==> t.outcome == RM.Succeeded)
      && (t.outcome == RM.Failed ==> exists id :: SavedStart(id) in course && SavedEnd(id, false) in course)
  {
    EveryBodyKeepsCourse(s, schedule, i);
    StartInv(s);
    RunKeepsInv(s, schedule);
    var end := After(s, schedule);
    var t := end.runner.tasks[i];
    assert i !in end.pcs;
    RunOrSentHome(Course(s, schedule, i), t.job.work.redeploy, t.outcome == RM.Succeeded);
  }

  // ---- Nothing wanted is left undone ----

  function RunnerPart(schedule: seq<Action>): seq<RM.Action> {
    if schedule == [] then []
    else (if schedule[0].RunnerStep? then [schedule[0].a] else []) + RunnerPart(schedule[1..])
  }

  /** Seen from the runner alone a run of the daemon is a run of the runner. */
  lemma {:induction false} RunnerRuns(s: Sys, schedule: seq<Action>)
    requires Legal(s, schedule)
    ensures RM.Legal(s.runner, RunnerPart(schedule))
    ensures RM.After(s.runner, RunnerPart(schedule)) == After(s, schedule).runner
    decreases |schedule|
  {
    if schedule != [] {
      RunnerRuns(Next(s, schedule[0]), schedule[1..]);
      if schedule[0].RunnerStep? {
        assert RunnerPart(schedule)[1..] == RunnerPart(schedule[1..]);
      } else {
        assert RunnerPart(schedule) == RunnerPart(schedule[1..]);
      }
    }
  }

  /** While Stop is not called, a run of the daemon that cannot go on has seen every deploy whose context
      was not cancelled through: it was sent home for a reason, or has had a run that ended as the runner
      reports. */
  lemma EveryDeployIsSeenThrough(s: Sys, schedule: seq<Action>, i: nat)
    requires Start(s) && Legal(s, schedule) && i < |After(s, schedule).runner.tasks|
    requires var end := After(s, schedule);
      && DP.Stuck(end) && end.runner.stop.NotStopping?
      && !end.runner.tasks[i].cancelled && end.runner.tasks[i].job.work.Deploy?
    ensures var t, course := After(s, schedule).runner.tasks[i], Course(s, schedule, i);
      && t.phase.Finished?
      && (|| (t.outcome == RM.Succeeded && SentHome(course, t.job.work.redeploy))
          || (exists id :: SavedStart(id) in course && SavedEnd(id, t.outcome == RM.Succeeded) in course))
  {
    var end := After(s, schedule);
    StartInv(s);
    RunKeepsInv(s, schedule);
    DP.NoDeadlock(end);
    RunnerRuns(s, schedule);
    RO.RunKeepsJustified(s.runner, RunnerPart(schedule));
    assert DP.Internal(RunnerStep(RM.Enqueue(i))) && !Enabled(end, RunnerStep(RM.Enqueue(i)));
    RO.SettledHasRun(end.runner, i);
    EveryBodyKeepsCourse(s, schedule, i);
    var t, course := end.runner.tasks[i], Course(s, schedule, i);
    RunOrSentHome(course, t.job.work.redeploy, t.outcome == RM.Succeeded);
  }

  // ---- What the steps do to records and log ----

  /** A pair's latest record goes away exactly by a teardown of the pair that succeeded and was to remove
      the state. */
  lemma RecordGoesOnlyByTeardown(s: Sys, a: Action, key: string)
    requires Enabled(s, a) && key in s.files.latest
    ensures key !in Next(s, a).files.latest <==>
      && a.FinishTeardown? && a.ok && JobOf(s, a.i).work.removeState
      && key == JobOf(s, a.i).host + "/" + JobOf(s, a.i).project
  {
  }

  /** What a run is recorded as when it starts: the pair and commit of its job, running since now. */
  lemma StartIsRecorded(s: Sys, i: nat, id: string)
    requires Inv(s) && Enabled(s, SaveRunning(i, id))
    ensures var job, f := JobOf(s, i), Next(s, SaveRunning(i, id)).files;
      var d := Deployment(id, job.project, job.host, job.work.sha, StatusRunning, s.clock, None, "");
      && f.runs == s.files.runs[id := d]
      && f.latest == s.files.latest[job.host + "/" + job.project := d]
  {
  }

  /** And when it ends: the same record with its status, the time, and the error if there is one. */
  lemma EndIsRecorded(s: Sys, i: nat, ok: bool, message: string)
    requires Inv(s) && Enabled(s, SaveFinal(i, ok, message))
    ensures var job, d, f := JobOf(s, i), s.pcs[i].d, Next(s, SaveFinal(i, ok, message)).files;
      var d' := Deployment(d.id, job.project, job.host, d.commitSha, if ok then StatusSuccess else StatusFailed,
                           d.startedAt, Some(s.clock), if ok then d.error else message);
      && f.runs == s.files.runs[d.id := d']
      && f.latest == s.files.latest[job.host + "/" + job.project := d']
  {
    assert PcOk(s, i);
  }
}
