/** The runner and the store as objects, and the code the runner executes for a job: the DeployFunc
    closures of internal/engine/handler.go and reconcile.go and DeployTarget of deploy.go, cut at every
    access to the config and the store. Each method is proved against its step of DeploySystem. */
module Daemon {
  import opened Base
  import opened Jobs
  import opened DeploymentStore
  import DS = DeploySystem
  import RM = RunnerModel
  import RunnerClass
  import DeployConfig
  import Planner

  class Daemon {
    const runner: RunnerClass.Runner
    const store: FileStore
    var clock: int
    var pcs: map<nat, DS.Pc>      // where the body of each running job stands
    ghost var log: seq<DS.Event>

    ghost function State(): DS.Sys
      reads this, runner, runner.projectLock, store
    {
      DS.Sys(runner.State(), store.State().files, pcs, clock, log)
    }

    ghost predicate Valid()
      reads this, runner, runner.projectLock, store
    {
      runner.Valid() && store.Valid() && DS.Inv(State())
    }

    /** Start-up: interrupted deploys are marked before any job exists. */
    constructor (c: RM.Config, store: FileStore, now: int)
      requires 0 < RM.WorkerLimit(c) && store.Valid()
      requires forall key :: key in store.latest ==> store.latest[key].startedAt <= now && store.latest[key].id != ""
      modifies store
      ensures Valid() && DS.Start(State()) && this.store == store && clock == now
      ensures fresh(runner) && fresh(runner.projectLock)
      ensures State().files == MarkedFiles(old(store.State()).files, now, {})
    {
      this.store := store;
      runner := new RunnerClass.Runner(c);
      clock, pcs, log := now, map[], [];
      new;
      var _ := store.MarkStaleRunningDeploymentsFailed(now);
      StartsMarked(old(store.State()), now);
      assert runner.State() == RM.Init(c);
      DS.StartInv(State());
    }

    method RunnerStep(r: RM.Action)
      requires runner.Valid() && DS.Enabled(State(), DS.RunnerStep(r))
      modifies this, runner, runner.projectLock
      ensures runner.Valid() && State() == DS.Next(old(State()), DS.RunnerStep(r))
    {
      if r.StartOrSkip? && !runner.tasks[r.i].cancelled {
        pcs := pcs[r.i := DS.Begin];
      } else if r.DeployReturns? {
        pcs := pcs - {r.i};
      }
      runner.Perform(r);
    }

    method LookDesired(i: nat, desired: bool)
      requires store.Valid() && DS.Enabled(State(), DS.LookDesired(i, desired))
      modifies this
      ensures store.Valid() && State() == DS.Next(old(State()), DS.LookDesired(i, desired))
    {
      pcs := pcs[i := if desired then DS.Checked else DS.Returned(true)];
    }

    /** The look at the config: whether it still has the pair. */
    method AskDesired(i: nat, current: Option<DeployConfig.Config>, join: Planner.PathJoin)
      requires store.Valid() && DS.Enabled(State(), DS.LookDesired(i, true))
      modifies this
      ensures store.Valid()
      ensures var job := runner.tasks[i].job;
        var desired := Planner.DesiredDir(current, job.project, job.host, join).Some?;
        State() == DS.Next(old(State()), DS.LookDesired(i, desired))
    {
      var job := runner.tasks[i].job;
      var desired := Planner.TargetDesired(current, job.project, job.host, join);
      LookDesired(i, desired);
    }

    /** A teardown's look: whether the config has the pair in this directory again. */
    method AskReAdded(i: nat, current: Option<DeployConfig.Config>, join: Planner.PathJoin)
      requires store.Valid() && DS.Enabled(State(), DS.LookReAdded(i, true))
      modifies this
      ensures store.Valid()
      ensures var job := runner.tasks[i].job;
        var reAdded := Planner.DesiredDir(current, job.project, job.host, join) == Some(job.work.dir);
        State() == DS.Next(old(State()), DS.LookReAdded(i, reAdded))
    {
      var job := runner.tasks[i].job;
      var dir := Planner.DesiredRemoteDir(current, job.project, job.host, join);
      LookReAdded(i, dir == Some(job.work.dir));
    }

    /** The second dedup, under the pair's lock. */
    method LookRecord(i: nat)
      requires store.Valid() && DS.Enabled(State(), DS.LookRecord(i))
      modifies this
      ensures store.Valid() && State() == DS.Next(old(State()), DS.LookRecord(i))
    {
      var job := runner.tasks[i].job;
      var skip := false;
      if !job.work.redeploy {
        skip := store.ShouldSkipDeploy(job.project, job.host, job.work.sha);
      }
      pcs := pcs[i := if skip then DS.Returned(true) else DS.MayDeploy];
    }

    method Save(d: Deployment)
      requires store.Valid() && KeepsIdentity(store.State().files, d) && ValidId(d.id)
      modifies store
      ensures store.Valid() && store.State().files == SavedFiles(old(store.State()).files, d)
    {
      var _ := store.SaveDeployment(d);
    }

    /** DeployTarget up to its first save. */
    method SaveRunning(i: nat, id: string)
      requires store.Valid() && DS.Enabled(State(), DS.SaveRunning(i, id))
      modifies this, store
      ensures store.Valid() && State() == DS.Next(old(State()), DS.SaveRunning(i, id))
    {
      var job := runner.tasks[i].job;
      var d := Deployment(id, job.project, job.host, job.work.sha, StatusRunning, clock, None, "");
      Save(d);
      pcs := pcs[i := DS.Deploying(d)];
      log := log + [DS.Started(job.project, job.host, job.work.sha, job.work.redeploy, id)];
    }

    /** DeployTarget from the outcome of runDeploy to its second save. */
    method SaveFinal(i: nat, ok: bool, message: string)
      requires store.Valid() && DS.Enabled(State(), DS.SaveFinal(i, ok, message))
      requires var d := pcs[i].d; ValidId(d.id) && d.id in store.runs && store.runs[d.id] == d
      modifies this, store
      ensures store.Valid() && State() == DS.Next(old(State()), DS.SaveFinal(i, ok, message))
    {
      var d := pcs[i].d;
      var final := d.(completedAt := Some(clock));
      if ok {
        final := final.(status := StatusSuccess);
      } else {
        final := final.(status := StatusFailed, error := message);
      }
      Save(final);
      pcs := pcs[i := DS.Returned(ok)];
      log := log + [DS.Ended(d.project, d.host, d.id, ok)];
    }

    method LookReAdded(i: nat, reAdded: bool)
      requires store.Valid() && DS.Enabled(State(), DS.LookReAdded(i, reAdded))
      modifies this
      ensures store.Valid() && State() == DS.Next(old(State()), DS.LookReAdded(i, reAdded))
    {
      pcs := pcs[i := if reAdded then DS.Returned(true) else DS.TearingDown];
    }

    method FinishTeardown(i: nat, ok: bool)
      requires store.Valid() && DS.Enabled(State(), DS.FinishTeardown(i, ok))
      modifies this, store
      ensures store.Valid() && State() == DS.Next(old(State()), DS.FinishTeardown(i, ok))
    {
      var job := runner.tasks[i].job;
      pcs := pcs[i := DS.Returned(ok)];
      if ok && job.work.removeState {
        var _ := store.DeleteLatestDeployment(job.project, job.host);
        log := log + [DS.Cleared(job.project, job.host)];
      }
    }

    method Tick(now: int)
      requires store.Valid() && clock <= now
      modifies this
      ensures store.Valid() && State() == DS.Next(old(State()), DS.Tick(now))
    {
      clock := now;
    }

    method BodyStep(a: DS.Action)
      requires store.Valid() && DS.Enabled(State(), a) && !a.RunnerStep?
      requires a.SaveFinal? ==> var d := pcs[a.i].d; ValidId(d.id) && d.id in store.runs && store.runs[d.id] == d
      modifies this, store
      ensures store.Valid() && State() == DS.Next(old(State()), a)
    {
      match a
      case LookDesired(i, desired) => LookDesired(i, desired);
      case LookRecord(i) => LookRecord(i);
      case SaveRunning(i, id) => SaveRunning(i, id);
      case SaveFinal(i, ok, message) => SaveFinal(i, ok, message);
      case LookReAdded(i, reAdded) => LookReAdded(i, reAdded);
      case FinishTeardown(i, ok) => FinishTeardown(i, ok);
      case Tick(now) => Tick(now);
    }

    method Perform(a: DS.Action)
      requires Valid() && DS.Enabled(State(), a) && DS.Allowed(a)
      modifies this, runner, runner.projectLock, store
      ensures Valid() && State() == DS.Next(old(State()), a)
    {
      DS.StepKeepsInv(State(), a);
      if a.RunnerStep? {
        RunnerStep(a.a);
      } else {
        if a.SaveFinal? {
          SavedAsRun(store.State(), State(), a.i);
        }
        BodyStep(a);
      }
    }

    /** Any interleaving of jobs, submissions, cancellations, Stop and the clock leaves the objects as
        the model predicts; so what holds of every run of the model holds of them. */
    method Run(schedule: seq<DS.Action>)
      requires Valid() && DS.Legal(State(), schedule)
      modifies this, runner, runner.projectLock, store
      ensures Valid() && State() == DS.After(old(State()), schedule)
    {
      var rest := schedule;
      while rest != []
        invariant Valid() && DS.Legal(State(), rest)
        invariant DS.After(State(), rest) == DS.After(old(State()), schedule)
        decreases |rest|
      {
        Perform(rest[0]);
        rest := rest[1..];
      }
    }
  }

  lemma StartsMarked(s: Store, now: int)
    requires StoreOk(s)
    requires forall key :: key in s.files.latest ==>
      s.files.latest[key].startedAt <= now && s.files.latest[key].id != ""
    ensures var f := Apply(s, MarkStale(now)).files;
      forall key :: key in f.latest ==>
        && KeyOf(f.latest[key]) == key && f.latest[key].status != StatusRunning
        && f.latest[key].startedAt <= now && f.latest[key].id in f.runs && f.latest[key].id != ""
  {
    var f := Apply(s, MarkStale(now)).files;
    forall key | key in f.latest
      ensures KeyOf(f.latest[key]) == key && f.latest[key].id in f.runs
    {
      assert EntryOk(s, key);
    }
  }

  /** Between its two saves a deploy's record is still in its run file. */
  lemma SavedAsRun(store: Store, s: DS.Sys, i: nat)
    requires StoreOk(store) && store.files == s.files && DS.Inv(s) && i in s.pcs && s.pcs[i].Deploying?
    ensures var d := s.pcs[i].d; ValidId(d.id) && d.id in s.files.runs && s.files.runs[d.id] == d
  {
    assert DS.PcOk(s, i);
    assert EntryOk(store, KeyOf(s.pcs[i].d));
  }
}
