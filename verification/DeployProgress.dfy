/** Progress of runner and job bodies together: nothing waits for ever, and runs are bounded by what
    comes from outside. The runner alone counts on every DeployFunc returning; here that is the body's
    doing, step by step. */
module DeployProgress {
  import opened DeploymentStore
  import RM = RunnerModel
  import RS = RunnerSafety
  import RT = RunnerTheorems
  import opened DeploySystem

  /** Steps of the runner and the bodies, as opposed to new requests and the passing of time. */
  predicate Internal(a: Action) {
    match a
    case RunnerStep(r) => RT.Internal(r)
    case Tick(_) => false
    case _ => true
  }

  ghost predicate Stuck(s: Sys) {
    forall a :: Internal(a) ==> !Enabled(s, a)
  }

  // ---- Nobody is stuck ----

  lemma {:induction false} LongerThanAll(ids: set<string>) returns (n: nat)
    ensures forall id :: id in ids ==> |id| <= n
    decreases |ids|
  {
    if ids == {} {
      n := 0;
    } else {
      var id :| id in ids;
      n := LongerThanAll(ids - {id});
      n := if n < |id| then |id| else n;
    }
  }

  /** There is always a new deployment ID. */
  lemma FreshId(f: Files) returns (id: string)
    ensures id != "" && ValidId(id) && id !in f.runs
  {
    var n := LongerThanAll(f.runs.Keys);
    id := seq(n + 1, i => 'a');
    assert |id| == n + 1;
  }

  /** Every body can go on, whatever it is told about the config and however its deploy ends. */
  lemma BodyMoves(s: Sys, i: nat) returns (a: Action)
    requires Inv(s) && i in s.pcs
    ensures Internal(a) && Enabled(s, a)
  {
    assert PcOk(s, i) && i < |s.runner.tasks| && s.runner.tasks[i].phase.Running?;
    match s.pcs[i]
    case Begin => a := if JobOf(s, i).work.Deploy? then LookDesired(i, true) else LookReAdded(i, false);
    case Checked => a := LookRecord(i);
    case MayDeploy =>
      var id := FreshId(s.files);
      a := SaveRunning(i, id);
    case Deploying(_) => a := SaveFinal(i, true, "");
    case TearingDown => a := FinishTeardown(i, true);
    case Returned(ok) => a := RunnerStep(RM.DeployReturns(i, ok));
  }

  /** When nothing can happen by itself, no job is in the runner's hands, no body is under way, and Stop
      has returned if it was called. */
  lemma NoDeadlock(s: Sys)
    requires Inv(s) && Stuck(s)
    ensures s.pcs == map[]
    ensures forall i :: 0 <= i < |s.runner.tasks| ==> !RS.InFlight(s.runner.tasks[i].phase)
    ensures s.runner.stop.NotStopping? ==> s.runner.queue == []
    ensures s.runner.stop.NotStopping? || s.runner.stop.Stopped?
    ensures forall key :: key in s.files.latest ==> s.files.latest[key].status != StatusRunning
  {
    if i :| i in s.pcs {
      var a := BodyMoves(s, i);
      assert false;
    }
    assert forall i: nat :: i < |s.runner.tasks| ==> !s.runner.tasks[i].phase.Running?;
    forall r | RT.Internal(r)
      ensures !RM.Enabled(s.runner, r)
    {
      assert Internal(RunnerStep(r)) && !Enabled(s, RunnerStep(r));
    }
    RT.NoDeadlock(s.runner);
    forall key | key in s.files.latest
      ensures s.files.latest[key].status != StatusRunning
    {
      assert !BeingDeployed(s, key);
    }
  }

  // ---- Runs are bounded ----

  function PcWeight(pc: Pc): nat {
    match pc
    case Begin => 4
    case Checked => 3
    case MayDeploy => 2
    case Deploying(_) => 1
    case TearingDown => 1
    case Returned(_) => 0
  }

  function WeightAt(pcs: map<nat, Pc>, i: nat): nat {
    if i in pcs then PcWeight(pcs[i]) else 0
  }

  function Weights(pcs: map<nat, Pc>, n: nat): nat {
    if n == 0 then 0 else Weights(pcs, n - 1) + WeightAt(pcs, n - 1)
  }

  /** A runner step is worth more than the body it may begin. */
  function Measure(s: Sys): nat {
    5 * RT.Measure(s.runner) + Weights(s.pcs, |s.runner.tasks|)
  }

  const SUBMIT_COST := 5 * RT.SUBMIT_COST

  lemma {:induction false} WeightsDiffer(a: map<nat, Pc>, b: map<nat, Pc>, i: nat, n: nat)
    requires forall k: nat :: k < n && k != i ==> WeightAt(a, k) == WeightAt(b, k)
    ensures Weights(b, n) == Weights(a, n) + (if i < n then WeightAt(b, i) - WeightAt(a, i) else 0)
  {
    if n > 0 {
      WeightsDiffer(a, b, i, n - 1);
    }
  }

  lemma RunnerStepDecreases(s: Sys, r: RM.Action)
    requires Inv(s) && Enabled(s, RunnerStep(r))
    ensures var s' := Next(s, RunnerStep(r));
      if r.Submit? then Measure(s') == Measure(s) + SUBMIT_COST else Measure(s') < Measure(s)
  {
    RT.StepDecreases(s.runner, r);
    var s' := Next(s, RunnerStep(r));
    if r.Submit? {
      assert |s.runner.tasks| !in s.pcs;
    } else {
      RS.OneTaskMoves(s.runner, r);
      if r.StartOrSkip? || r.DeployReturns? {
        WeightsDiffer(s.pcs, s'.pcs, r.i, |s.runner.tasks|);
      }
    }
  }

  lemma LighterPc(s: Sys, s': Sys, i: nat, pc: Pc)
    requires i in s.pcs && i < |s.runner.tasks| && PcWeight(pc) < PcWeight(s.pcs[i])
    requires s'.runner == s.runner && s'.pcs == s.pcs[i := pc]
    ensures Measure(s') < Measure(s)
  {
    WeightsDiffer(s.pcs, s'.pcs, i, |s.runner.tasks|);
  }

  lemma BodyStepDecreases(s: Sys, a: Action)
    requires Enabled(s, a) && !a.RunnerStep? && !a.Tick?
    ensures Measure(Next(s, a)) < Measure(s)
  {
    LighterPc(s, Next(s, a), a.i, Next(s, a).pcs[a.i]);
  }

  function Outside(schedule: seq<Action>): nat {
    if schedule == [] then 0
    else
      var a := schedule[0];
      (if a.RunnerStep? && a.a.Submit? then SUBMIT_COST + 1 else if a.Tick? then 1 else 0) + Outside(schedule[1..])
  }

  lemma {:induction false} RunLength(s: Sys, schedule: seq<Action>)
    requires Inv(s) && Legal(s, schedule)
    ensures |schedule| + Measure(After(s, schedule)) <= Measure(s) + Outside(schedule)
    decreases |schedule|
  {
    if schedule != [] {
      var a := schedule[0];
      StepKeepsInv(s, a);
      RunLength(Next(s, a), schedule[1..]);
      if a.RunnerStep? {
        RunnerStepDecreases(s, a.a);
      } else if !a.Tick? {
        BodyStepDecreases(s, a);
      }
    }
  }

  /** Every run of the daemon is bounded by its submissions and clock ticks, and one that cannot go on
      has finished every job it took on: no body under way and no record left running. */
  lemma EveryRunSettles(s: Sys, schedule: seq<Action>)
    requires Start(s) && Legal(s, schedule)
    ensures |schedule| <= Measure(s) + Outside(schedule)
    ensures var end := After(s, schedule);
      Stuck(end) ==>
        && end.pcs == map[]
        && (forall i :: 0 <= i < |end.runner.tasks| ==> !RS.InFlight(end.runner.tasks[i].phase))
        && (forall key :: key in end.files.latest ==> end.files.latest[key].status != StatusRunning)
        && (end.runner.stop.NotStopping? || end.runner.stop.Stopped?)
  {
    StartInv(s);
    RunLength(s, schedule);
    RunKeepsInv(s, schedule);
    if Stuck(After(s, schedule)) {
      NoDeadlock(After(s, schedule));
    }
  }
}
