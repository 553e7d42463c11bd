/** The reconcile worker, the runner and App.shutdown together (internal/daemon/daemon.go,
    reconcile_loop.go and ReconcileRemovals): the worker waits for the teardowns it submitted, and
    shutdown waits for the worker before it stops the runner. */
module Shutdown {
  import opened Base
  import opened Jobs
  import RM = RunnerModel
  import RS = RunnerSafety
  import RT = RunnerTheorems
  import RO = RunnerOutcomes

  datatype Mode = Idle | Removing | Deploying | Exited

  /** The worker's goroutine: inside ReconcileRemovals (Removing), inside ReconcileAdditions and
      ReconcileProjectChanges (Deploying), between passes or gone. `todo` are the jobs it still has
      to submit, `call` is the task of the Submit it is blocked in, `mine` the teardowns accepted in
      this pass, `pending` the WaitGroup counter, `deploys` what it submits after the teardowns. */
  datatype Worker = Worker(mode: Mode, todo: seq<Job>, call: Option<nat>, mine: set<nat>, pending: int,
                           deploys: seq<Job>)

  datatype Stage = Serving | IntakeCancelled | WorkerGone

  datatype State = State(runner: RM.State, worker: Worker, stage: Stage)

  datatype Action =
    | RunnerStep(a: RM.Action)
    | Pass(teardowns: seq<Job>, deploys: seq<Job>)   // a trigger was taken from the slot
    | SubmitNext
    | WaitReturns
    | PassEnds
    | WorkerExits
    | CancelIntake
    | WorkerJoined                                   // reconcileLoop.Wait returned

  predicate Submitting(w: Worker) {
    w.mode.Removing? || w.mode.Deploying?
  }

  predicate Enabled(s: State, a: Action) {
    match a
    case RunnerStep(r) =>
      && RM.Enabled(s.runner, r)
      && (r.Submit? ==> r.job.work.Deploy?)      // only the worker submits teardowns
      && (r.StopFlag? ==> s.stage.WorkerGone?)
    case Pass(teardowns, deploys) =>
      && s.worker.mode.Idle?
      && (forall j | j in teardowns :: j.work.Teardown?) && (forall j | j in deploys :: j.work.Deploy?)
    case SubmitNext => Submitting(s.worker) && s.worker.call.None? && s.worker.todo != []
    case WaitReturns => s.worker.mode.Removing? && s.worker.call.None? && s.worker.todo == [] && s.worker.pending == 0
    case PassEnds => s.worker.mode.Deploying? && s.worker.call.None? && s.worker.todo == []
    case WorkerExits => s.worker.mode.Idle? && !s.stage.Serving?
    case CancelIntake => s.stage.Serving?
    case WorkerJoined => s.stage.IntakeCancelled? && s.worker.mode.Exited?
  }

  /** What a runner step does to the worker: its own Submit returning, its OnComplete being called. */
  function Notice(w: Worker, r: RM.Action): Worker {
    match r
    case Enqueue(i) =>
      if w.call != Some(i) then w
      else if w.mode.Removing? then w.(call := None, mine := w.mine + {i})
      else w.(call := None)
    case RejectSubmit(i) =>
      if w.call != Some(i) then w
      else if w.mode.Removing? then w.(call := None, pending := w.pending - 1)
      else w.(call := None)
    case CallOnComplete(i) => if i in w.mine then w.(pending := w.pending - 1) else w
    case _ => w
  }

  function Next(s: State, a: Action): State
    requires Enabled(s, a)
  {
    match a
    case RunnerStep(r) => s.(runner := RM.Next(s.runner, r), worker := Notice(s.worker, r))
    case Pass(teardowns, deploys) => s.(worker := Worker(Removing, teardowns, None, {}, 0, deploys))
    case SubmitNext =>
      var job, w := s.worker.todo[0], s.worker.(todo := s.worker.todo[1..]);
      if RM.Enabled(s.runner, RM.Submit(job)) then
        s.(runner := RM.Next(s.runner, RM.Submit(job)),
           worker := w.(call := Some(|s.runner.tasks|),
                        pending := if w.mode.Removing? then w.pending + 1 else w.pending))
      else s.(worker := w)
    case WaitReturns => s.(worker := Worker(Deploying, s.worker.deploys, None, {}, 0, []))
    case PassEnds => s.(worker := s.worker.(mode := Idle))
    case WorkerExits => s.(worker := s.worker.(mode := Exited))
    case CancelIntake => s.(stage := IntakeCancelled)
    case WorkerJoined => s.(stage := WorkerGone)
  }

  ghost function Unfinished(s: State): set<nat> {
    set i | i in s.worker.mine && i < |s.runner.tasks| && s.runner.tasks[i].completions == 0
  }

  /** A teardown is in the worker's hands until its OnComplete was called or Submit refused it. */
  ghost predicate TeardownOk(s: State, i: nat)
    requires i < |s.runner.tasks|
  {
    var t := s.runner.tasks[i];
    t.job.work.Teardown? ==>
      && (t.phase.Submitting? ==> s.worker.call == Some(i))
      && (RT.IsAccepted(t.phase) && t.completions == 0 ==> i in s.worker.mine)
      && !t.phase.Dropped?
  }

  ghost predicate WorkerOk(s: State) {
    var w := s.worker;
    && WorkerShape(s)
    && w.pending == |Unfinished(s)| + (if w.mode.Removing? && w.call.Some? then 1 else 0)
  }

  ghost predicate Inv(s: State) {
    && RS.Inv(s.runner)
    && WorkerOk(s)
    && (forall i :: 0 <= i < |s.runner.tasks| ==> TeardownOk(s, i))
    && (s.stage.WorkerGone? ==> s.worker.mode.Exited?)
    && (!s.runner.stop.NotStopping? ==> s.stage.WorkerGone?)
    && (s.runner.stop.NotStopping? ==> forall i :: 0 <= i < |s.runner.tasks| ==> !s.runner.tasks[i].phase.Dropped?)
  }

  function Init(c: RM.Config): State {
    State(RM.Init(c), Worker(Idle, [], None, {}, 0, []), Serving)
  }

  lemma InitInv(c: RM.Config)
    requires 0 < RM.WorkerLimit(c)
    ensures Inv(Init(c))
  {
    RS.InitInv(c);
  }

  // ---- Preservation ----

  lemma UnfinishedFollows(s: State, s': State, i: nat)
    requires s'.worker.mine == s.worker.mine && i < |s.runner.tasks| && |s'.runner.tasks| == |s.runner.tasks|
    requires s'.runner.tasks == s.runner.tasks[i := s'.runner.tasks[i]]
    ensures |Unfinished(s')| == |Unfinished(s)| - (if i in Unfinished(s) then 1 else 0)
      + (if i in Unfinished(s') then 1 else 0)
  {
    SetSwap(Unfinished(s), Unfinished(s'), i);
  }

  lemma SetSwap(a: set<nat>, b: set<nat>, i: nat)
    requires forall k :: k != i ==> (k in a <==> k in b)
    ensures |b| == |a| - (if i in a then 1 else 0) + (if i in b then 1 else 0)
  {
    assert a - {i} == b - {i};
    assert |a - {i}| == |a| - (if i in a then 1 else 0);
    assert |b - {i}| == |b| - (if i in b then 1 else 0);
  }

  /** How one runner step can change a task as far as the worker is concerned. */
  predicate Changes(r: RM.Action, t: RM.Task, t': RM.Task) {
    && t'.job == t.job
    && (r.CallOnComplete? ==> t.completions == 0)
    && t'.completions == t.completions + (if r.CallOnComplete? then 1 else 0)
    && (t'.phase.Submitting? ==> t.phase.Submitting?)
    && (t.phase.Submitting? && !t'.phase.Submitting? ==> r.Enqueue? || r.RejectSubmit?)
    && (r.Enqueue? || r.RejectSubmit? ==> t.phase.Submitting?)
    && (r.Enqueue? ==> t'.phase.Queued?) && (r.RejectSubmit? ==> t'.phase.Rejected?)
    && (!r.Enqueue? ==> (RT.IsAccepted(t'.phase) <==> RT.IsAccepted(t.phase)))
    && (t'.phase.Dropped? ==> t.phase.Dropped? || r.StopDrop?)
  }

  lemma TakesChanges(s: RM.State, r: RM.Action)
    requires (RM.Takes(r) || RM.GivesBack(r)) && RM.Enabled(s, r)
    ensures Changes(r, s.tasks[r.i], RM.Next(s, r).tasks[r.i])
  {
    assert RM.Takes(r) ==> RM.Next(s, r) == RM.Take(s, r);
    assert RM.GivesBack(r) ==> RM.Next(s, r) == RM.GiveBack(s, r);
  }

  lemma ExecuteChanges(s: RM.State, r: RM.Action)
    requires RM.InExecute(r) && RM.Enabled(s, r)
    ensures Changes(r, s.tasks[r.i], RM.Next(s, r).tasks[r.i])
  {
    assert RM.Next(s, r) == RM.Execute(s, r);
  }

  lemma FinishChanges(s: RM.State, r: RM.Action)
    requires RM.InFinish(r) && RM.Enabled(s, r) && RS.TaskOk(s.tasks[r.i])
    ensures Changes(r, s.tasks[r.i], RM.Next(s, r).tasks[r.i])
  {
    assert RM.Next(s, r) == RM.Finish(s, r);
  }

  lemma RequestChanges(s: RM.State, r: RM.Action)
    requires r.Enqueue? || r.RejectSubmit? || r.Cancel? || r.Leave?
    requires RM.Enabled(s, r)
    ensures Changes(r, s.tasks[r.i], RM.Next(s, r).tasks[r.i])
  {
  }

  lemma QueueHeadChanges(s: RM.State, r: RM.Action)
    requires (r.Dispatch? || r.StopDrop?) && RM.Enabled(s, r) && s.tasks[s.queue[0]].phase.Queued?
    ensures Changes(r, s.tasks[s.queue[0]], RM.Next(s, r).tasks[s.queue[0]])
  {
  }

  lemma TaskChanges(s: RM.State, r: RM.Action)
    requires RS.Inv(s) && RM.Enabled(s, r) && !r.Submit? && RS.Mover(s, r) >= 0
    ensures RS.Mover(s, r) < |s.tasks| && Changes(r, s.tasks[RS.Mover(s, r)], RM.Next(s, r).tasks[RS.Mover(s, r)])
  {
    RS.InvMover(s, r);
    if RM.Takes(r) || RM.GivesBack(r) {
      TakesChanges(s, r);
    } else if RM.InExecute(r) {
      ExecuteChanges(s, r);
    } else if RM.InFinish(r) {
      assert RS.TaskOk(s.tasks[r.i]);
      FinishChanges(s, r);
    } else if r.Dispatch? || r.StopDrop? {
      QueueHeadChanges(s, r);
    } else {
      RequestChanges(s, r);
    }
  }

  lemma RunnerStepTeardowns(s: State, r: RM.Action)
    requires Inv(s) && Enabled(s, RunnerStep(r))
    ensures var s' := Next(s, RunnerStep(r)); forall i :: 0 <= i < |s'.runner.tasks| ==> TeardownOk(s', i)
  {
    var s' := Next(s, RunnerStep(r));
    forall i | 0 <= i < |s'.runner.tasks|
      ensures TeardownOk(s', i)
    {
      if i < |s.runner.tasks| {
        assert TeardownOk(s, i);
      }
      if !r.Submit? {
        RS.OneTaskMoves(s.runner, r);
        RS.InvMover(s.runner, r);
        if RS.Mover(s.runner, r) >= 0 {
          TaskChanges(s.runner, r);
          assert RS.TaskOk(s.runner.tasks[RS.Mover(s.runner, r)]);
        }
      }
    }
  }

  ghost predicate PendingCounts(s: State) {
    s.worker.pending == |Unfinished(s)| + (if s.worker.mode.Removing? && s.worker.call.Some? then 1 else 0)
  }

  /** The worker's own Submit is accepted. */
  predicate Accepts(s: State, r: RM.Action) {
    r.Enqueue? && s.worker.call == Some(r.i) && s.worker.mode.Removing?
  }

  lemma AcceptedPending(s: State, r: RM.Action)
    requires WorkerOk(s) && Enabled(s, RunnerStep(r)) && Accepts(s, r) && s.runner.tasks[r.i].completions == 0
    ensures PendingCounts(Next(s, RunnerStep(r)))
  {
    var s' := Next(s, RunnerStep(r));
    assert s'.worker == s.worker.(call := None, mine := s.worker.mine + {r.i});
    assert s'.runner.tasks == s.runner.tasks[r.i := s'.runner.tasks[r.i]];
    OneMoreMine(s, s', r.i);
  }

  lemma OneMoreMine(s: State, s': State, i: nat)
    requires i < |s.runner.tasks| && i !in s.worker.mine && s'.worker.mine == s.worker.mine + {i}
    requires |s'.runner.tasks| == |s.runner.tasks| && s'.runner.tasks == s.runner.tasks[i := s'.runner.tasks[i]]
    requires s'.runner.tasks[i].completions == 0
    ensures |Unfinished(s')| == |Unfinished(s)| + 1
  {
    UnfinishedGrows(s, s', i);
    assert i !in Unfinished(s);
  }

  lemma UnfinishedGrows(s: State, s': State, i: nat)
    requires i < |s.runner.tasks| == |s'.runner.tasks| && s'.worker.mine == s.worker.mine + {i}
    requires forall k :: 0 <= k < |s.runner.tasks| && k != i ==> s'.runner.tasks[k] == s.runner.tasks[k]
    requires s'.runner.tasks[i].completions == 0
    ensures Unfinished(s') == Unfinished(s) + {i}
  {
  }

  lemma RunnerStepPending(s: State, r: RM.Action)
    requires Inv(s) && Enabled(s, RunnerStep(r)) && !r.Submit? && RS.Mover(s.runner, r) >= 0
    ensures PendingCounts(Next(s, RunnerStep(r)))
  {
    if Accepts(s, r) {
      assert RS.TaskOk(s.runner.tasks[r.i]);
      AcceptedPending(s, r);
    } else {
      OtherPending(s, r);
    }
  }

  lemma OtherPending(s: State, r: RM.Action)
    requires Inv(s) && Enabled(s, RunnerStep(r)) && !r.Submit? && RS.Mover(s.runner, r) >= 0 && !Accepts(s, r)
    ensures PendingCounts(Next(s, RunnerStep(r)))
  {
    var m := RS.Mover(s.runner, r);
    RS.OneTaskMoves(s.runner, r);
    TaskChanges(s.runner, r);
    assert RS.TaskOk(s.runner.tasks[m]);
    UnfinishedFollows(s, Next(s, RunnerStep(r)), m);
  }

  /** The parts of WorkerOk that do not count. */
  ghost predicate WorkerShape(s: State) {
    var w := s.worker;
    && (w.mode.Removing? ==>
          (forall j | j in w.todo :: j.work.Teardown?) && (forall j | j in w.deploys :: j.work.Deploy?))
    && (w.mode.Deploying? ==> forall j | j in w.todo :: j.work.Deploy?)
    && (!w.mode.Removing? ==> w.mine == {} && w.pending == 0)
    && (!Submitting(w) ==> w.call.None?)
    && (forall i :: i in w.mine ==> i < |s.runner.tasks| && RT.IsAccepted(s.runner.tasks[i].phase))
    && (w.call.Some? ==> RM.At(s.runner, w.call.value, RM.Submitting))
    && (w.call.Some? ==> (s.runner.tasks[w.call.value].job.work.Teardown? <==> w.mode.Removing?))
  }

  lemma RunnerStepShape(s: State, r: RM.Action)
    requires Inv(s) && Enabled(s, RunnerStep(r)) && !r.Submit? && RS.Mover(s.runner, r) >= 0
    ensures WorkerShape(Next(s, RunnerStep(r)))
  {
    RS.OneTaskMoves(s.runner, r);
    TaskChanges(s.runner, r);
    NoticeShape(s, RM.Next(s.runner, r), r, RS.Mover(s.runner, r));
  }

  /** The same without unfolding the runner's step. */
  lemma NoticeShape(s: State, runner': RM.State, r: RM.Action, m: nat)
    requires WorkerShape(s) && m < |s.runner.tasks| && m < |runner'.tasks|
    requires runner'.tasks == s.runner.tasks[m := runner'.tasks[m]]
    requires (r.Enqueue? || r.RejectSubmit? || r.CallOnComplete?) ==> r.i == m
    requires var t, t' := s.runner.tasks[m], runner'.tasks[m];
      && t'.job == t.job
      && (t.phase.Submitting? && !t'.phase.Submitting? ==> r.Enqueue? || r.RejectSubmit?)
      && (r.Enqueue? || r.RejectSubmit? ==> t.phase.Submitting? && !t'.phase.Submitting?)
      && (RT.IsAccepted(t'.phase) <==> r.Enqueue? || RT.IsAccepted(t.phase))
    ensures WorkerShape(s.(runner := runner', worker := Notice(s.worker, r)))
  {
  }

  lemma RunnerStepWorker(s: State, r: RM.Action)
    requires Inv(s) && Enabled(s, RunnerStep(r))
    ensures WorkerOk(Next(s, RunnerStep(r)))
  {
    var s' := Next(s, RunnerStep(r));
    if r.Submit? {
      assert Unfinished(s') == Unfinished(s);
    } else {
      RS.OneTaskMoves(s.runner, r);
      if RS.Mover(s.runner, r) >= 0 {
        RunnerStepShape(s, r);
        RunnerStepPending(s, r);
      } else {
        assert Unfinished(s') == Unfinished(s);
      }
    }
  }

  lemma NothingDroppedYet(s: RM.State, r: RM.Action)
    requires RS.Inv(s) && RM.Enabled(s, r) && RM.Next(s, r).stop.NotStopping?
    requires s.stop.NotStopping? ==> forall i :: 0 <= i < |s.tasks| ==> !s.tasks[i].phase.Dropped?
    ensures s.stop.NotStopping?
    ensures forall i :: 0 <= i < |RM.Next(s, r).tasks| ==> !RM.Next(s, r).tasks[i].phase.Dropped?
  {
    if !r.StopFlag? && !r.StopClose? && !r.StopWaited? && !r.StopFinish? {
      RS.StopAtRest(s, r);
    }
    if !r.Submit? {
      RS.OneTaskMoves(s, r);
      if RS.Mover(s, r) >= 0 {
        TaskChanges(s, r);
      }
    }
  }

  lemma RunnerStepKeepsInv(s: State, r: RM.Action)
    requires Inv(s) && Enabled(s, RunnerStep(r))
    ensures Inv(Next(s, RunnerStep(r)))
  {
    RS.StepKeepsInv(s.runner, r);
    RunnerStepTeardowns(s, r);
    RunnerStepWorker(s, r);
    if RM.Next(s.runner, r).stop.NotStopping? {
      NothingDroppedYet(s.runner, r);
    } else if !r.StopFlag? && !r.StopClose? && !r.StopWaited? && !r.StopFinish? {
      RS.StopAtRest(s.runner, r);
    }
  }

  lemma SubmitNextKeepsInv(s: State)
    requires Inv(s) && Enabled(s, SubmitNext)
    ensures Inv(Next(s, SubmitNext))
  {
    var s' := Next(s, SubmitNext);
    var job := s.worker.todo[0];
    assert job in s.worker.todo;
    assert s.stage != WorkerGone;
    RS.StepKeepsInv(s.runner, RM.Submit(job));
    assert Unfinished(s') == Unfinished(s);
    forall i | 0 <= i < |s'.runner.tasks|
      ensures TeardownOk(s', i)
    {
      if i < |s.runner.tasks| {
        assert TeardownOk(s, i);
      }
    }
  }

  lemma WorkerStepKeepsInv(s: State, a: Action)
    requires Inv(s) && Enabled(s, a) && !a.RunnerStep? && !a.SubmitNext?
    ensures Inv(Next(s, a))
  {
    var s' := Next(s, a);
    if a.WaitReturns? {
      assert Unfinished(s) == {};
    }
    assert Unfinished(s') == Unfinished(s);
    forall i | 0 <= i < |s'.runner.tasks|
      ensures TeardownOk(s', i)
    {
      assert TeardownOk(s, i);
      assert i in s.worker.mine && s.runner.tasks[i].completions == 0 ==> i in Unfinished(s);
    }
  }

  lemma StepKeepsInv(s: State, a: Action)
    requires Inv(s) && Enabled(s, a)
    ensures Inv(Next(s, a))
  {
    match a
    case RunnerStep(r) => RunnerStepKeepsInv(s, r);
    case SubmitNext => SubmitNextKeepsInv(s);
    case _ => WorkerStepKeepsInv(s, a);
  }

  ghost predicate Legal(s: State, schedule: seq<Action>)
    decreases |schedule|
  {
    schedule == [] || (Enabled(s, schedule[0]) && Legal(Next(s, schedule[0]), schedule[1..]))
  }

  ghost function After(s: State, schedule: seq<Action>): State
    requires Legal(s, schedule)
    decreases |schedule|
  {
    if schedule == [] then s else After(Next(s, schedule[0]), schedule[1..])
  }

  lemma {:induction false} RunKeepsInv(s: State, schedule: seq<Action>)
    requires Inv(s) && Legal(s, schedule)
    ensures Inv(After(s, schedule))
    decreases |schedule|
  {
    if schedule != [] {
      StepKeepsInv(s, schedule[0]);
      RunKeepsInv(Next(s, schedule[0]), schedule[1..]);
    }
  }

  // ---- Theorems ----

  /** However worker, runner, shutdown and other submitters interleave: no teardown is ever dropped,
      and once Stop has begun each one was refused or has had its OnComplete. */
  lemma NoTeardownDropped(c: RM.Config, schedule: seq<Action>, i: nat)
    requires 0 < RM.WorkerLimit(c) && Legal(Init(c), schedule)
    requires i < |After(Init(c), schedule).runner.tasks| && After(Init(c), schedule).runner.tasks[i].job.work.Teardown?
    ensures var s := After(Init(c), schedule); var t := s.runner.tasks[i];
      && !t.phase.Dropped?
      && (!s.runner.stop.NotStopping? ==> t.phase.Rejected? || t.completions == 1)
      && (!s.runner.stop.NotStopping? ==> i !in s.runner.queue)
  {
    InitInv(c);
    RunKeepsInv(Init(c), schedule);
    var s := After(Init(c), schedule);
    assert TeardownOk(s, i);
    assert RS.TaskOk(s.runner.tasks[i]);
    if i in s.runner.queue {
      var k :| 0 <= k < |s.runner.queue| && s.runner.queue[k] == i;
      assert RM.At(s.runner, s.runner.queue[k], RM.Queued);
    }
  }

  /** What does not wait for anybody outside: new events and new jobs are not included. */
  predicate Internal(a: Action) {
    match a
    case RunnerStep(r) => RT.Internal(r) || r.StopFlag?
    case Pass(_, _) => false
    case CancelIntake => false
    case _ => true
  }

  ghost predicate Stuck(s: State) {
    forall a :: Internal(a) ==> !Enabled(s, a)
  }

  /** The worker never waits for ever: when nothing can move it is between passes or gone, and if
      shutdown was requested it is gone and Stop has returned. */
  lemma NeverStuckWaiting(s: State)
    requires Inv(s) && Stuck(s)
    ensures s.worker.mode.Idle? || s.worker.mode.Exited?
    ensures !s.stage.Serving? ==> s.worker.mode.Exited? && s.runner.stop.Stopped?
  {
    forall r | RT.Internal(r)
      ensures !RM.Enabled(s.runner, r)
    {
      assert Internal(RunnerStep(r));
    }
    RT.NoDeadlock(s.runner);
    assert Internal(SubmitNext) && Internal(WaitReturns) && Internal(PassEnds) && Internal(WorkerExits)
      && Internal(WorkerJoined);
    assert Internal(RunnerStep(RM.StopFlag));
    if Submitting(s.worker) {
      WorkerCanMove(s);
      assert false;
    }
  }

  lemma WorkerCanMove(s: State)
    requires Inv(s) && Submitting(s.worker)
    requires forall i :: 0 <= i < |s.runner.tasks| ==> !RS.InFlight(s.runner.tasks[i].phase)
    requires s.runner.stop.NotStopping? ==> s.runner.queue == []
    ensures Enabled(s, SubmitNext) || Enabled(s, WaitReturns) || Enabled(s, PassEnds)
         || (s.worker.call.Some? && Enabled(s, RunnerStep(RM.Enqueue(s.worker.call.value))))
  {
    assert s.runner.stop.NotStopping?;
    if s.worker.call.None? && s.worker.todo == [] && s.worker.mode.Removing? {
      forall i | i in s.worker.mine
        ensures i !in Unfinished(s)
      {
        assert RS.TaskOk(s.runner.tasks[i]);
        assert s.runner.tasks[i].phase.Queued? ==> i in s.runner.queue;
      }
      assert Unfinished(s) == {};
    }
  }

  const JOB_COST := RT.SUBMIT_COST + 2

  function ModeRank(m: Mode): nat {
    match m
    case Removing => 3
    case Deploying => 2
    case Idle => 1
    case Exited => 0
  }

  function StageRank(stage: Stage): nat {
    match stage
    case Serving => 2
    case IntakeCancelled => 1
    case WorkerGone => 0
  }

  function Measure(s: State): nat {
    RT.Measure(s.runner) + JOB_COST * |s.worker.todo|
      + (if s.worker.mode.Removing? then JOB_COST * |s.worker.deploys| else 0)
    + ModeRank(s.worker.mode) + StageRank(s.stage)
  }

  /** What an event from outside may add: a deploy submitted by a handler, a pass to run. */
  function Allowance(a: Action): nat {
    match a
    case RunnerStep(r) => if r.Submit? then RT.SUBMIT_COST + 1 else 0
    case Pass(teardowns, deploys) => JOB_COST * (|teardowns| + |deploys|) + 3
    case _ => 0
  }

  function Allowances(schedule: seq<Action>): nat {
    if schedule == [] then 0 else Allowance(schedule[0]) + Allowances(schedule[1..])
  }

  lemma StepPays(s: State, a: Action)
    requires Inv(s) && Enabled(s, a)
    ensures Measure(Next(s, a)) + 1 <= Measure(s) + Allowance(a)
  {
    if a.RunnerStep? {
      RT.StepDecreases(s.runner, a.a);
    } else if a.SubmitNext? && RM.Enabled(s.runner, RM.Submit(s.worker.todo[0])) {
      RT.StepDecreases(s.runner, RM.Submit(s.worker.todo[0]));
    }
  }

  lemma {:induction false} RunLength(s: State, schedule: seq<Action>)
    requires Inv(s) && Legal(s, schedule)
    ensures |schedule| + Measure(After(s, schedule)) <= Measure(s) + Allowances(schedule)
    decreases |schedule|
  {
    if schedule != [] {
      StepPays(s, schedule[0]);
      StepKeepsInv(s, schedule[0]);
      RunLength(Next(s, schedule[0]), schedule[1..]);
    }
  }

  /** Every pass ends and every shutdown completes: a run is bounded by what the events from outside
      allow, and one that cannot go on has released ReconcileRemovals' wait and, if shutdown was
      requested, Stop's as well. */
  lemma ShutdownCompletes(c: RM.Config, schedule: seq<Action>)
    requires 0 < RM.WorkerLimit(c) && Legal(Init(c), schedule)
    ensures |schedule| <= Measure(Init(c)) + Allowances(schedule)
    ensures var s := After(Init(c), schedule);
      Stuck(s) ==> s.worker.pending == 0 && (!s.stage.Serving? ==> s.worker.mode.Exited? && s.runner.stop.Stopped?)
  {
    InitInv(c);
    RunLength(Init(c), schedule);
    RunKeepsInv(Init(c), schedule);
    if Stuck(After(Init(c), schedule)) {
      NeverStuckWaiting(After(Init(c), schedule));
    }
  }

  // ---- Every job of a pass reaches the runner ----

  function JobsOf(tasks: seq<RM.Task>): seq<Job> {
    RO.JobsOf(tasks)
  }

  /** What the worker still has to submit. */
  function StillToSubmit(w: Worker): multiset<Job> {
    multiset(if Submitting(w) then w.todo else []) + multiset(if w.mode.Removing? then w.deploys else [])
  }

  /** The jobs that passes ask for and that others submit. */
  function Asked(schedule: seq<Action>): multiset<Job> {
    if schedule == [] then multiset{} else AskedBy(schedule[0]) + Asked(schedule[1..])
  }

  ghost function Given(s: State): multiset<Job> {
    multiset(JobsOf(s.runner.tasks)) + StillToSubmit(s.worker)
  }

  function AskedBy(a: Action): multiset<Job> {
    match a
    case Pass(teardowns, deploys) => multiset(teardowns) + multiset(deploys)
    case RunnerStep(r) => if r.Submit? then multiset{r.job} else multiset{}
    case _ => multiset{}
  }

  lemma NoticeSubmitsNothing(w: Worker, r: RM.Action)
    ensures StillToSubmit(Notice(w, r)) == StillToSubmit(w)
  {
  }

  lemma RunnerStepGives(s: State, r: RM.Action)
    requires Enabled(s, RunnerStep(r))
    ensures Given(Next(s, RunnerStep(r))) == Given(s) + AskedBy(RunnerStep(r))
  {
    RO.StepKeepsJobs(s.runner, r);
    NoticeSubmitsNothing(s.worker, r);
  }

  lemma SubmitGives(s: State)
    requires Enabled(s, SubmitNext) && RM.Enabled(s.runner, RM.Submit(s.worker.todo[0]))
    ensures Given(Next(s, SubmitNext)) == Given(s)
  {
    var job, rest := s.worker.todo[0], s.worker.todo[1..];
    assert s.worker.todo == [job] + rest;
    assert multiset(s.worker.todo) == multiset{job} + multiset(rest);
    RO.StepKeepsJobs(s.runner, RM.Submit(job));
    assert multiset(JobsOf(s.runner.tasks) + [job]) == multiset(JobsOf(s.runner.tasks)) + multiset{job};
  }

  lemma WorkerStepGives(s: State, a: Action)
    requires Enabled(s, a) && !a.RunnerStep? && !a.SubmitNext?
    ensures Given(Next(s, a)) == Given(s) + AskedBy(a)
  {
  }

  lemma StepGives(s: State, a: Action)
    requires Inv(s) && Enabled(s, a)
    ensures Given(Next(s, a)) == Given(s) + AskedBy(a)
  {
    if a.RunnerStep? {
      RunnerStepGives(s, a.a);
    } else if a.SubmitNext? {
      assert s.runner.stop.NotStopping?;
      SubmitGives(s);
    } else {
      WorkerStepGives(s, a);
    }
  }

  lemma {:induction false} RunGives(s: State, schedule: seq<Action>)
    requires Inv(s) && Legal(s, schedule)
    ensures Given(After(s, schedule)) == Given(s) + Asked(schedule)
    decreases |schedule|
  {
    if schedule != [] {
      StepKeepsInv(s, schedule[0]);
      StepGives(s, schedule[0]);
      RunGives(Next(s, schedule[0]), schedule[1..]);
      Associates(Given(s), AskedBy(schedule[0]), Asked(schedule[1..]));
    }
  }

  lemma Associates(a: multiset<Job>, b: multiset<Job>, c: multiset<Job>)
    ensures a + b + c == a + (b + c)
  {
  }

  /** Over every run no job of a pass is skipped or made up: the runner has been given exactly the
      teardowns and deploys of the passes and what others submitted, but for what the worker is still to
      submit; and between passes that is nothing. */
  lemma EveryPassJobIsSubmitted(c: RM.Config, schedule: seq<Action>)
    requires 0 < RM.WorkerLimit(c) && Legal(Init(c), schedule)
    ensures var s := After(Init(c), schedule);
      && multiset(JobsOf(s.runner.tasks)) + StillToSubmit(s.worker) == Asked(schedule)
      && (s.worker.mode.Idle? || s.worker.mode.Exited? ==> multiset(JobsOf(s.runner.tasks)) == Asked(schedule))
  {
    InitInv(c);
    RunGives(Init(c), schedule);
    assert JobsOf(Init(c).runner.tasks) == [];
  }

  // ---- Why the order of shutdown matters ----

  lemma {:induction false} DroppedForGood(s: RM.State, schedule: seq<RM.Action>, i: nat)
    requires RS.Inv(s) && RM.Legal(s, schedule) && RM.At(s, i, RM.Dropped)
    ensures RM.At(RM.After(s, schedule), i, RM.Dropped) && RM.After(s, schedule).tasks[i].completions == 0
    decreases |schedule|
  {
    assert RS.TaskOk(s.tasks[i]);
    if schedule != [] {
      RS.StepKeepsInv(s, schedule[0]);
      RS.InvMover(s, schedule[0]);
      if !schedule[0].Submit? {
        RS.OneTaskMoves(s, schedule[0]);
      }
      DroppedForGood(RM.Next(s, schedule[0]), schedule[1..], i);
    }
  }

  function StopAtOnce(): seq<RM.Action> {
    [RM.StopFlag] + ([RM.StopClose] + WaitOver())
  }

  function StopTooEarly(teardown: Job): seq<RM.Action> {
    [RM.Submit(teardown)] + ([RM.Enqueue(0)] + StopAtOnce())
  }

  lemma OneMore(s: RM.State, a: RM.Action, rest: seq<RM.Action>)
    requires RM.Enabled(s, a) && RM.Legal(RM.Next(s, a), rest)
    ensures RM.Legal(s, [a] + rest) && RM.After(s, [a] + rest) == RM.After(RM.Next(s, a), rest)
  {
    assert ([a] + rest)[1..] == rest;
  }

  function WaitOver(): seq<RM.Action> {
    [RM.DispatcherExit] + ([RM.StopWaited] + ([RM.StopDrop] + []))
  }

  lemma WaitOverDrops(s: RM.State)
    requires RM.At(s, 0, RM.Queued) && s.queue == [0] && s.stop.Waiting? && s.dispatching && s.waitGroup == 1
    ensures RM.Legal(s, WaitOver()) && RM.At(RM.After(s, WaitOver()), 0, RM.Dropped)
  {
    var s1 := RM.WaitGroupDone(s.(dispatching := false));
    var s2 := s1.(stop := RM.Draining);
    assert RM.Next(s, RM.DispatcherExit) == s1;
    assert RM.Next(s1, RM.StopWaited) == s2;
    OneMore(s2, RM.StopDrop, []);
    OneMore(s1, RM.StopWaited, [RM.StopDrop] + []);
    OneMore(s, RM.DispatcherExit, [RM.StopWaited] + ([RM.StopDrop] + []));
  }

  lemma StopAtOnceDrops(s: RM.State)
    requires RM.At(s, 0, RM.Queued) && s.queue == [0] && s.stop.NotStopping? && s.dispatching && s.waitGroup == 1
    ensures RM.Legal(s, StopAtOnce()) && RM.At(RM.After(s, StopAtOnce()), 0, RM.Dropped)
  {
    var s1 := s.(stop := RM.Flagged);
    var s2 := s.(stop := RM.Waiting);
    assert RM.Next(s, RM.StopFlag) == s1;
    assert RM.Next(s1, RM.StopClose) == s2;
    WaitOverDrops(s2);
    OneMore(s1, RM.StopClose, WaitOver());
    OneMore(s, RM.StopFlag, [RM.StopClose] + WaitOver());
  }

  /** Were the runner stopped without waiting for the worker, an accepted teardown could be dropped,
      and then no continuation would ever call its OnComplete. */
  lemma StopFirstLosesTeardown(c: RM.Config, teardown: Job, rest: seq<RM.Action>)
    requires 0 < RM.WorkerLimit(c)
    ensures RM.Legal(RM.Init(c), StopTooEarly(teardown))
    ensures var s := RM.After(RM.Init(c), StopTooEarly(teardown));
      RM.Legal(s, rest) ==> RM.At(RM.After(s, rest), 0, RM.Dropped) && RM.After(s, rest).tasks[0].completions == 0
  {
    var s, plan := RM.Init(c), StopTooEarly(teardown);
    var s1 := RM.Next(s, RM.Submit(teardown));
    var s2 := RM.Next(s1, RM.Enqueue(0));
    StopAtOnceDrops(s2);
    OneMore(s1, RM.Enqueue(0), StopAtOnce());
    OneMore(s, RM.Submit(teardown), [RM.Enqueue(0)] + StopAtOnce());
    var s' := RM.After(s, plan);
    if RM.Legal(s', rest) {
      RS.InitInv(c);
      RS.RunKeepsInv(s, plan);
      DroppedForGood(s', rest, 0);
    }
  }
}
