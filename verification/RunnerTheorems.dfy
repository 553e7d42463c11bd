/** The runner's promises over whole runs: limits, deadlock freedom, termination after Stop, what
    cancellation prevents, and where every accepted job ends up. */
module RunnerTheorems {
  import opened Jobs
  import opened RunnerModel
  import opened RunnerSafety

  // ---- Concurrency limits ----

  ghost function Holders(tasks: seq<Task>, r: Tally): set<nat> {
    set i: nat | i < |tasks| && Counted(tasks[i], r)
  }

  lemma CountIsCardinality(tasks: seq<Task>, r: Tally)
    ensures |Holders(tasks, r)| == Count(tasks, r)
    decreases |tasks|
  {
    if tasks != [] {
      var n := |tasks| - 1;
      CountIsCardinality(tasks[..n], r);
      var before := Holders(tasks[..n], r);
      assert forall i :: i in Holders(tasks, r) <==> i in before || (i == n && Counted(tasks[n], r));
      assert Holders(tasks, r) == if Counted(tasks[n], r) then before + {n} else before;
    }
  }

  lemma SubsetSize(a: set<nat>, b: set<nat>)
    requires a <= b
    ensures |a| <= |b|
  {
    assert b == a + (b - a);
  }

  ghost function RunningTasks(s: State): set<nat> {
    set i: nat | i < |s.tasks| && s.tasks[i].phase.Running?
  }

  ghost function RunningOn(s: State, host: string): set<nat> {
    set i: nat | i < |s.tasks| && s.tasks[i].phase.Running? && s.tasks[i].job.host == host
  }

  /** Two tasks for one (project, host) pair are never both past the pair lock. */
  lemma PairExclusive(s: State, i: nat, j: nat)
    requires Inv(s) && i < |s.tasks| && j < |s.tasks|
    requires Held(s.tasks[i].phase) == 3 && Held(s.tasks[j].phase) == 3
    requires LockKey(s.tasks[i].job) == LockKey(s.tasks[j].job)
    ensures i == j
  {
    var r := PairLock(LockKey(s.tasks[i].job));
    assert Used(s, r) == Count(s.tasks, r);
    assert 0 <= PairFree(s, r.key);
    if i < j {
      CountTwo(s.tasks, i, j, r);
    } else if j < i {
      CountTwo(s.tasks, j, i, r);
    }
  }

  /** After any schedule: at most the worker limit of DeployFuncs run, at most the host limit on
      each host, and at most one for each (project, host). */
  lemma Limits(c: Config, schedule: seq<Action>)
    requires 0 < WorkerLimit(c) && Legal(Init(c), schedule)
    ensures var s := After(Init(c), schedule);
            && |RunningTasks(s)| <= WorkerLimit(c)
            && (forall host :: |RunningOn(s, host)| <= HostLimit(c))
            && (forall i, j | i in RunningTasks(s) && j in RunningTasks(s) ::
                  SamePair(s.tasks[i].job, s.tasks[j].job) ==> i == j)
  {
    var s := After(Init(c), schedule);
    InitInv(c);
    RunKeepsInv(Init(c), schedule);
    ConfigFixed(Init(c), schedule);
    assert Used(s, GlobalSlot) == Count(s.tasks, GlobalSlot);
    CountIsCardinality(s.tasks, GlobalSlot);
    SubsetSize(RunningTasks(s), Holders(s.tasks, GlobalSlot));
    forall host
      ensures |RunningOn(s, host)| <= HostLimit(c)
    {
      assert Used(s, HostSlot(host)) == Count(s.tasks, HostSlot(host));
      CountIsCardinality(s.tasks, HostSlot(host));
      SubsetSize(RunningOn(s, host), Holders(s.tasks, HostSlot(host)));
    }
    forall i, j | i in RunningTasks(s) && j in RunningTasks(s) && SamePair(s.tasks[i].job, s.tasks[j].job)
      ensures i == j
    {
      PairExclusive(s, i, j);
    }
  }

  lemma ConfigFixed(s: State, schedule: seq<Action>)
    requires Legal(s, schedule)
    ensures After(s, schedule).config == s.config
    decreases |schedule|
  {
    if schedule != [] {
      ConfigFixed(Next(s, schedule[0]), schedule[1..]);
    }
  }

  // ---- Deadlock freedom ----

  /** Actions of the runner and of the consumer of its results, as opposed to new requests. */
  predicate Internal(a: Action) {
    !a.Submit? && !a.Cancel? && !a.StopFlag?
  }

  /** Whoever waits, somebody can move: a task waits only for a task that holds more. */
  lemma {:induction false} SomebodyMoves(s: State, i: nat) returns (a: Action)
    requires Inv(s) && i < |s.tasks| && InFlight(s.tasks[i].phase)
    ensures Internal(a) && Enabled(s, a)
    decreases 3 - Held(s.tasks[i].phase)
  {
    assert TaskOk(s.tasks[i]);
    var job := s.tasks[i].job;
    match s.tasks[i].phase
    case Spawned => a := CheckContext(i);
    case WantGlobal =>
      if s.globalUsed < WorkerLimit(s.config) {
        a := AcquireGlobal(i);
      } else {
        assert Used(s, GlobalSlot) == Count(s.tasks, GlobalSlot);
        var j := CountWitness(s.tasks, GlobalSlot);
        assert TaskOk(s.tasks[j]);
        a := SomebodyMoves(s, j);
      }
    case WantHost =>
      if HostUsed(s, job.host) < HostLimit(s.config) {
        a := AcquireHost(i);
      } else {
        assert Used(s, HostSlot(job.host)) == Count(s.tasks, HostSlot(job.host));
        var j := CountWitness(s.tasks, HostSlot(job.host));
        assert TaskOk(s.tasks[j]);
        a := SomebodyMoves(s, j);
      }
    case WantPair =>
      var key := LockKey(job);
      if PairFree(s, key) > 0 {
        a := AcquirePair(i);
      } else {
        assert Used(s, PairLock(key)) == Count(s.tasks, PairLock(key));
        var j := CountWitness(s.tasks, PairLock(key));
        assert TaskOk(s.tasks[j]);
        a := SomebodyMoves(s, j);
      }
    case Locked => a := StartOrSkip(i);
    case Running => a := DeployReturns(i, true);
    case Completing(_) => a := CallOnComplete(i);
    case Sending(_) => a := if |s.results| < JOB_BUFFER then SendResult(i) else Receive;
    case Releasing(h) =>
      a := if h == 3 then UnlockPair(i) else if h == 2 then ReleaseHost(i)
           else if h == 1 then ReleaseGlobal(i) else Leave(i);
  }

  lemma StopMoves(s: State) returns (a: Action)
    requires Inv(s) && !s.stop.NotStopping? && !s.stop.Stopped?
    ensures Internal(a) && Enabled(s, a)
  {
    match s.stop
    case Flagged => a := StopClose;
    case Waiting =>
      if s.dispatching {
        a := DispatcherExit;
      } else if s.waitGroup == 0 {
        a := StopWaited;
      } else {
        assert Used(s, Goroutine) == Count(s.tasks, Goroutine);
        var i := CountWitness(s.tasks, Goroutine);
        a := SomebodyMoves(s, i);
      }
    case Draining =>
      if s.queue == [] {
        a := StopFinish;
      } else {
        assert At(s, s.queue[0], Queued);
        a := StopDrop;
      }
  }

  ghost predicate Stuck(s: State) {
    forall a :: Internal(a) ==> !Enabled(s, a)
  }

  /** A state in which nothing internal can happen has no job left in the runner's hands, and if
      Stop was called it has returned. */
  lemma NoDeadlock(s: State)
    requires Inv(s) && Stuck(s)
    ensures forall i :: 0 <= i < |s.tasks| ==> !InFlight(s.tasks[i].phase)
    ensures s.stop.NotStopping? ==> s.queue == []
    ensures s.stop.NotStopping? || s.stop.Stopped?
  {
    forall i | 0 <= i < |s.tasks|
      ensures !InFlight(s.tasks[i].phase)
    {
      if InFlight(s.tasks[i].phase) {
        var a := SomebodyMoves(s, i);
        assert false;
      }
    }
    if s.stop.NotStopping? && s.queue != [] {
      assert At(s, s.queue[0], Queued);
      assert Internal(Dispatch);
      assert false;
    }
    if !s.stop.NotStopping? && !s.stop.Stopped? {
      var a := StopMoves(s);
      assert false;
    }
  }

  // ---- Termination ----

  function Weight(p: Phase): nat {
    match p
    case Submitting => 15
    case Queued => 14
    case Spawned => 13
    case WantGlobal => 12
    case WantHost => 11
    case WantPair => 10
    case Locked => 9
    case Running => 8
    case Completing(h) => 4 + h
    case Sending(h) => 3 + h
    case Releasing(h) => 1 + h
    case _ => 0
  }

  function TaskWeight(t: Task): nat {
    Weight(t.phase) + (if t.cancelled then 0 else 1)
  }

  const SUBMIT_COST := 16

  function TotalWeight(tasks: seq<Task>): nat {
    if tasks == [] then 0 else TotalWeight(tasks[..|tasks| - 1]) + TaskWeight(tasks[|tasks| - 1])
  }

  function StopRank(p: StopStage): nat {
    match p
    case NotStopping => 4
    case Flagged => 3
    case Waiting => 2
    case Draining => 1
    case Stopped => 0
  }

  function Measure(s: State): nat {
    TotalWeight(s.tasks) + |s.results| + (if s.dispatching then 1 else 0) + StopRank(s.stop)
  }

  lemma WeightUpdate(tasks: seq<Task>, i: nat, t: Task)
    requires i < |tasks|
    ensures TotalWeight(tasks[i := t]) == TotalWeight(tasks) - TaskWeight(tasks[i]) + TaskWeight(t)
    decreases |tasks|
  {
    var n := |tasks| - 1;
    if i == n {
      assert tasks[i := t][..n] == tasks[..n];
    } else {
      assert tasks[i := t][..n] == tasks[..n][i := t];
      WeightUpdate(tasks[..n], i, t);
    }
  }

  function Rest(s: State): int {
    |s.results| + (if s.dispatching then 1 else 0) + StopRank(s.stop)
  }

  ghost predicate Loses(s: State, a: Action)
    requires Enabled(s, a) && !a.Submit?
  {
    var m := Mover(s, a);
    var s' := Next(s, a);
    0 <= m < |s.tasks| && TaskWeight(s'.tasks[m]) + Rest(s') < TaskWeight(s.tasks[m]) + Rest(s)
  }

  lemma TakesLoses(s: State, a: Action)
    requires Takes(a) && Enabled(s, a)
    ensures Loses(s, a)
  {
    assert Next(s, a) == Take(s, a);
  }

  lemma GivesBackLoses(s: State, a: Action)
    requires GivesBack(a) && Enabled(s, a)
    ensures Loses(s, a)
  {
    assert Next(s, a) == GiveBack(s, a);
  }

  lemma AbortLoses(s: State, i: nat)
    requires Enabled(s, Abort(i))
    ensures Loses(s, Abort(i))
  {
  }

  lemma ExecuteLoses(s: State, a: Action)
    requires InExecute(a) && !a.Abort? && Enabled(s, a)
    ensures Loses(s, a)
  {
    assert Next(s, a) == Execute(s, a);
  }

  lemma FinishLoses(s: State, a: Action)
    requires InFinish(a) && Enabled(s, a)
    ensures Loses(s, a)
  {
    assert Next(s, a) == Finish(s, a);
  }

  lemma RequestLoses(s: State, a: Action)
    requires !Takes(a) && !GivesBack(a) && !InExecute(a) && !InFinish(a) && !a.Submit?
    requires Enabled(s, a) && MoverOk(s, a) && Mover(s, a) >= 0
    ensures Loses(s, a)
  {
  }

  lemma OthersLose(s: State, a: Action)
    requires Enabled(s, a) && !a.Submit? && Mover(s, a) < 0
    ensures Rest(Next(s, a)) < Rest(s)
  {
  }

  /** Every action but Submit brings the end nearer. */
  lemma StepDecreases(s: State, a: Action)
    requires Inv(s) && Enabled(s, a)
    ensures if a.Submit? then Measure(Next(s, a)) == Measure(s) + SUBMIT_COST else Measure(Next(s, a)) < Measure(s)
  {
    var s' := Next(s, a);
    InvMover(s, a);
    if a.Submit? {
      assert s'.tasks[..|s'.tasks| - 1] == s.tasks;
    } else {
      OneTaskMoves(s, a);
      var m := Mover(s, a);
      if m >= 0 {
        if Takes(a) {
          TakesLoses(s, a);
        } else if GivesBack(a) {
          GivesBackLoses(s, a);
        } else if a.Abort? {
          AbortLoses(s, a.i);
        } else if InExecute(a) {
          ExecuteLoses(s, a);
        } else if InFinish(a) {
          FinishLoses(s, a);
        } else {
          RequestLoses(s, a);
        }
        WeightUpdate(s.tasks, m, s'.tasks[m]);
      } else {
        OthersLose(s, a);
      }
    }
  }

  function Submissions(schedule: seq<Action>): nat {
    if schedule == [] then 0 else (if schedule[0].Submit? then 1 else 0) + Submissions(schedule[1..])
  }

  /** No run is longer than what its submissions pay for. */
  lemma {:induction false} RunLength(s: State, schedule: seq<Action>)
    requires Inv(s) && Legal(s, schedule)
    ensures |schedule| + Measure(After(s, schedule)) <= Measure(s) + (SUBMIT_COST + 1) * Submissions(schedule)
    decreases |schedule|
  {
    if schedule != [] {
      StepDecreases(s, schedule[0]);
      StepKeepsInv(s, schedule[0]);
      RunLength(Next(s, schedule[0]), schedule[1..]);
    }
  }

  lemma NoSubmitAfterStop(s: State, schedule: seq<Action>)
    requires Legal(s, schedule) && !s.stop.NotStopping?
    ensures Submissions(schedule) == 0
    ensures !After(s, schedule).stop.NotStopping?
    decreases |schedule|
  {
    if schedule != [] {
      NoSubmitAfterStop(Next(s, schedule[0]), schedule[1..]);
    }
  }

  /** Once Stop has begun every run is finite, and one that cannot go on has released Stop's wait
      and closed the results, whatever was in flight. */
  lemma StopReturns(s: State, schedule: seq<Action>)
    requires Inv(s) && !s.stop.NotStopping? && Legal(s, schedule)
    ensures |schedule| <= Measure(s)
    ensures Stuck(After(s, schedule)) ==> After(s, schedule).stop.Stopped?
  {
    RunLength(s, schedule);
    NoSubmitAfterStop(s, schedule);
    RunKeepsInv(s, schedule);
    if Stuck(After(s, schedule)) {
      NoDeadlock(After(s, schedule));
    }
  }

  // ---- Cancellation ----

  predicate Doomed(t: Task) {
    t.cancelled && !t.started
  }

  lemma StepKeepsDoomed(s: State, a: Action, i: nat)
    requires Inv(s) && Enabled(s, a) && i < |s.tasks| && Doomed(s.tasks[i])
    ensures Doomed(Next(s, a).tasks[i])
  {
    if !a.Submit? {
      OneTaskMoves(s, a);
    }
  }

  /** A job whose context is cancelled before the runner's last look at it never starts. */
  lemma {:induction false} CancelledNeverRuns(s: State, schedule: seq<Action>, i: nat)
    requires Inv(s) && Legal(s, schedule) && i < |s.tasks| && Doomed(s.tasks[i])
    ensures i < |After(s, schedule).tasks|
    ensures !After(s, schedule).tasks[i].started && !After(s, schedule).tasks[i].phase.Running?
    ensures After(s, schedule).tasks[i].outcome != Succeeded
    decreases |schedule|
  {
    assert TaskOk(s.tasks[i]);
    if schedule != [] {
      StepKeepsDoomed(s, schedule[0], i);
      StepKeepsInv(s, schedule[0]);
      CancelledNeverRuns(Next(s, schedule[0]), schedule[1..], i);
    }
  }

  // ---- Completion and conservation ----

  function Occurrences(schedule: seq<Action>, a: Action): nat {
    if schedule == [] then 0 else (if schedule[0] == a then 1 else 0) + Occurrences(schedule[1..], a)
  }

  function CompletionsOf(s: State, i: nat): nat {
    if i < |s.tasks| then s.tasks[i].completions else 0
  }

  lemma MoverCompletions(s: State, a: Action)
    requires Enabled(s, a) && !a.Submit? && Mover(s, a) >= 0
    ensures Mover(s, a) < |s.tasks| == |Next(s, a).tasks|
    ensures var m := Mover(s, a);
      Next(s, a).tasks[m].completions == s.tasks[m].completions + (if a == CallOnComplete(m) then 1 else 0)
  {
    if Takes(a) {
      assert Next(s, a) == Take(s, a);
    } else if GivesBack(a) {
      assert Next(s, a) == GiveBack(s, a);
    } else if InExecute(a) {
      assert Next(s, a) == Execute(s, a);
    } else if InFinish(a) {
      assert Next(s, a) == RunnerModel.Finish(s, a);
    }
  }

  lemma StepCompletions(s: State, a: Action, i: nat)
    requires Enabled(s, a)
    ensures CompletionsOf(Next(s, a), i) == CompletionsOf(s, i) + (if a == CallOnComplete(i) then 1 else 0)
  {
    if !a.Submit? {
      OneTaskMoves(s, a);
      if Mover(s, a) >= 0 {
        MoverCompletions(s, a);
      }
    }
  }

  lemma {:induction false} CompletionsAreCalls(s: State, schedule: seq<Action>, i: nat)
    requires Legal(s, schedule)
    ensures CompletionsOf(After(s, schedule), i) == CompletionsOf(s, i) + Occurrences(schedule, CallOnComplete(i))
    decreases |schedule|
  {
    if schedule != [] {
      StepCompletions(s, schedule[0], i);
      CompletionsAreCalls(Next(s, schedule[0]), schedule[1..], i);
    }
  }

  /** OnComplete is called at most once for every job, and exactly once for each whose goroutine has
      finished; never for a job that was rejected, is still queued, or was dropped by Stop. */
  lemma OnCompleteOnce(c: Config, schedule: seq<Action>, i: nat)
    requires 0 < WorkerLimit(c) && Legal(Init(c), schedule)
    requires i < |After(Init(c), schedule).tasks|
    ensures Occurrences(schedule, CallOnComplete(i)) <= 1
    ensures var p := After(Init(c), schedule).tasks[i].phase;
            && (p.Finished? ==> Occurrences(schedule, CallOnComplete(i)) == 1)
            && (p.Submitting? || p.Rejected? || p.Queued? || p.Dropped? ==>
                Occurrences(schedule, CallOnComplete(i)) == 0)
  {
    InitInv(c);
    RunKeepsInv(Init(c), schedule);
    CompletionsAreCalls(Init(c), schedule, i);
    assert TaskOk(After(Init(c), schedule).tasks[i]);
  }

  /** Once the results channel is closed nobody is left who could send on it, then or later. */
  lemma {:induction false} ClosedAfterLastSender(s: State, schedule: seq<Action>)
    requires Inv(s) && s.stop.Stopped? && Legal(s, schedule)
    ensures After(s, schedule).stop.Stopped? && !After(s, schedule).panicked
    ensures forall i :: 0 <= i < |After(s, schedule).tasks| ==> !InFlight(After(s, schedule).tasks[i].phase)
    decreases |schedule|
  {
    forall i | 0 <= i < |s.tasks|
      ensures !InFlight(s.tasks[i].phase)
    {
      if InFlight(s.tasks[i].phase) {
        InFlightMeansNotStopped(s, i);
      }
    }
    if schedule != [] {
      StepKeepsInv(s, schedule[0]);
      ClosedAfterLastSender(Next(s, schedule[0]), schedule[1..]);
    }
  }

  predicate IsAccepted(p: Phase) {
    !p.Submitting? && !p.Rejected?
  }

  function AcceptedJobs(tasks: seq<Task>): nat {
    if tasks == [] then 0
    else AcceptedJobs(tasks[..|tasks| - 1]) + (if IsAccepted(tasks[|tasks| - 1].phase) then 1 else 0)
  }

  function FinishedJobs(tasks: seq<Task>): nat {
    if tasks == [] then 0
    else FinishedJobs(tasks[..|tasks| - 1]) + (if tasks[|tasks| - 1].phase.Finished? then 1 else 0)
  }

  lemma {:induction false} AcceptedSplits(tasks: seq<Task>)
    ensures AcceptedJobs(tasks)
         == Count(tasks, QueuedJob) + Count(tasks, Goroutine) + Count(tasks, DroppedJob) + FinishedJobs(tasks)
    decreases |tasks|
  {
    if tasks != [] {
      AcceptedSplits(tasks[..|tasks| - 1]);
    }
  }

  /** Every accepted job is in exactly one place: the channel, in flight, dropped or finished. */
  lemma Conservation(c: Config, schedule: seq<Action>)
    requires 0 < WorkerLimit(c) && Legal(Init(c), schedule)
    ensures var s := After(Init(c), schedule);
            AcceptedJobs(s.tasks)
            == |s.queue| + (s.waitGroup - (if s.dispatching then 1 else 0)) + s.dropped + FinishedJobs(s.tasks)
  {
    var s := After(Init(c), schedule);
    InitInv(c);
    RunKeepsInv(Init(c), schedule);
    AcceptedSplits(s.tasks);
    assert Used(s, QueuedJob) == Count(s.tasks, QueuedJob);
    assert Used(s, Goroutine) == Count(s.tasks, Goroutine);
    assert Used(s, DroppedJob) == Count(s.tasks, DroppedJob);
  }
}
