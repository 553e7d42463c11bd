/** What every step of the runner keeps: token accounting, job conservation and the bounds that
    follow from them. */
module RunnerSafety {
  import opened Jobs
  import opened RunnerModel

  /** Everything of which the runner keeps a count. */
  datatype Tally =
    | GlobalSlot
    | HostSlot(host: string)
    | PairLock(key: string)
    | Goroutine
    | QueuedJob
    | DroppedJob

  function Held(p: Phase): nat {
    match p
    case WantHost => 1
    case WantPair => 2
    case Locked => 3
    case Running => 3
    case Completing(h) => h
    case Sending(h) => h
    case Releasing(h) => h
    case _ => 0
  }

  predicate InFlight(p: Phase) {
    !(p.Submitting? || p.Rejected? || p.Queued? || p.Dropped? || p.Finished?)
  }

  predicate Counted(t: Task, r: Tally) {
    match r
    case GlobalSlot => Held(t.phase) >= 1
    case HostSlot(host) => Held(t.phase) >= 2 && t.job.host == host
    case PairLock(key) => Held(t.phase) >= 3 && LockKey(t.job) == key
    case Goroutine => InFlight(t.phase)
    case QueuedJob => t.phase.Queued?
    case DroppedJob => t.phase.Dropped?
  }

  ghost function Count(tasks: seq<Task>, r: Tally): nat {
    if tasks == [] then 0
    else Count(tasks[..|tasks| - 1], r) + (if Counted(tasks[|tasks| - 1], r) then 1 else 0)
  }

  /** The number the runner itself keeps for r. */
  ghost function Used(s: State, r: Tally): int {
    match r
    case GlobalSlot => s.globalUsed
    case HostSlot(host) => HostUsed(s, host)
    case PairLock(key) => 1 - PairFree(s, key)
    case Goroutine => s.waitGroup - (if s.dispatching then 1 else 0)
    case QueuedJob => |s.queue|
    case DroppedJob => s.dropped
  }

  ghost predicate Accounted(s: State) {
    forall r: Tally :: Used(s, r) == Count(s.tasks, r)
  }

  ghost predicate Bounded(s: State) {
    && 0 < WorkerLimit(s.config)
    && s.globalUsed <= WorkerLimit(s.config)
    && (forall host: string :: HostUsed(s, host) <= HostLimit(s.config))
    && (forall key: string :: 0 <= PairFree(s, key))
    && |s.queue| <= JOB_BUFFER && |s.results| <= JOB_BUFFER
  }

  /** A task's own history: OnComplete called at most once and not before finish, success only if
      DeployFunc ran. */
  ghost predicate TaskOk(t: Task) {
    && Held(t.phase) <= 3
    && t.completions == (if t.phase.Sending? || t.phase.Releasing? || t.phase.Finished? then 1 else 0)
    && (t.phase.Running? ==> t.started)
    && (t.started ==> t.phase.Running? || t.outcome != Undecided)
    && (t.outcome != Undecided <==> t.phase.Completing? || t.completions == 1)
    && (t.outcome == Succeeded ==> t.started)
  }

  /** The job channel holds exactly the queued tasks, each once. */
  ghost predicate QueueOk(s: State) {
    && (forall k :: 0 <= k < |s.queue| ==> At(s, s.queue[k], Queued))
    && (forall j, k :: 0 <= j < k < |s.queue| ==> s.queue[j] != s.queue[k])
    && (forall i :: 0 <= i < |s.tasks| && s.tasks[i].phase.Queued? ==> i in s.queue)
  }

  ghost predicate StopOk(s: State) {
    && (s.dispatching ==> !s.stop.Draining? && !s.stop.Stopped?)
    && (!StopChannelClosed(s) ==> s.dispatching)
    && (s.stop.Draining? || s.stop.Stopped? ==> s.waitGroup == 0)
    && !s.panicked
  }

  ghost predicate Inv(s: State) {
    && Accounted(s)
    && Bounded(s)
    && (forall i :: 0 <= i < |s.tasks| ==> TaskOk(s.tasks[i]))
    && QueueOk(s)
    && StopOk(s)
  }

  lemma CountUpdate(tasks: seq<Task>, i: nat, t: Task, r: Tally)
    requires i < |tasks|
    ensures Count(tasks[i := t], r)
         == Count(tasks, r) - (if Counted(tasks[i], r) then 1 else 0) + (if Counted(t, r) then 1 else 0)
    decreases |tasks|
  {
    var n := |tasks| - 1;
    if i == n {
      assert tasks[i := t][..n] == tasks[..n];
    } else {
      assert tasks[i := t][..n] == tasks[..n][i := t];
      CountUpdate(tasks[..n], i, t, r);
    }
  }

  lemma CountPositive(tasks: seq<Task>, i: nat, r: Tally)
    requires i < |tasks| && Counted(tasks[i], r)
    ensures Count(tasks, r) >= 1
    decreases |tasks|
  {
    if i < |tasks| - 1 {
      CountPositive(tasks[..|tasks| - 1], i, r);
    }
  }

  lemma CountWitness(tasks: seq<Task>, r: Tally) returns (i: nat)
    requires Count(tasks, r) > 0
    ensures i < |tasks| && Counted(tasks[i], r)
    decreases |tasks|
  {
    var n := |tasks| - 1;
    if Counted(tasks[n], r) {
      i := n;
    } else {
      i := CountWitness(tasks[..n], r);
    }
  }

  /** Two different holders are counted twice. */
  lemma CountTwo(tasks: seq<Task>, i: nat, j: nat, r: Tally)
    requires i < j < |tasks| && Counted(tasks[i], r) && Counted(tasks[j], r)
    ensures Count(tasks, r) >= 2
    decreases |tasks|
  {
    var n := |tasks| - 1;
    if j == n {
      CountPositive(tasks[..n], i, r);
    } else {
      CountTwo(tasks[..n], i, j, r);
    }
  }

  lemma InitInv(c: Config)
    requires 0 < WorkerLimit(c)
    ensures Inv(Init(c))
  {
  }

  /** The task an action moves, if it moves one. */
  ghost function Mover(s: State, a: Action): int
    requires Enabled(s, a)
  {
    match a
    case Dispatch => s.queue[0]
    case StopDrop => s.queue[0]
    case Submit(_) => -1
    case DispatcherExit => -1
    case Receive => -1
    case StopFlag => -1
    case StopClose => -1
    case StopWaited => -1
    case StopFinish => -1
    case _ => a.i
  }

  /** What an action does to its mover, with only that task's own history assumed. */
  ghost predicate MoverOk(s: State, a: Action)
    requires Enabled(s, a)
  {
    var m := Mover(s, a);
    && (m >= 0 ==> TaskOk(s.tasks[m]))
    && (a.Dispatch? || a.StopDrop? ==> s.tasks[m].phase.Queued?)
  }

  ghost predicate MovesOnly(s: State, a: Action, m: int)
    requires Enabled(s, a) && !a.Submit?
  {
    var tasks, tasks' := s.tasks, Next(s, a).tasks;
    && |tasks'| == |tasks|
    && (m < 0 ==> tasks' == tasks)
    && (m >= 0 ==> m < |tasks| && tasks' == tasks[m := tasks'[m]] && tasks'[m].job == tasks[m].job)
  }

  lemma QueueHeadMoves(s: State, a: Action)
    requires (a.Dispatch? || a.StopDrop?) && Enabled(s, a)
    ensures MovesOnly(s, a, s.queue[0])
  {
  }

  lemma RequesterMoves(s: State, a: Action)
    requires (a.Enqueue? || a.RejectSubmit? || a.Cancel? || a.Leave?) && Enabled(s, a)
    ensures MovesOnly(s, a, a.i)
  {
  }

  lemma ExecuteMoves(s: State, a: Action)
    requires InExecute(a) && Enabled(s, a)
    ensures MovesOnly(s, a, a.i)
  {
    assert Next(s, a) == Execute(s, a);
  }

  lemma FinishMoves(s: State, a: Action)
    requires InFinish(a) && Enabled(s, a)
    ensures MovesOnly(s, a, a.i)
  {
    assert Next(s, a) == Finish(s, a);
  }

  lemma TakeMoves(s: State, a: Action)
    requires Takes(a) && Enabled(s, a)
    ensures MovesOnly(s, a, a.i)
  {
    assert Next(s, a) == Take(s, a);
  }

  lemma GiveBackMoves(s: State, a: Action)
    requires GivesBack(a) && Enabled(s, a)
    ensures MovesOnly(s, a, a.i)
  {
    assert Next(s, a) == GiveBack(s, a);
  }

  lemma NobodyMoves(s: State, a: Action)
    requires (a.DispatcherExit? || a.Receive? || a.StopFlag? || a.StopClose? || a.StopWaited? || a.StopFinish?)
    requires Enabled(s, a)
    ensures MovesOnly(s, a, -1)
  {
  }

  lemma OneTaskMoves(s: State, a: Action)
    requires Enabled(s, a) && !a.Submit?
    ensures var m := Mover(s, a);
            && |Next(s, a).tasks| == |s.tasks|
            && (m < 0 ==> Next(s, a).tasks == s.tasks)
            && (m >= 0 ==> m < |s.tasks| && Next(s, a).tasks == s.tasks[m := Next(s, a).tasks[m]])
            && (m >= 0 ==> Next(s, a).tasks[m].job == s.tasks[m].job)
  {
    if a.Dispatch? || a.StopDrop? {
      QueueHeadMoves(s, a);
    } else if Takes(a) {
      TakeMoves(s, a);
    } else if GivesBack(a) {
      GiveBackMoves(s, a);
    } else if InExecute(a) {
      ExecuteMoves(s, a);
    } else if InFinish(a) {
      FinishMoves(s, a);
    } else if a.Enqueue? || a.RejectSubmit? || a.Cancel? || a.Leave? {
      RequesterMoves(s, a);
    } else {
      NobodyMoves(s, a);
    }
  }

  function One(b: bool): int {
    if b then 1 else 0
  }

  /** The runner's own counter moves exactly as its mover's membership in the tally does. */
  ghost predicate CounterFollows(s: State, a: Action, r: Tally)
    requires Enabled(s, a) && !a.Submit?
  {
    var m := Mover(s, a);
    var s' := Next(s, a);
    Used(s', r) == Used(s, r)
      + (if 0 <= m < |s.tasks| && m < |s'.tasks| then One(Counted(s'.tasks[m], r)) - One(Counted(s.tasks[m], r)) else 0)
  }

  lemma TakesCounts(s: State, a: Action, r: Tally)
    requires Takes(a) && Enabled(s, a)
    ensures CounterFollows(s, a, r)
  {
  }

  lemma GivesBackCounts(s: State, a: Action, r: Tally)
    requires GivesBack(a) && Enabled(s, a)
    ensures CounterFollows(s, a, r)
  {
  }

  ghost predicate HoldsOn(s: State, a: Action)
    requires Enabled(s, a) && (InExecute(a) || InFinish(a))
  {
    var s' := Next(s, a);
    var t, t' := s.tasks[a.i], s'.tasks[a.i];
    && s'.globalUsed == s.globalUsed && s'.hostUsed == s.hostUsed && s'.pairFree == s.pairFree
    && s'.waitGroup == s.waitGroup && s'.dispatching == s.dispatching && s'.dropped == s.dropped && s'.queue == s.queue
    && t'.job == t.job && Held(t'.phase) == Held(t.phase) && InFlight(t.phase) && InFlight(t'.phase)
  }

  /** Between taking and giving back, a task keeps what it holds and no counter moves. */
  lemma ExecuteHolds(s: State, a: Action)
    requires InExecute(a) && Enabled(s, a)
    ensures HoldsOn(s, a)
  {
    assert Next(s, a) == Execute(s, a);
  }

  lemma FinishHolds(s: State, a: Action)
    requires InFinish(a) && Enabled(s, a)
    ensures HoldsOn(s, a)
  {
    assert Next(s, a) == Finish(s, a);
  }

  lemma OtherCounts(s: State, a: Action, r: Tally)
    requires !Takes(a) && !GivesBack(a) && !InExecute(a) && !InFinish(a) && !a.Submit? && Enabled(s, a) && MoverOk(s, a)
    ensures CounterFollows(s, a, r)
  {
  }

  lemma TakesHistory(s: State, a: Action)
    requires Takes(a) && Enabled(s, a) && TaskOk(s.tasks[a.i])
    ensures TaskOk(Next(s, a).tasks[a.i])
  {
  }

  lemma GivesBackHistory(s: State, a: Action)
    requires GivesBack(a) && Enabled(s, a) && TaskOk(s.tasks[a.i])
    ensures TaskOk(Next(s, a).tasks[a.i])
  {
  }

  lemma ExecuteHistory(s: State, a: Action)
    requires InExecute(a) && Enabled(s, a) && TaskOk(s.tasks[a.i])
    ensures TaskOk(Next(s, a).tasks[a.i])
  {
  }

  lemma FinishHistory(s: State, a: Action)
    requires InFinish(a) && Enabled(s, a) && TaskOk(s.tasks[a.i])
    ensures TaskOk(Next(s, a).tasks[a.i])
  {
  }

  lemma OtherHistory(s: State, a: Action)
    requires !Takes(a) && !GivesBack(a) && !InExecute(a) && !InFinish(a) && !a.Submit? && Enabled(s, a) && MoverOk(s, a)
    requires Mover(s, a) >= 0
    ensures TaskOk(Next(s, a).tasks[Mover(s, a)])
  {
  }

  lemma InvMover(s: State, a: Action)
    requires Inv(s) && Enabled(s, a)
    ensures MoverOk(s, a)
  {
    if a.Dispatch? || a.StopDrop? {
      assert At(s, s.queue[0], Queued);
    }
  }

  lemma EveryCounterFollows(s: State, a: Action, r: Tally)
    requires Enabled(s, a) && MoverOk(s, a) && !a.Submit?
    ensures CounterFollows(s, a, r)
  {
    if Takes(a) {
      TakesCounts(s, a, r);
    } else if GivesBack(a) {
      GivesBackCounts(s, a, r);
    } else if InExecute(a) {
      ExecuteHolds(s, a);
    } else if InFinish(a) {
      FinishHolds(s, a);
    } else {
      OtherCounts(s, a, r);
    }
  }

  lemma SubmitAccounted(s: State, job: Job, r: Tally)
    requires Enabled(s, Submit(job)) && Used(s, r) == Count(s.tasks, r)
    ensures Used(Next(s, Submit(job)), r) == Count(Next(s, Submit(job)).tasks, r)
  {
    var s' := Next(s, Submit(job));
    assert s'.tasks[..|s'.tasks| - 1] == s.tasks;
  }

  lemma StepKeepsAccounted(s: State, a: Action)
    requires Inv(s) && Enabled(s, a)
    ensures Accounted(Next(s, a))
  {
    var s' := Next(s, a);
    InvMover(s, a);
    forall r: Tally
      ensures Used(s', r) == Count(s'.tasks, r)
    {
      assert Used(s, r) == Count(s.tasks, r);
      if a.Submit? {
        SubmitAccounted(s, a.job, r);
      } else {
        EveryCounterFollows(s, a, r);
        OneTaskMoves(s, a);
        var m := Mover(s, a);
        if m >= 0 {
          CountUpdate(s.tasks, m, s'.tasks[m], r);
        }
      }
    }
  }

  /** Only taking and giving back move the three token counters. */
  lemma TokensStill(s: State, a: Action)
    requires !Takes(a) && !GivesBack(a) && Enabled(s, a)
    ensures var s' := Next(s, a);
            s'.globalUsed == s.globalUsed && s'.hostUsed == s.hostUsed && s'.pairFree == s.pairFree
  {
  }

  lemma BuffersBounded(s: State, a: Action)
    requires Bounded(s) && Enabled(s, a)
    ensures Next(s, a).config == s.config && |Next(s, a).queue| <= JOB_BUFFER && |Next(s, a).results| <= JOB_BUFFER
  {
    if Takes(a) {
      assert Next(s, a) == Take(s, a);
    } else if GivesBack(a) {
      assert Next(s, a) == GiveBack(s, a);
    } else if InExecute(a) {
      assert Next(s, a) == Execute(s, a);
    } else if InFinish(a) {
      assert Next(s, a) == Finish(s, a);
    }
  }

  lemma TakesBounded(s: State, a: Action)
    requires Bounded(s) && Takes(a) && Enabled(s, a)
    ensures Bounded(Next(s, a))
  {
    BuffersBounded(s, a);
    assert forall h :: HostUsed(Next(s, a), h) <= HostUsed(s, h) || HostUsed(s, h) < HostLimit(s.config);
    assert forall k :: PairFree(Next(s, a), k) >= PairFree(s, k) || PairFree(s, k) > 0;
  }

  lemma GivesBackBounded(s: State, a: Action)
    requires Bounded(s) && GivesBack(a) && Enabled(s, a)
    ensures Bounded(Next(s, a))
  {
    BuffersBounded(s, a);
    assert forall h :: HostUsed(Next(s, a), h) <= HostUsed(s, h);
    assert forall k :: PairFree(Next(s, a), k) >= PairFree(s, k);
  }

  lemma StepKeepsBounded(s: State, a: Action)
    requires Inv(s) && Enabled(s, a)
    ensures Bounded(Next(s, a))
  {
    if Takes(a) {
      TakesBounded(s, a);
    } else if GivesBack(a) {
      GivesBackBounded(s, a);
    } else {
      TokensStill(s, a);
      BuffersBounded(s, a);
      assert forall h :: HostUsed(Next(s, a), h) == HostUsed(s, h);
      assert forall k :: PairFree(Next(s, a), k) == PairFree(s, k);
    }
  }

  lemma StepKeepsTasks(s: State, a: Action)
    requires Inv(s) && Enabled(s, a)
    ensures forall i :: 0 <= i < |Next(s, a).tasks| ==> TaskOk(Next(s, a).tasks[i])
  {
    if !a.Submit? {
      InvMover(s, a);
      OneTaskMoves(s, a);
      if Mover(s, a) >= 0 {
        if Takes(a) {
          TakesHistory(s, a);
        } else if GivesBack(a) {
          GivesBackHistory(s, a);
        } else if InExecute(a) {
          ExecuteHistory(s, a);
        } else if InFinish(a) {
          FinishHistory(s, a);
        } else {
          OtherHistory(s, a);
        }
      }
    }
  }

  ghost predicate LeavesQueue(s: State, a: Action, m: nat)
    requires Enabled(s, a) && !a.Submit?
  {
    && Next(s, a).queue == s.queue
    && m < |s.tasks| && m < |Next(s, a).tasks|
    && (Next(s, a).tasks[m].phase.Queued? <==> s.tasks[m].phase.Queued?)
  }

  lemma RequesterLeavesQueue(s: State, a: Action)
    requires (a.RejectSubmit? || a.Cancel? || a.Leave?) && Enabled(s, a)
    ensures LeavesQueue(s, a, a.i)
  {
  }

  lemma ExecuteLeavesQueue(s: State, a: Action)
    requires InExecute(a) && Enabled(s, a)
    ensures LeavesQueue(s, a, a.i)
  {
    assert Next(s, a) == Execute(s, a);
  }

  lemma FinishLeavesQueue(s: State, a: Action)
    requires InFinish(a) && Enabled(s, a)
    ensures LeavesQueue(s, a, a.i)
  {
    assert Next(s, a) == Finish(s, a);
  }

  lemma HolderLeavesQueue(s: State, a: Action)
    requires (Takes(a) || GivesBack(a)) && Enabled(s, a)
    ensures LeavesQueue(s, a, a.i)
  {
    assert Takes(a) ==> Next(s, a) == Take(s, a);
    assert GivesBack(a) ==> Next(s, a) == GiveBack(s, a);
  }

  /** Only Enqueue, Dispatch and StopDrop touch the job channel or move a task in or out of Queued. */
  lemma QueueUntouched(s: State, a: Action)
    requires Enabled(s, a) && !a.Submit? && !a.Enqueue? && !a.Dispatch? && !a.StopDrop?
    ensures Next(s, a).queue == s.queue
    ensures var m := Mover(s, a); m >= 0 ==>
      m < |Next(s, a).tasks| && (Next(s, a).tasks[m].phase.Queued? <==> s.tasks[m].phase.Queued?)
  {
    if a.RejectSubmit? || a.Cancel? || a.Leave? {
      RequesterLeavesQueue(s, a);
    } else if InExecute(a) {
      ExecuteLeavesQueue(s, a);
    } else if InFinish(a) {
      FinishLeavesQueue(s, a);
    } else if Takes(a) || GivesBack(a) {
      HolderLeavesQueue(s, a);
    }
  }

  lemma EnqueueKeepsQueue(s: State, i: nat)
    requires QueueOk(s) && Enabled(s, Enqueue(i))
    ensures QueueOk(Next(s, Enqueue(i)))
  {
    var s' := Next(s, Enqueue(i));
    forall j | 0 <= j < |s'.tasks| && s'.tasks[j].phase.Queued?
      ensures j in s'.queue
    {
      assert j == i ==> s'.queue[|s.queue|] == j;
      assert j != i ==> j in s.queue;
    }
  }

  lemma QueueHeadKeepsQueue(s: State, a: Action)
    requires (a.Dispatch? || a.StopDrop?) && QueueOk(s) && Enabled(s, a)
    ensures QueueOk(Next(s, a))
  {
    assert s.queue == [s.queue[0]] + Next(s, a).queue;
  }

  lemma OthersKeepQueue(s: State, a: Action)
    requires !a.Enqueue? && !a.Dispatch? && !a.StopDrop? && QueueOk(s) && Enabled(s, a)
    ensures QueueOk(Next(s, a))
  {
    if !a.Submit? {
      OneTaskMoves(s, a);
      QueueUntouched(s, a);
    }
  }

  lemma StepKeepsQueue(s: State, a: Action)
    requires Inv(s) && Enabled(s, a)
    ensures QueueOk(Next(s, a))
  {
    if a.Enqueue? {
      EnqueueKeepsQueue(s, a.i);
    } else if a.Dispatch? || a.StopDrop? {
      QueueHeadKeepsQueue(s, a);
    } else {
      OthersKeepQueue(s, a);
    }
  }

  /** A goroutine that still has to call waitGroup.Done is counted, so the runner has not stopped. */
  lemma InFlightMeansNotStopped(s: State, i: nat)
    requires Inv(s) && i < |s.tasks| && InFlight(s.tasks[i].phase)
    ensures s.waitGroup > (if s.dispatching then 1 else 0)
    ensures !s.stop.Draining? && !s.stop.Stopped?
  {
    assert Used(s, Goroutine) == Count(s.tasks, Goroutine);
    CountPositive(s.tasks, i, Goroutine);
  }

  lemma CountersAtRest(s: State, a: Action)
    requires Enabled(s, a) && !a.Dispatch? && !a.DispatcherExit? && !a.Leave? && !a.SendResult?
    ensures var s' := Next(s, a);
            s'.waitGroup == s.waitGroup && s'.dispatching == s.dispatching && s'.panicked == s.panicked
  {
    if Takes(a) {
      assert Next(s, a) == Take(s, a);
    } else if GivesBack(a) {
      assert Next(s, a) == GiveBack(s, a);
    } else if InExecute(a) {
      assert Next(s, a) == Execute(s, a);
    } else if InFinish(a) {
      assert Next(s, a) == Finish(s, a);
    }
  }

  lemma StopAtRest(s: State, a: Action)
    requires Enabled(s, a) && !a.StopFlag? && !a.StopClose? && !a.StopWaited? && !a.StopFinish?
    ensures Next(s, a).stop == s.stop
  {
  }

  lemma DispatcherStop(s: State, a: Action)
    requires a.Dispatch? || a.DispatcherExit?
    requires Enabled(s, a) && StopOk(s) && 1 <= s.waitGroup
    ensures StopOk(Next(s, a))
  {
  }

  lemma GoroutineStop(s: State, a: Action)
    requires a.Leave? || a.SendResult?
    requires Enabled(s, a) && StopOk(s) && 1 <= s.waitGroup && !s.stop.Draining? && !s.stop.Stopped?
    ensures StopOk(Next(s, a))
  {
  }

  lemma OtherStop(s: State, a: Action)
    requires !a.Dispatch? && !a.DispatcherExit? && !a.Leave? && !a.SendResult?
    requires Enabled(s, a) && StopOk(s) && (s.dispatching ==> 1 <= s.waitGroup)
    ensures StopOk(Next(s, a))
  {
    CountersAtRest(s, a);
    if !a.StopFlag? && !a.StopClose? && !a.StopWaited? && !a.StopFinish? {
      StopAtRest(s, a);
    }
  }

  lemma DispatcherCounted(s: State)
    requires Inv(s) && s.dispatching
    ensures 1 <= s.waitGroup
  {
    assert Used(s, Goroutine) == Count(s.tasks, Goroutine);
  }

  lemma StepKeepsStop(s: State, a: Action)
    requires Inv(s) && Enabled(s, a)
    ensures StopOk(Next(s, a))
  {
    if s.dispatching {
      DispatcherCounted(s);
    }
    if a.Leave? || a.SendResult? {
      InFlightMeansNotStopped(s, a.i);
      GoroutineStop(s, a);
    } else if a.Dispatch? || a.DispatcherExit? {
      DispatcherStop(s, a);
    } else {
      OtherStop(s, a);
    }
  }

  lemma StepKeepsInv(s: State, a: Action)
    requires Inv(s) && Enabled(s, a)
    ensures Inv(Next(s, a))
  {
    StepKeepsAccounted(s, a);
    StepKeepsBounded(s, a);
    StepKeepsTasks(s, a);
    StepKeepsQueue(s, a);
    StepKeepsStop(s, a);
  }

  /** The invariant holds after every schedule. */
  lemma {:induction false} RunKeepsInv(s: State, schedule: seq<Action>)
    requires Inv(s) && Legal(s, schedule)
    ensures Inv(After(s, schedule))
    decreases |schedule|
  {
    if schedule != [] {
      StepKeepsInv(s, schedule[0]);
      RunKeepsInv(Next(s, schedule[0]), schedule[1..]);
    }
  }
}
