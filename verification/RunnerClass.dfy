/** The runner's objects with the fields the source updates. Each method is one stretch of a source
    function between two points at which other goroutines can run, and is proved against the step
    of RunnerModel it performs. */
module RunnerClass {
  import opened Jobs
  import opened RunnerModel
  import opened RunnerSafety

  /** One channel per key, holding one token while the key is unlocked. */
  class KeyedMutex {
    var keys: map<string, int>

    constructor ()
      ensures keys == map[]
    {
      keys := map[];
    }

    method GetOrCreate(key: string)
      modifies this
      ensures key in keys
      ensures keys == if key in old(keys) then old(keys) else old(keys)[key := 1]
    {
      if key !in keys {
        keys := keys[key := 1];
      }
    }

    /** The select of Lock when its channel is ready. */
    method Lock(key: string)
      requires key in keys ==> keys[key] > 0
      modifies this
      ensures keys == old(keys)[key := (if key in old(keys) then old(keys)[key] else 1) - 1]
    {
      GetOrCreate(key);
      keys := keys[key := keys[key] - 1];
    }

    method Unlock(key: string)
      modifies this
      ensures keys == old(keys)[key := (if key in old(keys) then old(keys)[key] else 1) + 1]
    {
      GetOrCreate(key);
      keys := keys[key := keys[key] + 1];
    }
  }

  class Runner {
    const config: Config
    const projectLock: KeyedMutex
    var globalSemaphore: int
    var hostSemaphores: map<string, int>
    var jobChannel: seq<nat>
    var results: seq<nat>
    var waitGroup: int
    var stopped: bool
    var stopChannelClosed: bool
    var resultsClosed: bool
    var draining: bool        // Stop is past waitGroup.Wait
    var dropped: int
    var dispatching: bool     // the dispatch goroutine is alive
    var panicked: bool
    var tasks: seq<Task>      // where each goroutine stands

    ghost predicate FlagsOk()
      reads this
    {
      && (stopChannelClosed ==> stopped) && (draining ==> stopChannelClosed) && (resultsClosed ==> draining)
    }

    ghost function State(): State
      reads this, projectLock
    {
      RunnerModel.State(config, tasks, jobChannel, globalSemaphore, hostSemaphores, projectLock.keys, results,
                        waitGroup,
                        dispatching,
                        if resultsClosed then Stopped else if draining then Draining
                        else if stopChannelClosed then Waiting else if stopped then Flagged else NotStopping,
                        dropped, panicked)
    }

    ghost predicate Valid()
      reads this, projectLock
    {
      FlagsOk() && Inv(State())
    }

    constructor (c: Config)
      requires 0 < WorkerLimit(c)
      ensures Valid() && fresh(projectLock) && State() == Init(c)
    {
      config := c;
      projectLock := new KeyedMutex();
      globalSemaphore, hostSemaphores, jobChannel, results := 0, map[], [], [];
      waitGroup, dispatching := 1, true;
      stopped, stopChannelClosed, resultsClosed, draining, dropped, panicked := false, false, false, false, 0, false;
      tasks := [];
      new;
      InitInv(c);
    }

    /** Submit up to its select. */
    method Submit(job: Job) returns (accepting: bool)
      requires FlagsOk()
      modifies this
      ensures FlagsOk() && accepting == old(State()).stop.NotStopping?
      ensures State() == if accepting then Next(old(State()), RunnerModel.Submit(job)) else old(State())
    {
      if stopped {
        return false;
      }
      tasks := tasks + [Task(job, Submitting, false, false, Undecided, 0)];
      accepting := true;
    }

    /** The three cases of Submit's select, and a cancellation arriving from outside. */
    method Enqueue(i: nat)
      requires FlagsOk() && Enabled(State(), RunnerModel.Enqueue(i))
      modifies this
      ensures FlagsOk() && State() == Next(old(State()), RunnerModel.Enqueue(i))
    {
      jobChannel := jobChannel + [i];
      tasks := tasks[i := tasks[i].(phase := Queued)];
    }

    method RejectSubmit(i: nat)
      requires FlagsOk() && Enabled(State(), RunnerModel.RejectSubmit(i))
      modifies this
      ensures FlagsOk() && State() == Next(old(State()), RunnerModel.RejectSubmit(i))
    {
      tasks := tasks[i := tasks[i].(phase := Rejected)];
    }

    method Cancel(i: nat)
      requires FlagsOk() && Enabled(State(), RunnerModel.Cancel(i))
      modifies this
      ensures FlagsOk() && State() == Next(old(State()), RunnerModel.Cancel(i))
    {
      tasks := tasks[i := tasks[i].(cancelled := true)];
    }

    /** The two cases of the dispatch loop. */
    method Dispatch()
      requires FlagsOk() && Enabled(State(), RunnerModel.Dispatch)
      modifies this
      ensures FlagsOk() && State() == Next(old(State()), RunnerModel.Dispatch)
    {
      var entry := jobChannel[0];
      jobChannel := jobChannel[1..];
      waitGroup := waitGroup + 1;
      tasks := tasks[entry := tasks[entry].(phase := Spawned)];
    }

    method DispatchReturns()
      requires FlagsOk() && Enabled(State(), DispatcherExit)
      modifies this
      ensures FlagsOk() && State() == Next(old(State()), DispatcherExit)
    {
      dispatching := false;
      WaitGroupDone();
    }

    method WaitGroupDone()
      modifies this`waitGroup, this`panicked
      ensures waitGroup == old(waitGroup) - 1 && panicked == (old(panicked) || old(waitGroup) <= 0)
    {
      if waitGroup <= 0 {
        panicked := true;
      }
      waitGroup := waitGroup - 1;
    }

    method GetHostSemaphore(host: string)
      modifies this`hostSemaphores
      ensures hostSemaphores == if host in old(hostSemaphores) then old(hostSemaphores)
        else old(hostSemaphores)[host := 0]
    {
      if host !in hostSemaphores {
        hostSemaphores := hostSemaphores[host := 0];
      }
    }

    /** execute: a slot of the global semaphore is granted. */
    method AcquireGlobal(i: nat)
      requires FlagsOk() && Enabled(State(), RunnerModel.AcquireGlobal(i))
      modifies this
      ensures FlagsOk() && State() == Next(old(State()), RunnerModel.AcquireGlobal(i))
    {
      globalSemaphore := globalSemaphore + 1;
      tasks := tasks[i := tasks[i].(phase := WantHost)];
    }

    /** execute: a slot of the host's semaphore is granted. */
    method AcquireHost(i: nat)
      requires FlagsOk() && Enabled(State(), RunnerModel.AcquireHost(i))
      modifies this
      ensures FlagsOk() && State() == Next(old(State()), RunnerModel.AcquireHost(i))
    {
      var host := tasks[i].job.host;
      GetHostSemaphore(host);
      hostSemaphores := hostSemaphores[host := hostSemaphores[host] + 1];
      assert hostSemaphores == old(hostSemaphores)[host := HostUsed(old(State()), host) + 1];
      tasks := tasks[i := tasks[i].(phase := WantPair)];
    }

    /** execute: the pair lock is granted. */
    method AcquirePair(i: nat)
      requires FlagsOk() && Enabled(State(), RunnerModel.AcquirePair(i))
      modifies this, projectLock
      ensures FlagsOk() && State() == Next(old(State()), RunnerModel.AcquirePair(i))
    {
      projectLock.Lock(LockKey(tasks[i].job));
      tasks := tasks[i := tasks[i].(phase := Locked)];
    }

    /** execute: the two looks at the context. */
    method LookAtContext(a: Action)
      requires FlagsOk() && Enabled(State(), a) && (a.CheckContext? || a.StartOrSkip?)
      modifies this
      ensures FlagsOk() && State() == Next(old(State()), a)
    {
      if tasks[a.i].cancelled {
        FinishWith(a.i, if a.CheckContext? then 0 else 3);
      } else if a.CheckContext? {
        tasks := tasks[a.i := tasks[a.i].(phase := WantGlobal)];
      } else {
        tasks := tasks[a.i := tasks[a.i].(phase := Running, started := true)];
      }
    }

    /** execute: a wait ended by the stop channel or the context. */
    method GiveUp(i: nat)
      requires FlagsOk() && Enabled(State(), Abort(i))
      modifies this
      ensures FlagsOk() && State() == Next(old(State()), Abort(i))
    {
      FinishWith(i, if tasks[i].phase.WantGlobal? then 0 else if tasks[i].phase.WantHost? then 1 else 2);
    }

    /** execute: DeployFunc has returned. */
    method DeployReturned(i: nat, ok: bool)
      requires FlagsOk() && Enabled(State(), DeployReturns(i, ok))
      modifies this
      ensures FlagsOk() && State() == Next(old(State()), DeployReturns(i, ok))
    {
      tasks := tasks[i := tasks[i].(phase := Completing(3), outcome := if ok then Succeeded else Failed)];
    }

    /** The call of finish with an error, holding `held` resources. */
    method FinishWith(i: nat, held: nat)
      requires FlagsOk() && i < |tasks|
      modifies this`tasks
      ensures FlagsOk()
      ensures tasks == old(tasks)[i := old(tasks)[i].(phase := Completing(held), outcome := Failed)]
    {
      tasks := tasks[i := tasks[i].(phase := Completing(held), outcome := Failed)];
    }

    /** finish: OnComplete, then the select on the results channel. */
    method Finish(a: Action)
      requires FlagsOk() && Enabled(State(), a) && InFinish(a)
      modifies this
      ensures FlagsOk() && State() == Next(old(State()), a)
    {
      var task := tasks[a.i];
      if a.CallOnComplete? {
        task := task.(phase := Sending(task.phase.held), completions := task.completions + 1);
      } else {
        if a.SendResult? {
          panicked := panicked || resultsClosed;
          results := results + [a.i];
        }
        task := task.(phase := Releasing(task.phase.held));
      }
      tasks := tasks[a.i := task];
    }

    /** The deferred calls of execute, which run last acquired first. */
    method UnlockPair(i: nat)
      requires FlagsOk() && Enabled(State(), RunnerModel.UnlockPair(i))
      modifies this, projectLock
      ensures FlagsOk() && State() == Next(old(State()), RunnerModel.UnlockPair(i))
    {
      projectLock.Unlock(LockKey(tasks[i].job));
      tasks := tasks[i := tasks[i].(phase := Releasing(2))];
    }

    method ReleaseHost(i: nat)
      requires FlagsOk() && Enabled(State(), RunnerModel.ReleaseHost(i))
      modifies this
      ensures FlagsOk() && State() == Next(old(State()), RunnerModel.ReleaseHost(i))
    {
      var host := tasks[i].job.host;
      GetHostSemaphore(host);
      hostSemaphores := hostSemaphores[host := hostSemaphores[host] - 1];
      assert hostSemaphores == old(hostSemaphores)[host := HostUsed(old(State()), host) - 1];
      tasks := tasks[i := tasks[i].(phase := Releasing(1))];
    }

    method ReleaseGlobal(i: nat)
      requires FlagsOk() && Enabled(State(), RunnerModel.ReleaseGlobal(i))
      modifies this
      ensures FlagsOk() && State() == Next(old(State()), RunnerModel.ReleaseGlobal(i))
    {
      globalSemaphore := globalSemaphore - 1;
      tasks := tasks[i := tasks[i].(phase := Releasing(0))];
    }

    /** The deferred waitGroup.Done of a job's goroutine. */
    method Leave(i: nat)
      requires FlagsOk() && Enabled(State(), RunnerModel.Leave(i))
      modifies this
      ensures FlagsOk() && State() == Next(old(State()), RunnerModel.Leave(i))
    {
      tasks := tasks[i := tasks[i].(phase := Finished)];
      WaitGroupDone();
    }

    /** The consumer of Results takes one. */
    method TakeResult() returns (i: nat)
      requires FlagsOk() && results != []
      modifies this
      ensures FlagsOk() && i == old(results)[0] && State() == Next(old(State()), Receive)
    {
      i := results[0];
      results := results[1..];
    }

    /** Stop, statement by statement. */
    method BeginStop()
      requires FlagsOk() && Enabled(State(), StopFlag)
      modifies this
      ensures FlagsOk() && State() == Next(old(State()), StopFlag)
    {
      stopped := true;
    }

    method CloseStopChannel()
      requires FlagsOk() && Enabled(State(), StopClose)
      modifies this
      ensures FlagsOk() && State() == Next(old(State()), StopClose)
    {
      stopChannelClosed := true;
    }

    method StopWaitReturns()
      requires FlagsOk() && Enabled(State(), StopWaited)
      modifies this
      ensures FlagsOk() && State() == Next(old(State()), StopWaited)
    {
      draining := true;
    }

    /** One turn of Stop's drain loop: drop an entry, or close the results when there is none. */
    method DrainTurn()
      requires FlagsOk() && (Enabled(State(), StopDrop) || Enabled(State(), StopFinish))
      modifies this
      ensures FlagsOk()
      ensures State() == Next(old(State()), if old(jobChannel) != [] then StopDrop else StopFinish)
    {
      if jobChannel != [] {
        var entry := jobChannel[0];
        tasks := tasks[entry := tasks[entry].(phase := Dropped)];
        jobChannel := jobChannel[1..];
        dropped := dropped + 1;
      } else {
        resultsClosed := true;
      }
    }

    method Perform(a: Action)
      requires Valid() && Enabled(State(), a)
      modifies this, projectLock
      ensures Valid() && State() == Next(old(State()), a)
    {
      StepKeepsInv(State(), a);
      if a.Submit? {
        var _ := Submit(a.job);
      } else if a.Enqueue? || a.RejectSubmit? || a.Cancel? || a.Dispatch? || a.DispatcherExit? || a.Receive? {
        PerformQueue(a);
      } else if InStop(a) {
        PerformStop(a);
      } else {
        PerformTask(a);
      }
    }

    /** What Submit, the dispatcher and the receiver of results do. */
    method PerformQueue(a: Action)
      requires FlagsOk() && Enabled(State(), a)
      requires a.Enqueue? || a.RejectSubmit? || a.Cancel? || a.Dispatch? || a.DispatcherExit? || a.Receive?
      modifies this
      ensures FlagsOk() && State() == Next(old(State()), a)
    {
      if a.Enqueue? {
        Enqueue(a.i);
      } else if a.RejectSubmit? {
        RejectSubmit(a.i);
      } else if a.Cancel? {
        Cancel(a.i);
      } else if a.Dispatch? {
        Dispatch();
      } else if a.DispatcherExit? {
        DispatchReturns();
      } else {
        var _ := TakeResult();
      }
    }

    /** What a dispatched job's goroutine does. */
    method PerformTask(a: Action)
      requires FlagsOk() && Enabled(State(), a)
      requires Takes(a) || GivesBack(a) || InExecute(a) || InFinish(a) || a.Leave?
      modifies this, projectLock
      ensures FlagsOk() && State() == Next(old(State()), a)
    {
      if a.AcquireGlobal? {
        AcquireGlobal(a.i);
      } else if a.AcquireHost? {
        AcquireHost(a.i);
      } else if a.AcquirePair? {
        AcquirePair(a.i);
      } else if a.CheckContext? || a.StartOrSkip? {
        LookAtContext(a);
      } else if a.Abort? {
        GiveUp(a.i);
      } else if a.DeployReturns? {
        DeployReturned(a.i, a.ok);
      } else if InFinish(a) {
        Finish(a);
      } else if a.UnlockPair? {
        UnlockPair(a.i);
      } else if a.ReleaseHost? {
        ReleaseHost(a.i);
      } else if a.ReleaseGlobal? {
        ReleaseGlobal(a.i);
      } else {
        Leave(a.i);
      }
    }

    method PerformStop(a: Action)
      requires FlagsOk() && Enabled(State(), a) && InStop(a)
      modifies this
      ensures FlagsOk() && State() == Next(old(State()), a)
    {
      if a.StopFlag? {
        BeginStop();
      } else if a.StopClose? {
        CloseStopChannel();
      } else if a.StopWaited? {
        StopWaitReturns();
      } else {
        DrainTurn();
      }
    }

    /** Any interleaving of the goroutines leaves the object in the state the model predicts. */
    method Run(schedule: seq<Action>)
      requires Valid() && Legal(State(), schedule)
      modifies this, projectLock
      ensures Valid() && State() == After(old(State()), schedule)
    {
      var rest := schedule;
      while rest != []
        invariant Valid() && Legal(State(), rest)
        invariant After(State(), rest) == After(old(State()), schedule)
        decreases |rest|
      {
        Perform(rest[0]);
        rest := rest[1..];
      }
    }
  }
}
