/** The concurrent job runner (internal/runner) as a state machine.

    One task per call of Submit. A task's phase is the program point its goroutine has reached:
    inside Submit, in the job channel, or inside execute. The buffered channels that serve as
    semaphores are counters of their own, kept apart from the phases, so that "the counter is the
    number of holders" is something to prove. Every action is one atomic step of the source; a Go
    select with several ready cases is several enabled actions. */
module RunnerModel {
  import opened Jobs

  const JOB_BUFFER := 512

  datatype Config = Config(maxWorkers: int, maxHostConcurrency: int, cpus: int)

  function WorkerLimit(c: Config): int {
    if c.maxWorkers <= 0 then c.cpus else c.maxWorkers
  }

  function HostLimit(c: Config): int {
    if c.maxHostConcurrency <= 0 then 1 else c.maxHostConcurrency
  }

  /** `held` says how many of global slot, host slot and pair lock the goroutine has: it takes
      them in that order and its deferred calls give them back in the reverse order. */
  datatype Phase =
    | Submitting              // in the select of Submit
    | Rejected                // Submit returned an error
    | Queued                  // in the job channel
    | Dropped                 // taken from the job channel by Stop
    | Spawned                 // execute entered, context not looked at yet
    | WantGlobal
    | WantHost
    | WantPair
    | Locked                  // has all three, context not looked at again yet
    | Running                 // inside DeployFunc
    | Completing(held: nat)   // in finish, before OnComplete
    | Sending(held: nat)      // in the select of finish
    | Releasing(held: nat)    // running its deferred calls
    | Finished                // waitGroup.Done was called

  datatype Outcome = Undecided | Succeeded | Failed

  datatype Task = Task(job: Job, phase: Phase, cancelled: bool, started: bool, outcome: Outcome, completions: nat)

  /** The program counter of the first call of Stop. */
  datatype StopStage = NotStopping | Flagged | Waiting | Draining | Stopped

  datatype State = State(
    config: Config,
    tasks: seq<Task>,
    queue: seq<nat>,              // jobChannel: task numbers
    globalUsed: int,              // tokens in globalSemaphore
    hostUsed: map<string, int>,   // tokens in each host semaphore; made on first use
    pairFree: map<string, int>,   // tokens in each key's channel; made, holding one, on first use
    results: seq<nat>,            // results: task numbers
    waitGroup: int,
    dispatching: bool,
    stop: StopStage,
    dropped: int,
    panicked: bool)               // a send on, or second close of, a closed channel; a negative waitGroup

  function HostUsed(s: State, host: string): int {
    if host in s.hostUsed then s.hostUsed[host] else 0
  }

  function PairFree(s: State, key: string): int {
    if key in s.pairFree then s.pairFree[key] else 1
  }

  predicate StopChannelClosed(s: State) {
    s.stop.Waiting? || s.stop.Draining? || s.stop.Stopped?
  }

  function Init(c: Config): State {
    State(c, [], [], 0, map[], map[], [], 1, true, NotStopping, 0, false)
  }

  datatype Action =
    | Submit(job: Job)
    | Enqueue(i: nat)
    | RejectSubmit(i: nat)
    | Cancel(i: nat)
    | Dispatch
    | DispatcherExit
    | CheckContext(i: nat)
    | AcquireGlobal(i: nat)
    | AcquireHost(i: nat)
    | AcquirePair(i: nat)
    | Abort(i: nat)
    | StartOrSkip(i: nat)
    | DeployReturns(i: nat, ok: bool)
    | CallOnComplete(i: nat)
    | SendResult(i: nat)
    | SkipSend(i: nat)
    | UnlockPair(i: nat)
    | ReleaseHost(i: nat)
    | ReleaseGlobal(i: nat)
    | Leave(i: nat)
    | Receive
    | StopFlag
    | StopClose
    | StopWaited
    | StopDrop
    | StopFinish

  predicate At(s: State, i: nat, phase: Phase) {
    i < |s.tasks| && s.tasks[i].phase == phase
  }

  predicate Enabled(s: State, a: Action) {
    match a
    case Submit(_) => s.stop.NotStopping?
    case Enqueue(i) => At(s, i, Submitting) && |s.queue| < JOB_BUFFER
    case RejectSubmit(i) => At(s, i, Submitting) && (StopChannelClosed(s) || s.tasks[i].cancelled)
    case Cancel(i) => i < |s.tasks| && !s.tasks[i].cancelled
    case Dispatch => s.dispatching && s.queue != [] && s.queue[0] < |s.tasks|
    case DispatcherExit => s.dispatching && StopChannelClosed(s)
    case CheckContext(i) => At(s, i, Spawned)
    case AcquireGlobal(i) => At(s, i, WantGlobal) && s.globalUsed < WorkerLimit(s.config)
    case AcquireHost(i) => At(s, i, WantHost) && HostUsed(s, s.tasks[i].job.host) < HostLimit(s.config)
    case AcquirePair(i) => At(s, i, WantPair) && PairFree(s, LockKey(s.tasks[i].job)) > 0
    case Abort(i) =>
      // the wait for the pair lock does not look at the stop channel
      || ((At(s, i, WantGlobal) || At(s, i, WantHost)) && (StopChannelClosed(s) || s.tasks[i].cancelled))
      || (At(s, i, WantPair) && s.tasks[i].cancelled)
    case StartOrSkip(i) => At(s, i, Locked)
    case DeployReturns(i, _) => At(s, i, Running)
    case CallOnComplete(i) => i < |s.tasks| && s.tasks[i].phase.Completing?
    case SendResult(i) => i < |s.tasks| && s.tasks[i].phase.Sending? && |s.results| < JOB_BUFFER
    case SkipSend(i) => i < |s.tasks| && s.tasks[i].phase.Sending? && StopChannelClosed(s)
    case UnlockPair(i) => At(s, i, Releasing(3))
    case ReleaseHost(i) => At(s, i, Releasing(2))
    case ReleaseGlobal(i) => At(s, i, Releasing(1))
    case Leave(i) => At(s, i, Releasing(0))
    case Receive => s.results != []
    case StopFlag => s.stop.NotStopping?
    case StopClose => s.stop.Flagged?
    case StopWaited => s.stop.Waiting? && s.waitGroup == 0
    case StopDrop => s.stop.Draining? && s.queue != [] && s.queue[0] < |s.tasks|
    case StopFinish => s.stop.Draining? && s.queue == []
  }

  function Move(s: State, i: nat, phase: Phase): State
    requires i < |s.tasks|
  {
    s.(tasks := s.tasks[i := s.tasks[i].(phase := phase)])
  }

  function Fail(s: State, i: nat, held: nat): State
    requires i < |s.tasks|
  {
    s.(tasks := s.tasks[i := s.tasks[i].(phase := Completing(held), outcome := Failed)])
  }

  predicate Takes(a: Action) {
    a.AcquireGlobal? || a.AcquireHost? || a.AcquirePair?
  }

  predicate GivesBack(a: Action) {
    a.UnlockPair? || a.ReleaseHost? || a.ReleaseGlobal?
  }

  predicate InExecute(a: Action) {
    a.CheckContext? || a.Abort? || a.StartOrSkip? || a.DeployReturns?
  }

  predicate InFinish(a: Action) {
    a.CallOnComplete? || a.SendResult? || a.SkipSend?
  }

  predicate InStop(a: Action) {
    a.StopFlag? || a.StopClose? || a.StopWaited? || a.StopDrop? || a.StopFinish?
  }

  /** A buffered channel or the pair lock grants what its goroutine asked for. */
  function Take(s: State, a: Action): (s': State)
    requires Takes(a) && Enabled(s, a)
    ensures s'.config == s.config && |s'.tasks| == |s.tasks|
  {
    match a
    case AcquireGlobal(i) => Move(s, i, WantHost).(globalUsed := s.globalUsed + 1)
    case AcquireHost(i) =>
      var host := s.tasks[i].job.host;
      Move(s, i, WantPair).(hostUsed := s.hostUsed[host := HostUsed(s, host) + 1])
    case AcquirePair(i) =>
      var key := LockKey(s.tasks[i].job);
      Move(s, i, Locked).(pairFree := s.pairFree[key := PairFree(s, key) - 1])
  }

  function GiveBack(s: State, a: Action): (s': State)
    requires GivesBack(a) && Enabled(s, a)
    ensures s'.config == s.config && |s'.tasks| == |s.tasks|
  {
    match a
    case UnlockPair(i) =>
      var key := LockKey(s.tasks[i].job);
      Move(s, i, Releasing(2)).(pairFree := s.pairFree[key := PairFree(s, key) + 1])
    case ReleaseHost(i) =>
      var host := s.tasks[i].job.host;
      Move(s, i, Releasing(1)).(hostUsed := s.hostUsed[host := HostUsed(s, host) - 1])
    case ReleaseGlobal(i) => Move(s, i, Releasing(0)).(globalUsed := s.globalUsed - 1)
  }

  function Execute(s: State, a: Action): (s': State)
    requires InExecute(a) && Enabled(s, a)
    ensures s'.config == s.config && |s'.tasks| == |s.tasks|
  {
    match a
    case CheckContext(i) => if s.tasks[i].cancelled then Fail(s, i, 0) else Move(s, i, WantGlobal)
    case Abort(i) =>
      Fail(s, i, match s.tasks[i].phase case WantGlobal => 0 case WantHost => 1 case _ => 2)
    case StartOrSkip(i) =>
      if s.tasks[i].cancelled then Fail(s, i, 3)
      else s.(tasks := s.tasks[i := s.tasks[i].(phase := Running, started := true)])
    case DeployReturns(i, ok) =>
      s.(tasks := s.tasks[i := s.tasks[i].(phase := Completing(3), outcome := if ok then Succeeded else Failed)])
  }

  function Finish(s: State, a: Action): (s': State)
    requires InFinish(a) && Enabled(s, a)
    ensures s'.config == s.config && |s'.tasks| == |s.tasks|
  {
    match a
    case CallOnComplete(i) =>
      s.(tasks := s.tasks[i := s.tasks[i].(phase := Sending(s.tasks[i].phase.held),
                                           completions := s.tasks[i].completions + 1)])
    case SendResult(i) =>
      Move(s, i, Releasing(s.tasks[i].phase.held)).(
        results := s.results + [i], panicked := s.panicked || s.stop.Stopped?)
    case SkipSend(i) => Move(s, i, Releasing(s.tasks[i].phase.held))
  }

  function StopStep(s: State, a: Action): (s': State)
    requires InStop(a) && Enabled(s, a)
    ensures s'.config == s.config && |s'.tasks| == |s.tasks|
  {
    match a
    case StopFlag => s.(stop := Flagged)
    case StopClose => s.(stop := Waiting)
    case StopWaited => s.(stop := Draining)
    case StopDrop => Move(s, s.queue[0], Dropped).(queue := s.queue[1..], dropped := s.dropped + 1)
    case StopFinish => s.(stop := Stopped)
  }

  function Next(s: State, a: Action): (s': State)
    requires Enabled(s, a)
    ensures s'.config == s.config
    ensures |s'.tasks| == |s.tasks| + (if a.Submit? then 1 else 0)
  {
    if Takes(a) then Take(s, a)
    else if GivesBack(a) then GiveBack(s, a)
    else if InExecute(a) then Execute(s, a)
    else if InFinish(a) then Finish(s, a)
    else if InStop(a) then StopStep(s, a)
    else
      match a
      case Submit(job) => s.(tasks := s.tasks + [Task(job, Submitting, false, false, Undecided, 0)])
      case Enqueue(i) => Move(s, i, Queued).(queue := s.queue + [i])
      case RejectSubmit(i) => Move(s, i, Rejected)
      case Cancel(i) => s.(tasks := s.tasks[i := s.tasks[i].(cancelled := true)])
      case Dispatch => Move(s, s.queue[0], Spawned).(queue := s.queue[1..], waitGroup := s.waitGroup + 1)
      case DispatcherExit => WaitGroupDone(s.(dispatching := false))
      case Leave(i) => WaitGroupDone(Move(s, i, Finished))
      case Receive => s.(results := s.results[1..])
  }

  function WaitGroupDone(s: State): State {
    s.(waitGroup := s.waitGroup - 1, panicked := s.panicked || s.waitGroup <= 0)
  }

  /** A schedule is any list of actions, each enabled where it is taken. */
  ghost predicate Legal(s: State, schedule: seq<Action>)
    decreases |schedule|
  {
    schedule == [] || (Enabled(s, schedule[0]) && Legal(Next(s, schedule[0]), schedule[1..]))
  }

  ghost function After(s: State, schedule: seq<Action>): State
    requires Legal(s, schedule)
    decreases |schedule|
  {
    if schedule == [] then s else After(Next(s, schedule[0]), schedule[1..])
  }
}
