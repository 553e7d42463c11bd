/** What becomes of each job over whole runs of the runner: who runs and who does not, and why, in
    which order jobs and results travel, and when a waiting job is granted what it waits for. */
module RunnerOutcomes {
  import opened Jobs
  import opened RunnerModel
  import opened RunnerSafety
  import opened RunnerTheorems

  // ---- What one step does to the task it moves ----

  predicate RanAndFailed(t: Task) {
    t.outcome == Failed && t.started
  }

  predicate FailedUnrun(t: Task) {
    t.outcome == Failed && !t.started
  }

  /** The task has offered its result to the channel. */
  predicate HasSent(t: Task) {
    t.phase.Releasing? || t.phase.Finished?
  }

  /** What happens to a task is what the action says, and for the reason it says. */
  predicate Follows(a: Action, m: nat, stopping: bool, t: Task, t': Task) {
    && One(t'.outcome == Succeeded) == One(t.outcome == Succeeded) + One(a == DeployReturns(m, true))
    && One(RanAndFailed(t')) == One(RanAndFailed(t)) + One(a == DeployReturns(m, false))
    && One(HasSent(t')) == One(HasSent(t)) + One(a == SendResult(m) || a == SkipSend(m))
    && (a == SkipSend(m) ==> stopping)
    && (FailedUnrun(t') ==> FailedUnrun(t) || t.cancelled || stopping)
    && (FailedUnrun(t') && !FailedUnrun(t) && !t.phase.WantGlobal? && !t.phase.WantHost? ==> t.cancelled)
    && (t'.phase.Rejected? ==> t.phase.Rejected? || t.cancelled || stopping)
    && (t'.phase.Dropped? ==> t.phase.Dropped? || a.StopDrop?)
    && (t.cancelled ==> t'.cancelled)
    && (t'.started <==> t.started || (a == StartOrSkip(m) && !t.cancelled))
  }

  ghost predicate MoverFollows(s: State, a: Action)
    requires Enabled(s, a) && !a.Submit?
  {
    var m := Mover(s, a);
    0 <= m < |s.tasks| && Follows(a, m, StopChannelClosed(s), s.tasks[m], Next(s, a).tasks[m])
  }

  lemma TakesFollow(s: State, a: Action)
    requires Takes(a) && Enabled(s, a) && MoverOk(s, a)
    ensures MoverFollows(s, a)
  {
    assert Next(s, a) == Take(s, a);
  }

  lemma GivesBackFollow(s: State, a: Action)
    requires GivesBack(a) && Enabled(s, a) && MoverOk(s, a)
    ensures MoverFollows(s, a)
  {
    assert Next(s, a) == GiveBack(s, a);
  }

  lemma GivingUpFollows(s: State, a: Action)
    requires (a.CheckContext? || a.Abort?) && Enabled(s, a) && MoverOk(s, a)
    ensures MoverFollows(s, a)
  {
    assert Next(s, a) == Execute(s, a);
  }

  lemma RunningFollows(s: State, a: Action)
    requires (a.StartOrSkip? || a.DeployReturns?) && Enabled(s, a) && MoverOk(s, a)
    ensures MoverFollows(s, a)
  {
    assert Next(s, a) == Execute(s, a);
  }

  lemma FinishFollows(s: State, a: Action)
    requires InFinish(a) && Enabled(s, a) && MoverOk(s, a)
    ensures MoverFollows(s, a)
  {
    assert Next(s, a) == RunnerModel.Finish(s, a);
  }

  lemma SubmitFollows(s: State, a: Action)
    requires (a.Enqueue? || a.RejectSubmit?) && Enabled(s, a) && MoverOk(s, a)
    ensures MoverFollows(s, a)
  {
  }

  lemma CancelFollows(s: State, a: Action)
    requires a.Cancel? && Enabled(s, a) && MoverOk(s, a)
    ensures MoverFollows(s, a)
  {
  }

  lemma LeaveFollows(s: State, a: Action)
    requires a.Leave? && Enabled(s, a) && MoverOk(s, a)
    ensures MoverFollows(s, a)
  {
  }

  lemma QueueHeadFollows(s: State, a: Action)
    requires (a.Dispatch? || a.StopDrop?) && Enabled(s, a) && MoverOk(s, a)
    ensures MoverFollows(s, a)
  {
    HeadPhase(s, a);
  }

  lemma HeadPhase(s: State, a: Action)
    requires (a.Dispatch? || a.StopDrop?) && Enabled(s, a)
    ensures var t, t' := s.tasks[s.queue[0]], Next(s, a).tasks[s.queue[0]];
      t' == t.(phase := if a.Dispatch? then Spawned else Dropped)
    ensures Next(s, a).queue == s.queue[1..]
  {
  }

  lemma StepFollows(s: State, a: Action)
    requires Inv(s) && Enabled(s, a) && !a.Submit? && Mover(s, a) >= 0
    ensures MoverFollows(s, a)
  {
    InvMover(s, a);
    if Takes(a) {
      TakesFollow(s, a);
    } else if GivesBack(a) {
      GivesBackFollow(s, a);
    } else if a.CheckContext? || a.Abort? {
      GivingUpFollows(s, a);
    } else if InExecute(a) {
      RunningFollows(s, a);
    } else if InFinish(a) {
      FinishFollows(s, a);
    } else if a.Leave? {
      LeaveFollows(s, a);
    } else if a.Dispatch? || a.StopDrop? {
      QueueHeadFollows(s, a);
    } else if a.Cancel? {
      CancelFollows(s, a);
    } else {
      SubmitFollows(s, a);
    }
  }

  // ---- A job fails without running only for a reason ----

  /** Nobody is turned away or fails unrun unless its context was cancelled or the runner is stopping,
      and only the drain of Stop drops a job. */
  predicate Justified(s: State, t: Task) {
    && (t.outcome == Failed && !t.started ==> t.cancelled || StopChannelClosed(s))
    && (t.phase.Rejected? ==> t.cancelled || StopChannelClosed(s))
    && (t.phase.Dropped? ==> s.stop.Draining? || s.stop.Stopped?)
  }

  ghost predicate AllJustified(s: State) {
    forall i :: 0 <= i < |s.tasks| ==> Justified(s, s.tasks[i])
  }

  lemma StopGoesOn(s: State, a: Action)
    requires Enabled(s, a)
    ensures StopChannelClosed(s) ==> StopChannelClosed(Next(s, a))
    ensures s.stop.Draining? || s.stop.Stopped? ==> Next(s, a).stop.Draining? || Next(s, a).stop.Stopped?
  {
    if Takes(a) {
      assert Next(s, a) == Take(s, a);
    } else if GivesBack(a) {
      assert Next(s, a) == GiveBack(s, a);
    } else if InExecute(a) {
      assert Next(s, a) == Execute(s, a);
    } else if InFinish(a) {
      assert Next(s, a) == RunnerModel.Finish(s, a);
    }
  }

  lemma StepKeepsJustified(s: State, a: Action)
    requires Inv(s) && Enabled(s, a) && AllJustified(s)
    ensures AllJustified(Next(s, a))
  {
    StopGoesOn(s, a);
    if !a.Submit? {
      OneTaskMoves(s, a);
      if Mover(s, a) >= 0 {
        StepFollows(s, a);
      }
    }
  }

  lemma {:induction false} RunKeepsJustified(s: State, schedule: seq<Action>)
    requires Inv(s) && AllJustified(s) && Legal(s, schedule)
    ensures AllJustified(After(s, schedule))
    decreases |schedule|
  {
    if schedule != [] {
      StepKeepsInv(s, schedule[0]);
      StepKeepsJustified(s, schedule[0]);
      RunKeepsJustified(Next(s, schedule[0]), schedule[1..]);
    }
  }

  /** After any schedule: a job that failed without running was cancelled or met the stop of the runner,
      as was one that Submit refused; and a job is dropped only by the drain of Stop. */
  lemma FailsOnlyForAReason(c: Config, schedule: seq<Action>, i: nat)
    requires 0 < WorkerLimit(c) && Legal(Init(c), schedule) && i < |After(Init(c), schedule).tasks|
    ensures var s := After(Init(c), schedule); var t := s.tasks[i];
      var stopping := s.stop.Waiting? || s.stop.Draining? || s.stop.Stopped?;
      && (t.outcome == Failed && !t.started ==> t.cancelled || stopping)
      && (t.phase.Rejected? ==> t.cancelled || stopping)
      && (t.phase.Dropped? ==> s.stop.Draining? || s.stop.Stopped?)
  {
    InitInv(c);
    RunKeepsJustified(Init(c), schedule);
    assert Justified(After(Init(c), schedule), After(Init(c), schedule).tasks[i]);
  }

  /** The job has both slots and is on its way to run, or has. */
  predicate HasBothSlots(t: Task) {
    t.phase.WantPair? || t.phase.Locked? || t.started
  }

  lemma StepKeepsBothSlots(s: State, a: Action, i: nat)
    requires Inv(s) && Enabled(s, a) && i < |s.tasks| && HasBothSlots(s.tasks[i])
    ensures i < |Next(s, a).tasks|
    ensures HasBothSlots(Next(s, a).tasks[i]) || Next(s, a).tasks[i].cancelled
  {
    if !a.Submit? {
      OneTaskMoves(s, a);
      if Mover(s, a) == i {
        StepFollows(s, a);
        InvMover(s, a);
        if !s.tasks[i].started {
          SlotHolderSteps(s, a);
        }
      }
    }
  }

  lemma SlotHolderSteps(s: State, a: Action)
    requires Enabled(s, a) && !a.Submit? && Mover(s, a) >= 0 && MoverOk(s, a)
    requires s.tasks[Mover(s, a)].phase.WantPair? || s.tasks[Mover(s, a)].phase.Locked?
    ensures var t, t' := s.tasks[Mover(s, a)], Next(s, a).tasks[Mover(s, a)];
      HasBothSlots(t') || t.cancelled
  {
    if Takes(a) {
      assert Next(s, a) == Take(s, a);
    } else if InExecute(a) {
      assert Next(s, a) == Execute(s, a);
    }
  }

  lemma {:induction false} CancelledStays(s: State, schedule: seq<Action>, i: nat)
    requires Inv(s) && Legal(s, schedule) && i < |s.tasks| && s.tasks[i].cancelled
    ensures i < |After(s, schedule).tasks| && After(s, schedule).tasks[i].cancelled
    decreases |schedule|
  {
    if schedule != [] {
      var a := schedule[0];
      StepKeepsInv(s, a);
      if !a.Submit? {
        OneTaskMoves(s, a);
        if Mover(s, a) == i {
          StepFollows(s, a);
        }
      }
      CancelledStays(Next(s, a), schedule[1..], i);
    }
  }

  /** A job that has both slots no longer heeds Stop: unless it is cancelled it goes on to run. */
  lemma {:induction false} SlotHoldersIgnoreStop(s: State, schedule: seq<Action>, i: nat)
    requires Inv(s) && Legal(s, schedule) && i < |s.tasks| && HasBothSlots(s.tasks[i])
    ensures i < |After(s, schedule).tasks|
    ensures var t := After(s, schedule).tasks[i]; t.cancelled || HasBothSlots(t)
    decreases |schedule|
  {
    if schedule != [] {
      var a := schedule[0];
      StepKeepsInv(s, a);
      StepKeepsBothSlots(s, a, i);
      if HasBothSlots(Next(s, a).tasks[i]) {
        SlotHoldersIgnoreStop(Next(s, a), schedule[1..], i);
      } else {
        CancelledStays(Next(s, a), schedule[1..], i);
      }
    }
  }

  // ---- The outcome is what DeployFunc returned ----

  function SucceededOf(s: State, i: nat): int {
    if i < |s.tasks| then One(s.tasks[i].outcome == Succeeded) else 0
  }

  function RanAndFailedOf(s: State, i: nat): int {
    if i < |s.tasks| then One(RanAndFailed(s.tasks[i])) else 0
  }

  lemma StepReturns(s: State, a: Action, i: nat)
    requires Inv(s) && Enabled(s, a)
    ensures SucceededOf(Next(s, a), i) == SucceededOf(s, i) + One(a == DeployReturns(i, true))
    ensures RanAndFailedOf(Next(s, a), i) == RanAndFailedOf(s, i) + One(a == DeployReturns(i, false))
  {
    if !a.Submit? {
      OneTaskMoves(s, a);
      if Mover(s, a) >= 0 {
        StepFollows(s, a);
      }
    }
  }

  lemma {:induction false} ReturnsAreOutcomes(s: State, schedule: seq<Action>, i: nat)
    requires Inv(s) && Legal(s, schedule)
    ensures SucceededOf(After(s, schedule), i) == SucceededOf(s, i) + Occurrences(schedule, DeployReturns(i, true))
    ensures RanAndFailedOf(After(s, schedule), i)
         == RanAndFailedOf(s, i) + Occurrences(schedule, DeployReturns(i, false))
    decreases |schedule|
  {
    if schedule != [] {
      StepReturns(s, schedule[0], i);
      StepKeepsInv(s, schedule[0]);
      ReturnsAreOutcomes(Next(s, schedule[0]), schedule[1..], i);
    }
  }

  /** A job has succeeded exactly if its DeployFunc has returned without error; it has run and failed
      exactly if that returned an error; and no DeployFunc returns twice. */
  lemma OutcomeIsReturned(c: Config, schedule: seq<Action>, i: nat)
    requires 0 < WorkerLimit(c) && Legal(Init(c), schedule) && i < |After(Init(c), schedule).tasks|
    ensures var t := After(Init(c), schedule).tasks[i];
      && Occurrences(schedule, DeployReturns(i, true)) == (if t.outcome == Succeeded then 1 else 0)
      && Occurrences(schedule, DeployReturns(i, false)) == (if t.outcome == Failed && t.started then 1 else 0)
  {
    InitInv(c);
    ReturnsAreOutcomes(Init(c), schedule, i);
  }

  /** A job that is in nobody's hands any more, and was not cancelled, has run. */
  lemma SettledHasRun(s: State, i: nat)
    requires Inv(s) && AllJustified(s) && s.stop.NotStopping? && i < |s.tasks| && !s.tasks[i].cancelled
    requires !InFlight(s.tasks[i].phase) && s.queue == [] && !Enabled(s, Enqueue(i))
    ensures s.tasks[i].phase.Finished? && s.tasks[i].started && s.tasks[i].outcome != Undecided
  {
    assert TaskOk(s.tasks[i]) && Justified(s, s.tasks[i]);
    assert s.tasks[i].phase.Queued? ==> i in s.queue;
  }

  /** While Stop is not called, a run that cannot go on has run every job whose context was not
      cancelled, and each such job ended the way its DeployFunc returned. */
  lemma EveryJobRuns(c: Config, schedule: seq<Action>, i: nat)
    requires 0 < WorkerLimit(c) && Legal(Init(c), schedule) && i < |After(Init(c), schedule).tasks|
    requires var s := After(Init(c), schedule); Stuck(s) && s.stop.NotStopping? && !s.tasks[i].cancelled
    ensures var t := After(Init(c), schedule).tasks[i];
      && t.phase.Finished? && t.started
      && (t.outcome == Succeeded <==> Occurrences(schedule, DeployReturns(i, true)) == 1)
      && (t.outcome == Failed <==> Occurrences(schedule, DeployReturns(i, false)) == 1)
      && t.outcome != Undecided
  {
    var s := After(Init(c), schedule);
    InitInv(c);
    RunKeepsInv(Init(c), schedule);
    RunKeepsJustified(Init(c), schedule);
    NoDeadlock(s);
    OutcomeIsReturned(c, schedule, i);
    assert Internal(Enqueue(i)) && !Enabled(s, Enqueue(i));
    SettledHasRun(s, i);
  }

  // ---- The jobs are the submitted ones, and travel in order ----

  function Submitted(schedule: seq<Action>): seq<Job> {
    if schedule == [] then []
    else (if schedule[0].Submit? then [schedule[0].job] else []) + Submitted(schedule[1..])
  }

  function JobsOf(tasks: seq<Task>): seq<Job> {
    seq(|tasks|, i requires 0 <= i < |tasks| => tasks[i].job)
  }

  lemma StepKeepsJobs(s: State, a: Action)
    requires Enabled(s, a)
    ensures JobsOf(Next(s, a).tasks) == JobsOf(s.tasks) + (if a.Submit? then [a.job] else [])
  {
    if !a.Submit? {
      OneTaskMoves(s, a);
    }
  }

  lemma {:induction false} JobsAreSubmitted(s: State, schedule: seq<Action>)
    requires Legal(s, schedule)
    ensures JobsOf(After(s, schedule).tasks) == JobsOf(s.tasks) + Submitted(schedule)
    decreases |schedule|
  {
    if schedule != [] {
      StepKeepsJobs(s, schedule[0]);
      JobsAreSubmitted(Next(s, schedule[0]), schedule[1..]);
    }
  }

  /** The tasks put into the job channel, in the order in which Submit did so. */
  function Enqueued(schedule: seq<Action>): seq<nat> {
    if schedule == [] then []
    else (if schedule[0].Enqueue? then [schedule[0].i] else []) + Enqueued(schedule[1..])
  }

  /** The tasks whose goroutine was started or that were dropped, in that order. */
  ghost function Dequeued(s: State, schedule: seq<Action>): seq<nat>
    requires Legal(s, schedule)
    decreases |schedule|
  {
    if schedule == [] then [] else TakenOut(s, schedule[0]) + Dequeued(Next(s, schedule[0]), schedule[1..])
  }

  /** The task that the step gives a goroutine or drops: the one whose phase becomes that. */
  ghost function TakenOut(s: State, a: Action): seq<nat>
    requires Enabled(s, a)
  {
    if a.Dispatch? || a.StopDrop?
    then Entered(s.tasks, Next(s, a).tasks, if a.Dispatch? then Spawned else Dropped, |s.tasks|)
    else []
  }

  /** The tasks among the first n that are in this phase now and were not before. */
  function Entered(tasks: seq<Task>, tasks': seq<Task>, phase: Phase, n: nat): seq<nat>
    requires n <= |tasks| && n <= |tasks'|
  {
    if n == 0 then []
    else
      Entered(tasks, tasks', phase, n - 1)
      + (if tasks'[n - 1].phase == phase && tasks[n - 1].phase != phase then [n - 1] else [])
  }

  lemma {:induction false} OneEntered(tasks: seq<Task>, tasks': seq<Task>, phase: Phase, m: nat, n: nat)
    requires m < |tasks| == |tasks'| && n <= |tasks| && tasks' == tasks[m := tasks'[m]]
    requires tasks'[m].phase == phase && tasks[m].phase != phase
    ensures Entered(tasks, tasks', phase, n) == if m < n then [m] else []
  {
    if n > 0 {
      OneEntered(tasks, tasks', phase, m, n - 1);
    }
  }

  lemma HeadFifo(s: State, a: Action)
    requires Inv(s) && Enabled(s, a) && (a.Dispatch? || a.StopDrop?)
    ensures s.queue == TakenOut(s, a) + Next(s, a).queue
  {
    InvMover(s, a);
    OneTaskMoves(s, a);
    HeadPhase(s, a);
    OneEntered(s.tasks, Next(s, a).tasks, if a.Dispatch? then Spawned else Dropped, s.queue[0], |s.tasks|);
    assert s.queue == [s.queue[0]] + s.queue[1..];
  }

  /** One step: what it takes out of the channel, and what it puts in. */
  lemma StepFifo(s: State, a: Action)
    requires Inv(s) && Enabled(s, a)
    ensures s.queue + (if a.Enqueue? then [a.i] else []) == TakenOut(s, a) + Next(s, a).queue
  {
    if a.Dispatch? || a.StopDrop? {
      HeadFifo(s, a);
    } else if !a.Enqueue? && !a.Submit? {
      QueueUntouched(s, a);
    }
  }

  lemma Regroup(queue: seq<nat>, put: seq<nat>, later: seq<nat>, out: seq<nat>, rest: seq<nat>, left: seq<nat>,
                end: seq<nat>)
    requires queue + put == out + rest && rest + later == left + end
    ensures queue + (put + later) == (out + left) + end
  {
    assert queue + (put + later) == (queue + put) + later == out + (rest + later);
    assert out + (left + end) == (out + left) + end;
  }

  /** First in, first out: what has left the job channel followed by what is in it is what went in. */
  lemma {:induction false} QueueIsFifo(s: State, schedule: seq<Action>)
    requires Inv(s) && Legal(s, schedule)
    ensures s.queue + Enqueued(schedule) == Dequeued(s, schedule) + After(s, schedule).queue
    decreases |schedule|
  {
    if schedule != [] {
      var a, rest := schedule[0], schedule[1..];
      var put, out := if a.Enqueue? then [a.i] else [], TakenOut(s, a);
      StepKeepsInv(s, a);
      StepFifo(s, a);
      QueueIsFifo(Next(s, a), rest);
      Regroup(s.queue, put, Enqueued(rest), out, Next(s, a).queue, Dequeued(Next(s, a), rest),
              After(Next(s, a), rest).queue);
    }
  }

  function Sent(schedule: seq<Action>): seq<nat> {
    if schedule == [] then []
    else (if schedule[0].SendResult? then [schedule[0].i] else []) + Sent(schedule[1..])
  }

  /** What the consumer of the results receives, in that order. */
  ghost function Received(s: State, schedule: seq<Action>): seq<nat>
    requires Legal(s, schedule)
    decreases |schedule|
  {
    if schedule == [] then []
    else (if schedule[0].Receive? then [s.results[0]] else []) + Received(Next(s, schedule[0]), schedule[1..])
  }

  lemma StepResults(s: State, a: Action)
    requires Enabled(s, a)
    ensures if a.SendResult? then Next(s, a).results == s.results + [a.i]
            else if a.Receive? then s.results != [] && Next(s, a).results == s.results[1..]
            else Next(s, a).results == s.results
  {
    if Takes(a) {
      assert Next(s, a) == Take(s, a);
    } else if GivesBack(a) {
      assert Next(s, a) == GiveBack(s, a);
    } else if InExecute(a) {
      assert Next(s, a) == Execute(s, a);
    } else if InFinish(a) {
      assert Next(s, a) == RunnerModel.Finish(s, a);
    }
  }

  /** Results are received in the order in which they were sent, and none is lost or made up. */
  lemma {:induction false} ResultsInOrder(s: State, schedule: seq<Action>)
    requires Legal(s, schedule)
    ensures s.results + Sent(schedule) == Received(s, schedule) + After(s, schedule).results
    decreases |schedule|
  {
    if schedule != [] {
      var a, rest := schedule[0], schedule[1..];
      var put, out := if a.SendResult? then [a.i] else [], if a.Receive? then [s.results[0]] else [];
      StepResults(s, a);
      assert s.results + put == out + Next(s, a).results;
      ResultsInOrder(Next(s, a), rest);
      Regroup(s.results, put, Sent(rest), out, Next(s, a).results, Received(Next(s, a), rest),
              After(Next(s, a), rest).results);
    }
  }

  function SentOf(s: State, i: nat): int {
    if i < |s.tasks| then One(HasSent(s.tasks[i])) else 0
  }

  lemma StepSends(s: State, a: Action, i: nat)
    requires Inv(s) && Enabled(s, a)
    ensures SentOf(Next(s, a), i) == SentOf(s, i) + One(a == SendResult(i)) + One(a == SkipSend(i))
    ensures a == SkipSend(i) ==> StopChannelClosed(s)
  {
    if !a.Submit? {
      OneTaskMoves(s, a);
      if Mover(s, a) >= 0 {
        StepFollows(s, a);
      }
    }
  }

  lemma {:induction false} SendsAreCounted(s: State, schedule: seq<Action>, i: nat)
    requires Inv(s) && Legal(s, schedule)
    ensures SentOf(After(s, schedule), i)
         == SentOf(s, i) + Occurrences(schedule, SendResult(i)) + Occurrences(schedule, SkipSend(i))
    decreases |schedule|
  {
    if schedule != [] {
      StepKeepsInv(s, schedule[0]);
      StepSends(s, schedule[0], i);
      SendsAreCounted(Next(s, schedule[0]), schedule[1..], i);
    }
  }

  lemma {:induction false} SkipsOnlyWhenClosed(s: State, schedule: seq<Action>, i: nat)
    requires Inv(s) && Legal(s, schedule) && Occurrences(schedule, SkipSend(i)) > 0
    ensures StopChannelClosed(After(s, schedule))
    decreases |schedule|
  {
    var a := schedule[0];
    StepKeepsInv(s, a);
    StepSends(s, a, i);
    StopGoesOn(s, a);
    if a == SkipSend(i) {
      StaysClosed(Next(s, a), schedule[1..]);
    } else {
      SkipsOnlyWhenClosed(Next(s, a), schedule[1..], i);
    }
  }

  lemma {:induction false} StaysClosed(s: State, schedule: seq<Action>)
    requires Legal(s, schedule) && StopChannelClosed(s)
    ensures StopChannelClosed(After(s, schedule))
    decreases |schedule|
  {
    if schedule != [] {
      StopGoesOn(s, schedule[0]);
      StaysClosed(Next(s, schedule[0]), schedule[1..]);
    }
  }

  /** A job that has finished has sent its result exactly once, unless Stop closed its channel. */
  lemma ResultIsSent(c: Config, schedule: seq<Action>, i: nat)
    requires 0 < WorkerLimit(c) && Legal(Init(c), schedule) && i < |After(Init(c), schedule).tasks|
    requires After(Init(c), schedule).tasks[i].phase.Finished?
    ensures var s := After(Init(c), schedule);
      && Occurrences(schedule, SendResult(i)) <= 1
      && (s.stop.NotStopping? || s.stop.Flagged? ==> Occurrences(schedule, SendResult(i)) == 1)
  {
    InitInv(c);
    SendsAreCounted(Init(c), schedule, i);
    if Occurrences(schedule, SkipSend(i)) > 0 {
      SkipsOnlyWhenClosed(Init(c), schedule, i);
    }
  }

  // ---- When a waiting job is granted a slot or the lock ----

  lemma HoldersAreUsed(s: State, r: Tally)
    requires Inv(s)
    ensures |Holders(s.tasks, r)| == Used(s, r)
  {
    assert Used(s, r) == Count(s.tasks, r);
    CountIsCardinality(s.tasks, r);
  }

  lemma GlobalGranted(s: State, i: nat)
    requires Inv(s) && i < |s.tasks| && s.tasks[i].phase.WantGlobal?
    ensures Enabled(s, AcquireGlobal(i)) <==>
      |Holders(s.tasks, GlobalSlot)| < if s.config.maxWorkers > 0 then s.config.maxWorkers else s.config.cpus
  {
    HoldersAreUsed(s, GlobalSlot);
  }

  lemma HostGranted(s: State, i: nat)
    requires Inv(s) && i < |s.tasks| && s.tasks[i].phase.WantHost?
    ensures Enabled(s, AcquireHost(i)) <==>
      |Holders(s.tasks, HostSlot(s.tasks[i].job.host))|
      < if s.config.maxHostConcurrency > 0 then s.config.maxHostConcurrency else 1
  {
    HoldersAreUsed(s, HostSlot(s.tasks[i].job.host));
  }

  lemma PairGranted(s: State, i: nat)
    requires Inv(s) && i < |s.tasks| && s.tasks[i].phase.WantPair?
    ensures Enabled(s, AcquirePair(i)) <==> Holders(s.tasks, PairLock(LockKey(s.tasks[i].job))) == {}
  {
    HoldersAreUsed(s, PairLock(LockKey(s.tasks[i].job)));
  }

  /** In every reachable state a job that waits for the global slot, the host's slot or the pair lock can
      take it exactly while fewer jobs than configured hold it: MaxWorkers, or as many as there are
      CPUs; MaxHostConcurrency, or one; and one. */
  lemma GrantedExactly(c: Config, schedule: seq<Action>, i: nat)
    requires 0 < WorkerLimit(c) && Legal(Init(c), schedule) && i < |After(Init(c), schedule).tasks|
    ensures var s := After(Init(c), schedule); var t := s.tasks[i];
      && (t.phase.WantGlobal? ==>
            (Enabled(s, AcquireGlobal(i)) <==>
             |Holders(s.tasks, GlobalSlot)| < if c.maxWorkers > 0 then c.maxWorkers else c.cpus))
      && (t.phase.WantHost? ==>
            (Enabled(s, AcquireHost(i)) <==>
             |Holders(s.tasks, HostSlot(t.job.host))| < if c.maxHostConcurrency > 0 then c.maxHostConcurrency else 1))
      && (t.phase.WantPair? ==>
            (Enabled(s, AcquirePair(i)) <==> Holders(s.tasks, PairLock(LockKey(t.job))) == {}))
  {
    var s := After(Init(c), schedule);
    InitInv(c);
    RunKeepsInv(Init(c), schedule);
    ConfigFixed(Init(c), schedule);
    if s.tasks[i].phase.WantGlobal? {
      GlobalGranted(s, i);
    } else if s.tasks[i].phase.WantHost? {
      HostGranted(s, i);
    } else if s.tasks[i].phase.WantPair? {
      PairGranted(s, i);
    }
  }
}
