/** The jobs of one phase of a pass as the runner runs them: side by side, cut wherever others can come
    between, but one at a time for each (project, host), as the pair lock demands. Whatever the
    interleaving, the phase does what its jobs do one after the other in some order; so a pass
    converges in every interleaving. */
module PassRuns {
  import opened Base
  import opened DeployConfig
  import opened Planner
  import opened Reconcile
  import opened Convergence

  datatype Job = Remove(t: TeardownTarget) | Place(j: DeployJob)

  type Records = map<(string, string), string>

  function JobPair(job: Job): (string, string) {
    match job
    case Remove(t) => (t.projectName, t.host.name)
    case Place(j) => PairOf(j.target)
  }

  // ---- What a job looks at and does ----

  /** The looks at the config and the record, both under the pair lock. */
  predicate Skips(env: Env, current: Config, records: Records, job: Job) {
    match job
    case Remove(t) => DesiredDir(Some(current), t.projectName, t.host.name, env.join) == Some(t.remoteDir)
    case Place(j) =>
      || DesiredDir(Some(current), j.target.project.name, j.target.host.name, env.join).None?
      || (!j.redeploy && PairOf(j.target) in records && records[PairOf(j.target)] == j.sha)
  }

  /** The work on the machine. */
  function Acted(env: Env, live: set<Live>, job: Job): set<Live> {
    match job
    case Remove(t) => WithoutDir(env, live, t.host.address, t.remoteDir)
    case Place(j) => WithoutDir(env, live, j.target.host.address, DirOf(env, j.target)) + {LiveOf(env, j.target)}
  }

  /** What is recorded in the end. */
  function Recorded(records: Records, job: Job): Records {
    match job
    case Remove(t) => if t.removeState then records - {JobPair(job)} else records
    case Place(j) => records[JobPair(job) := j.sha]
  }

  function RunJob(env: Env, current: Config, w: World, job: Job): World {
    if Skips(env, current, w.records, job) then w
    else World(Acted(env, w.live, job), Recorded(w.records, job))
  }

  function RunJobs(env: Env, current: Config, w: World, jobs: seq<Job>): World {
    if jobs == [] then w else RunJob(env, current, RunJobs(env, current, w, jobs[..|jobs| - 1]), jobs[|jobs| - 1])
  }

  // ---- The phase, step by step ----

  /** Between Going and Finished a job holds its pair's lock. */
  datatype Stage = Waiting | Going | Working | Finished

  datatype Action = Look(i: nat) | Act(i: nat) | Note(i: nat)

  /** `order` has the jobs that have skipped or acted, in that order. */
  datatype State = State(stages: seq<Stage>, world: World, order: seq<Job>)

  predicate Holds(s: State, i: nat) {
    i < |s.stages| && (s.stages[i].Going? || s.stages[i].Working?)
  }

  ghost predicate Locked(jobs: seq<Job>, s: State, pair: (string, string))
    requires |jobs| == |s.stages|
  {
    exists k: nat :: Holds(s, k) && JobPair(jobs[k]) == pair
  }

  ghost predicate Enabled(jobs: seq<Job>, s: State, a: Action)
    requires |jobs| == |s.stages|
  {
    && a.i < |jobs|
    && match a
       case Look(i) => s.stages[i].Waiting? && !Locked(jobs, s, JobPair(jobs[i]))
       case Act(i) => s.stages[i].Going?
       case Note(i) => s.stages[i].Working?
  }

  ghost function Next(env: Env, current: Config, jobs: seq<Job>, s: State, a: Action): State
    requires |jobs| == |s.stages| && Enabled(jobs, s, a)
  {
    match a
    case Look(i) =>
      if Skips(env, current, s.world.records, jobs[i])
      then s.(stages := s.stages[i := Finished], order := s.order + [jobs[i]])
      else s.(stages := s.stages[i := Going])
    case Act(i) =>
      State(s.stages[i := Working], s.world.(live := Acted(env, s.world.live, jobs[i])), s.order + [jobs[i]])
    case Note(i) =>
      s.(stages := s.stages[i := Finished], world := s.world.(records := Recorded(s.world.records, jobs[i])))
  }

  function Init(jobs: seq<Job>, w: World): State {
    State(seq(|jobs|, i => Waiting), w, [])
  }

  ghost predicate Legal(env: Env, current: Config, jobs: seq<Job>, s: State, schedule: seq<Action>)
    requires |jobs| == |s.stages|
    decreases |schedule|
  {
    schedule == [] || (Enabled(jobs, s, schedule[0])
                       && Legal(env, current, jobs, Next(env, current, jobs, s, schedule[0]), schedule[1..]))
  }

  ghost function After(env: Env, current: Config, jobs: seq<Job>, s: State, schedule: seq<Action>): (end: State)
    requires |jobs| == |s.stages| && Legal(env, current, jobs, s, schedule)
    ensures |end.stages| == |jobs|
    decreases |schedule|
  {
    if schedule == [] then s
    else After(env, current, jobs, Next(env, current, jobs, s, schedule[0]), schedule[1..])
  }

  ghost predicate AllFinished(s: State) {
    forall i :: 0 <= i < |s.stages| ==> s.stages[i].Finished?
  }

  // ---- Every interleaving is some order ----

  function At(records: Records, pair: (string, string)): Option<string> {
    if pair in records then Some(records[pair]) else None
  }

  /** The serial world is ahead of the real one by the records of the jobs that are working. */
  ghost predicate Ahead(jobs: seq<Job>, s: State, serial: Records)
    requires |jobs| == |s.stages|
  {
    && (forall i :: 0 <= i < |jobs| && s.stages[i].Working? ==>
          At(serial, JobPair(jobs[i])) == At(Recorded(s.world.records, jobs[i]), JobPair(jobs[i])))
    && (forall pair :: !Busy(jobs, s, pair) ==> At(serial, pair) == At(s.world.records, pair))
  }

  /** A job of the pair is working. */
  ghost predicate Busy(jobs: seq<Job>, s: State, pair: (string, string))
    requires |jobs| == |s.stages|
  {
    exists i :: 0 <= i < |jobs| && s.stages[i].Working? && JobPair(jobs[i]) == pair
  }

  ghost predicate Exclusive(jobs: seq<Job>, s: State)
    requires |jobs| == |s.stages|
  {
    forall i: nat, k: nat :: Holds(s, i) && Holds(s, k) && JobPair(jobs[i]) == JobPair(jobs[k]) ==> i == k
  }

  /** The job has skipped or acted. */
  predicate Ordered(stage: Stage) {
    stage.Working? || stage.Finished?
  }

  ghost predicate Inv(env: Env, current: Config, jobs: seq<Job>, w: World, s: State) {
    && |jobs| == |s.stages| && Exclusive(jobs, s)
    && (forall i :: 0 <= i < |jobs| && s.stages[i].Going? ==> !Skips(env, current, s.world.records, jobs[i]))
    && RunJobs(env, current, w, s.order).live == s.world.live
    && Ahead(jobs, s, RunJobs(env, current, w, s.order).records)
    && (forall i :: 0 <= i < |jobs| && Ordered(s.stages[i]) ==> jobs[i] in s.order)
    && (forall job :: job in s.order ==> job in jobs)
  }

  lemma SkipsByPair(env: Env, current: Config, a: Records, b: Records, job: Job)
    requires At(a, JobPair(job)) == At(b, JobPair(job))
    ensures Skips(env, current, a, job) <==> Skips(env, current, b, job)
  {
  }

  lemma RecordedByPair(a: Records, b: Records, job: Job, pair: (string, string))
    requires At(a, pair) == At(b, pair)
    ensures At(Recorded(a, job), pair) == At(Recorded(b, job), pair)
    ensures pair != JobPair(job) ==> At(Recorded(a, job), pair) == At(a, pair)
  {
  }

  lemma OneMore(env: Env, current: Config, w: World, order: seq<Job>, job: Job)
    ensures RunJobs(env, current, w, order + [job]) == RunJob(env, current, RunJobs(env, current, w, order), job)
  {
    assert (order + [job])[..|order|] == order;
  }

  lemma LookKeepsInv(env: Env, current: Config, jobs: seq<Job>, w: World, s: State, i: nat)
    requires Inv(env, current, jobs, w, s) && Enabled(jobs, s, Look(i))
    ensures Inv(env, current, jobs, w, Next(env, current, jobs, s, Look(i)))
  {
    var s' := Next(env, current, jobs, s, Look(i));
    var serial := RunJobs(env, current, w, s.order);
    OneMore(env, current, w, s.order, jobs[i]);
    forall pair
      ensures Busy(jobs, s', pair) <==> Busy(jobs, s, pair)
    {
      if k :| 0 <= k < |jobs| && s.stages[k].Working? && JobPair(jobs[k]) == pair {
        assert s'.stages[k].Working?;
      }
    }
    assert !Busy(jobs, s, JobPair(jobs[i])) by {
      if k: nat :| k < |jobs| && s.stages[k].Working? && JobPair(jobs[k]) == JobPair(jobs[i]) {
        assert Holds(s, k);
      }
    }
    SkipsByPair(env, current, serial.records, s.world.records, jobs[i]);
    forall a: nat, b: nat | Holds(s', a) && Holds(s', b) && JobPair(jobs[a]) == JobPair(jobs[b])
      ensures a == b
    {
      assert a != i ==> Holds(s, a);
      assert b != i ==> Holds(s, b);
    }
  }

  lemma ActKeepsInv(env: Env, current: Config, jobs: seq<Job>, w: World, s: State, i: nat)
    requires Inv(env, current, jobs, w, s) && Enabled(jobs, s, Act(i))
    ensures Inv(env, current, jobs, w, Next(env, current, jobs, s, Act(i)))
  {
    var s' := Next(env, current, jobs, s, Act(i));
    var job := jobs[i];
    var serial := RunJobs(env, current, w, s.order);
    OneMore(env, current, w, s.order, job);
    assert !Busy(jobs, s, JobPair(job)) by {
      if k: nat :| k < |jobs| && s.stages[k].Working? && JobPair(jobs[k]) == JobPair(job) {
        assert Holds(s, k) && Holds(s, i);
      }
    }
    SkipsByPair(env, current, serial.records, s.world.records, job);
    assert Exclusive(jobs, s') by {
      assert forall k: nat :: Holds(s', k) <==> Holds(s, k);
    }
    ActKeepsAhead(jobs, s, s', serial.records, i);
  }

  lemma ActKeepsAhead(jobs: seq<Job>, s: State, s': State, serial: Records, i: nat)
    requires |jobs| == |s.stages| && i < |jobs| && s.stages[i].Going? && Exclusive(jobs, s)
    requires s'.stages == s.stages[i := Working] && s'.world.records == s.world.records
    requires Ahead(jobs, s, serial) && !Busy(jobs, s, JobPair(jobs[i]))
    ensures Ahead(jobs, s', Recorded(serial, jobs[i]))
  {
    var job := jobs[i];
    RecordedByPair(serial, s.world.records, job, JobPair(job));
    forall k: nat | k < |jobs| && s'.stages[k].Working?
      ensures At(Recorded(serial, job), JobPair(jobs[k])) == At(Recorded(s.world.records, jobs[k]), JobPair(jobs[k]))
    {
      if k != i {
        assert Holds(s, k) && Holds(s, i);
        RecordedByPair(serial, serial, job, JobPair(jobs[k]));
      }
    }
    forall pair | !Busy(jobs, s', pair)
      ensures At(Recorded(serial, job), pair) == At(s.world.records, pair)
    {
      assert s'.stages[i].Working?;
      assert pair != JobPair(job);
      forall k | 0 <= k < |jobs| && s.stages[k].Working?
        ensures JobPair(jobs[k]) != pair
      {
        assert s'.stages[k].Working?;
      }
      RecordedByPair(serial, serial, job, pair);
    }
  }

  lemma NoteKeepsInv(env: Env, current: Config, jobs: seq<Job>, w: World, s: State, i: nat)
    requires Inv(env, current, jobs, w, s) && Enabled(jobs, s, Note(i))
    ensures Inv(env, current, jobs, w, Next(env, current, jobs, s, Note(i)))
  {
    var s' := Next(env, current, jobs, s, Note(i));
    assert forall k: nat :: Holds(s', k) ==> Holds(s, k) && k != i;
    assert Holds(s, i);
    NoteKeepsAhead(jobs, s, s', RunJobs(env, current, w, s.order).records, i);
    forall k: nat | k < |jobs| && s'.stages[k].Going?
      ensures !Skips(env, current, s'.world.records, jobs[k])
    {
      assert Holds(s, k);
      RecordedByPair(s.world.records, s.world.records, jobs[i], JobPair(jobs[k]));
      SkipsByPair(env, current, s.world.records, s'.world.records, jobs[k]);
    }
  }

  lemma NoteKeepsAhead(jobs: seq<Job>, s: State, s': State, serial: Records, i: nat)
    requires |jobs| == |s.stages| && i < |jobs| && s.stages[i].Working? && Exclusive(jobs, s)
    requires s'.stages == s.stages[i := Finished] && s'.world.records == Recorded(s.world.records, jobs[i])
    requires Ahead(jobs, s, serial)
    ensures Ahead(jobs, s', serial)
  {
    var records, job := s.world.records, jobs[i];
    forall k: nat | k < |jobs| && s'.stages[k].Working?
      ensures At(serial, JobPair(jobs[k])) == At(Recorded(Recorded(records, job), jobs[k]), JobPair(jobs[k]))
    {
      assert Holds(s, k) && Holds(s, i);
      RecordedByPair(records, records, job, JobPair(jobs[k]));
      RecordedByPair(Recorded(records, job), records, jobs[k], JobPair(jobs[k]));
    }
    forall pair | !Busy(jobs, s', pair)
      ensures At(serial, pair) == At(Recorded(records, job), pair)
    {
      if pair != JobPair(job) {
        forall k | 0 <= k < |jobs| && s.stages[k].Working?
          ensures JobPair(jobs[k]) != pair
        {
          assert k != i ==> s'.stages[k].Working?;
        }
        RecordedByPair(records, records, job, pair);
      }
    }
  }

  lemma InitInv(env: Env, current: Config, jobs: seq<Job>, w: World)
    ensures Inv(env, current, jobs, w, Init(jobs, w))
  {
  }

  lemma {:induction false} RunKeepsInv(env: Env, current: Config, jobs: seq<Job>, w: World, s: State,
                                       schedule: seq<Action>)
    requires Inv(env, current, jobs, w, s) && Legal(env, current, jobs, s, schedule)
    ensures Inv(env, current, jobs, w, After(env, current, jobs, s, schedule))
    decreases |schedule|
  {
    if schedule != [] {
      match schedule[0] {
        case Look(i) => LookKeepsInv(env, current, jobs, w, s, i);
        case Act(i) => ActKeepsInv(env, current, jobs, w, s, i);
        case Note(i) => NoteKeepsInv(env, current, jobs, w, s, i);
      }
      RunKeepsInv(env, current, jobs, w, Next(env, current, jobs, s, schedule[0]), schedule[1..]);
    }
  }

  ghost predicate SameJobs(a: seq<Job>, b: seq<Job>) {
    forall job :: job in a <==> job in b
  }

  /** When all jobs of a phase have finished, it did what they do one after the other in some order. */
  lemma PhaseIsSomeOrder(env: Env, current: Config, jobs: seq<Job>, w: World, schedule: seq<Action>)
    requires Legal(env, current, jobs, Init(jobs, w), schedule)
    requires AllFinished(After(env, current, jobs, Init(jobs, w), schedule))
    ensures var end := After(env, current, jobs, Init(jobs, w), schedule);
      SameJobs(end.order, jobs) && end.world == RunJobs(env, current, w, end.order)
  {
    InitInv(env, current, jobs, w);
    RunKeepsInv(env, current, jobs, w, Init(jobs, w), schedule);
    var end := After(env, current, jobs, Init(jobs, w), schedule);
    var serial := RunJobs(env, current, w, end.order).records;
    forall pair
      ensures At(serial, pair) == At(end.world.records, pair)
    {
      assert !Busy(jobs, end, pair);
    }
    assert forall pair :: pair in serial <==> At(serial, pair).Some?;
    assert forall pair :: pair in end.world.records <==> At(end.world.records, pair).Some?;
    assert serial == end.world.records;
    forall job | job in jobs
      ensures job in end.order
    {
      var i :| 0 <= i < |jobs| && jobs[i] == job;
      assert end.stages[i].Finished?;
    }
  }

  // ---- A phase comes to its end ----

  function Left(stages: seq<Stage>): nat {
    if stages == [] then 0
    else
      var n := |stages| - 1;
      Left(stages[..n])
      + (match stages[n] case Waiting => 3 case Going => 2 case Working => 1 case Finished => 0)
  }

  lemma {:induction false} LeftDrops(stages: seq<Stage>, i: nat, stage: Stage)
    requires i < |stages|
    requires (stages[i].Waiting? && (stage.Going? || stage.Finished?)) || (stages[i].Going? && stage.Working?)
             || (stages[i].Working? && stage.Finished?)
    ensures Left(stages[i := stage]) < Left(stages)
    decreases |stages|
  {
    var n := |stages| - 1;
    if i < n {
      LeftDrops(stages[..n], i, stage);
      assert stages[i := stage][..n] == stages[..n][i := stage];
    } else {
      assert stages[i := stage][..n] == stages[..n];
    }
  }

  /** No schedule is longer than three steps for each job, and while a job is not finished some job can
      move: the one that holds the lock, if the job waits for it. */
  lemma {:induction false} PhaseEnds(env: Env, current: Config, jobs: seq<Job>, s: State, schedule: seq<Action>)
    requires |jobs| == |s.stages| && Legal(env, current, jobs, s, schedule)
    ensures |schedule| + Left(After(env, current, jobs, s, schedule).stages) <= Left(s.stages)
    ensures var end := After(env, current, jobs, s, schedule);
      (forall a :: !Enabled(jobs, end, a)) <==> AllFinished(end)
    decreases |schedule|
  {
    if schedule == [] {
      if forall a :: !Enabled(jobs, s, a) {
        StuckIsFinished(jobs, s);
      }
    } else {
      var s' := Next(env, current, jobs, s, schedule[0]);
      LeftDrops(s.stages, schedule[0].i, s'.stages[schedule[0].i]);
      PhaseEnds(env, current, jobs, s', schedule[1..]);
    }
  }

  lemma StuckIsFinished(jobs: seq<Job>, s: State)
    requires |jobs| == |s.stages| && forall a :: !Enabled(jobs, s, a)
    ensures AllFinished(s)
  {
    forall k: nat
      ensures !Holds(s, k)
    {
      assert !Enabled(jobs, s, Act(k)) && !Enabled(jobs, s, Note(k));
    }
    forall i: nat | i < |jobs|
      ensures s.stages[i].Finished?
    {
      assert !Enabled(jobs, s, Look(i));
      assert !Locked(jobs, s, JobPair(jobs[i]));
    }
  }

  // ---- The pass ----

  function Removes(ts: seq<TeardownTarget>): seq<Job> {
    seq(|ts|, i requires 0 <= i < |ts| => Remove(ts[i]))
  }

  function Places(js: seq<DeployJob>): seq<Job> {
    seq(|js|, i requires 0 <= i < |js| => Place(js[i]))
  }

  lemma InRemoves(ts: seq<TeardownTarget>, job: Job)
    ensures job in Removes(ts) <==> job.Remove? && job.t in ts
  {
    if job.Remove? && job.t in ts {
      var i :| 0 <= i < |ts| && ts[i] == job.t;
      assert Removes(ts)[i] == job;
    }
  }

  lemma InPlaces(js: seq<DeployJob>, job: Job)
    ensures job in Places(js) <==> job.Place? && job.j in js
  {
    if job.Place? && job.j in js {
      var i :| 0 <= i < |js| && js[i] == job.j;
      assert Places(js)[i] == job;
    }
  }

  function TargetsIn(order: seq<Job>): seq<TeardownTarget>
    requires forall job :: job in order ==> job.Remove?
  {
    seq(|order|, i requires 0 <= i < |order| => assert order[i] in order; order[i].t)
  }

  function JobsIn(order: seq<Job>): seq<DeployJob>
    requires forall job :: job in order ==> job.Place?
  {
    seq(|order|, i requires 0 <= i < |order| => assert order[i] in order; order[i].j)
  }

  lemma {:induction false} RemovesAreTeardowns(env: Env, current: Config, w: World, order: seq<Job>)
    requires forall job :: job in order ==> job.Remove?
    ensures RunJobs(env, current, w, order) == RunTeardowns(env, current, w, TargetsIn(order))
    decreases |order|
  {
    if order != [] {
      var n := |order| - 1;
      assert order[n] in order;
      RemovesAreTeardowns(env, current, w, order[..n]);
      assert TargetsIn(order)[..n] == TargetsIn(order[..n]);
    }
  }

  lemma {:induction false} PlacesAreDeploys(env: Env, current: Config, w: World, order: seq<Job>)
    requires forall job :: job in order ==> job.Place?
    ensures RunJobs(env, current, w, order) == RunDeploys(env, current, w, JobsIn(order))
    decreases |order|
  {
    if order != [] {
      var n := |order| - 1;
      assert order[n] in order;
      PlacesAreDeploys(env, current, w, order[..n]);
      assert JobsIn(order)[..n] == JobsIn(order[..n]);
    }
  }

  /** The removals in whatever interleaving are the removals in some order. */
  lemma RemovalPhase(env: Env, current: Config, ts: seq<TeardownTarget>, w: World, schedule: seq<Action>)
    returns (order: seq<TeardownTarget>)
    requires Legal(env, current, Removes(ts), Init(Removes(ts), w), schedule)
    requires AllFinished(After(env, current, Removes(ts), Init(Removes(ts), w), schedule))
    ensures forall t :: t in order <==> t in ts
    ensures After(env, current, Removes(ts), Init(Removes(ts), w), schedule).world
         == RunTeardowns(env, current, w, order)
  {
    PhaseIsSomeOrder(env, current, Removes(ts), w, schedule);
    var jobs := After(env, current, Removes(ts), Init(Removes(ts), w), schedule).order;
    forall job
      ensures job in jobs <==> job.Remove? && job.t in ts
    {
      InRemoves(ts, job);
    }
    RemovesAreTeardowns(env, current, w, jobs);
    order := TargetsIn(jobs);
    assert Removes(order) == jobs;
    forall t
      ensures t in order <==> t in ts
    {
      InRemoves(order, Remove(t));
    }
  }

  lemma DeployPhase(env: Env, current: Config, js: seq<DeployJob>, w: World, schedule: seq<Action>)
    returns (order: seq<DeployJob>)
    requires Legal(env, current, Places(js), Init(Places(js), w), schedule)
    requires AllFinished(After(env, current, Places(js), Init(Places(js), w), schedule))
    ensures forall j :: j in order <==> j in js
    ensures After(env, current, Places(js), Init(Places(js), w), schedule).world == RunDeploys(env, current, w, order)
  {
    PhaseIsSomeOrder(env, current, Places(js), w, schedule);
    var jobs := After(env, current, Places(js), Init(Places(js), w), schedule).order;
    forall job
      ensures job in jobs <==> job.Place? && job.j in js
    {
      InPlaces(js, job);
    }
    PlacesAreDeploys(env, current, w, jobs);
    order := JobsIn(jobs);
    assert Places(order) == jobs;
    forall j
      ensures j in order <==> j in js
    {
      InPlaces(order, Place(j));
    }
  }

  /** A pass in any interleaving of its removals, and after their end of its deploys, leaves the records
      of the new config, and its placements exactly if there are no orphans. */
  lemma PassConvergesInterleaved(env: Env, oldConfig: Config, newConfig: Config, w: World, ts: seq<TeardownTarget>,
                                 js: seq<DeployJob>, removals: seq<Action>, deploys: seq<Action>)
    requires PassOk(env, oldConfig, newConfig, w, ts, js)
    requires Legal(env, newConfig, Removes(ts), Init(Removes(ts), w), removals)
    requires AllFinished(After(env, newConfig, Removes(ts), Init(Removes(ts), w), removals))
    requires var mid := After(env, newConfig, Removes(ts), Init(Removes(ts), w), removals).world;
      && Legal(env, newConfig, Places(js), Init(Places(js), mid), deploys)
      && AllFinished(After(env, newConfig, Places(js), Init(Places(js), mid), deploys))
    ensures var mid := After(env, newConfig, Removes(ts), Init(Removes(ts), w), removals).world;
      var end := After(env, newConfig, Places(js), Init(Places(js), mid), deploys).world;
      && RecordsAre(end.records, newConfig)
      && (LiveIs(env, end.live, newConfig) <==> NoOrphans(env, oldConfig, newConfig))
  {
    var mid := After(env, newConfig, Removes(ts), Init(Removes(ts), w), removals).world;
    var first := RemovalPhase(env, newConfig, ts, w, removals);
    var second := DeployPhase(env, newConfig, js, mid, deploys);
    forall t
      ensures Submitted(second, t) <==> Submitted(js, t)
    {
      if j :| j in js && j.target == t {
        assert j in second;
      }
      if j :| j in second && j.target == t {
        assert j in js;
      }
    }
    PassConverges(env, oldConfig, newConfig, w, first, second);
  }
}
