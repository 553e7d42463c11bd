/** One reconcile pass (reconcileOnce of internal/daemon/daemon.go) against the machines: what is
    deployed where, and for which pairs there is a record. Every job is taken to succeed, in any
    order within its phase; the config does not change meanwhile. */
module Convergence {
  import opened Base
  import opened DeployConfig
  import opened Planner
  import opened Reconcile

  /** A project deployed in a directory of the machine at an address. */
  datatype Live = Live(project: string, address: string, dir: string)

  /** `records` holds the commit of the pair's latest, successful, record. */
  datatype World = World(live: set<Live>, records: map<(string, string), string>)

  /** `overlap` tells which directories of one machine get in each other's way. */
  datatype Env = Env(join: PathJoin, overlap: (string, string) -> bool, badPattern: string -> bool)

  datatype DeployJob = DeployJob(target: Target, sha: string, redeploy: bool)

  function DirOf(env: Env, t: Target): string {
    env.join(t.host.deployDir, t.project.deploySubdir)
  }

  function LiveOf(env: Env, t: Target): Live {
    Live(t.project.name, t.host.address, DirOf(env, t))
  }

  function PairOf(t: Target): (string, string) {
    (t.project.name, t.host.name)
  }

  predicate Wiped(env: Env, address: string, dir: string, l: Live) {
    l.address == address && (l.dir == dir || env.overlap(dir, l.dir))
  }

  function WithoutDir(env: Env, live: set<Live>, address: string, dir: string): set<Live> {
    set l | l in live && !Wiped(env, address, dir, l)
  }

  // ---- The jobs ----

  function RunTeardown(env: Env, current: Config, w: World, t: TeardownTarget): World {
    if DesiredDir(Some(current), t.projectName, t.host.name, env.join) == Some(t.remoteDir) then w
    else World(WithoutDir(env, w.live, t.host.address, t.remoteDir),
               if t.removeState then w.records - {(t.projectName, t.host.name)} else w.records)
  }

  function RunDeploy(env: Env, current: Config, w: World, j: DeployJob): World {
    var t, pair := j.target, PairOf(j.target);
    if DesiredDir(Some(current), t.project.name, t.host.name, env.join).None? then w
    else if !j.redeploy && pair in w.records && w.records[pair] == j.sha then w
    else World(WithoutDir(env, w.live, t.host.address, DirOf(env, t)) + {LiveOf(env, t)}, w.records[pair := j.sha])
  }

  function RunTeardowns(env: Env, current: Config, w: World, ts: seq<TeardownTarget>): World {
    if ts == [] then w
    else RunTeardown(env, current, RunTeardowns(env, current, w, ts[..|ts| - 1]), ts[|ts| - 1])
  }

  function RunDeploys(env: Env, current: Config, w: World, js: seq<DeployJob>): World {
    if js == [] then w
    else RunDeploy(env, current, RunDeploys(env, current, w, js[..|js| - 1]), js[|js| - 1])
  }

  // ---- What a pass submits ----

  /** ReconcileRemovals: the teardown targets that have a record, in some order. */
  ghost predicate Removals(env: Env, oldConfig: Config, newConfig: Config, w: World, ts: seq<TeardownTarget>) {
    forall t :: t in ts <==> IsTeardown(oldConfig, newConfig, env.join, t) && (t.projectName, t.host.name) in w.records
  }

  /** ReconcileAdditions and ReconcileProjectChanges when every repo has a known commit. */
  ghost predicate Deploys(oldConfig: Config, newConfig: Config, js: seq<DeployJob>) {
    && (forall j :: j in js ==>
          if j.redeploy then IsChanged(oldConfig, newConfig, j.target)
          else IsAdded(oldConfig, newConfig, j.target))
    && (forall t :: IsAdded(oldConfig, newConfig, t) || IsChanged(oldConfig, newConfig, t) ==> Submitted(js, t))
  }

  ghost predicate Submitted(js: seq<DeployJob>, t: Target) {
    exists j :: j in js && j.target == t
  }

  ghost predicate LiveIs(env: Env, live: set<Live>, c: Config) {
    forall l :: l in live <==> exists t :: t in AllTargetsOf(c) && LiveOf(env, t) == l
  }

  ghost predicate RecordsAre(records: map<(string, string), string>, c: Config) {
    forall pair: (string, string) :: pair in records <==> PairPlaced(c, pair.0, pair.1)
  }

  ghost predicate NoOverlap(env: Env, c: Config) {
    forall a, b | a in AllTargetsOf(c) && b in AllTargetsOf(c) ::
      Wiped(env, a.host.address, DirOf(env, a), LiveOf(env, b)) ==> PairOf(a) == PairOf(b)
  }

  // ---- Facts about targets of one valid config ----

  lemma PairDetermines(c: Config, env: Env, a: Target, b: Target)
    requires Valid(c, env.badPattern) && a in AllTargetsOf(c) && b in AllTargetsOf(c) && PairOf(a) == PairOf(b)
    ensures a == b
  {
    TargetParts(c, env.badPattern, a);
    TargetParts(c, env.badPattern, b);
  }

  lemma ListedIsDesired(c: Config, env: Env, t: Target)
    requires Valid(c, env.badPattern) && t in AllTargetsOf(c)
    ensures DesiredDir(Some(c), t.project.name, t.host.name, env.join) == Some(DirOf(env, t))
  {
    DesiredIsListed(c, env.badPattern, env.join, t.project.name, t.host.name, DirOf(env, t));
  }

  /** The old target a teardown is for. */
  lemma TeardownOrigin(env: Env, oldConfig: Config, newConfig: Config, t: TeardownTarget) returns (o: Target)
    requires BothValid(oldConfig, newConfig, env.badPattern) && IsTeardown(oldConfig, newConfig, env.join, t)
    ensures o in AllTargetsOf(oldConfig) && PairOf(o) == (t.projectName, t.host.name)
    ensures o.host == t.host && DirOf(env, o) == t.remoteDir && !StaysPut(env, newConfig, o)
    ensures t.removeState <==> !PairPlaced(newConfig, t.projectName, t.host.name)
    ensures DesiredDir(Some(newConfig), t.projectName, t.host.name, env.join) != Some(t.remoteDir)
  {
    var p, h :| p in oldConfig.projects && h in p.targets && t in TeardownsOf(oldConfig, newConfig, env.join, p, h);
    TargetByIndex(oldConfig, env.badPattern, p, h);
    o := Target(p, IndexOf(oldConfig.hosts, HostName)[h], IndexOf(oldConfig.repos, RepoName)[p.repo]);
    SameLocationIsPlaced(newConfig, env.badPattern, env.join, p.name, h, DirOf(env, o));
    StillTargetedIsPlaced(newConfig, env.badPattern, p.name, h);
    DesiredIsListed(newConfig, env.badPattern, env.join, p.name, h, DirOf(env, o));
  }

  /** The new config has the same pair in the same directory. */
  ghost predicate StaysPut(env: Env, newConfig: Config, o: Target) {
    Placed(newConfig, env.join, o.project.name, o.host.name, DirOf(env, o))
  }

  // ---- Removals ----

  ghost predicate TornDown(env: Env, ts: seq<TeardownTarget>, o: Target) {
    exists t :: t in ts && (t.projectName, t.host.name) == PairOf(o)
  }

  /** An old target that no teardown has touched yet. */
  ghost predicate Standing(env: Env, oldConfig: Config, ts: seq<TeardownTarget>, o: Target, l: Live) {
    o in AllTargetsOf(oldConfig) && LiveOf(env, o) == l && !TornDown(env, ts, o)
  }

  lemma OneMoreTeardown(env: Env, oldConfig: Config, ts: seq<TeardownTarget>, gone: Target, o: Target)
    requires Valid(oldConfig, env.badPattern) && NoOverlap(env, oldConfig) && ts != []
    requires gone in AllTargetsOf(oldConfig) && o in AllTargetsOf(oldConfig)
    requires var t := ts[|ts| - 1];
      && PairOf(gone) == (t.projectName, t.host.name) && gone.host == t.host
      && DirOf(env, gone) == t.remoteDir
    ensures TornDown(env, ts, o) <==> TornDown(env, ts[..|ts| - 1], o) || o == gone
    ensures Wiped(env, ts[|ts| - 1].host.address, ts[|ts| - 1].remoteDir, LiveOf(env, o)) <==> o == gone
  {
    var before, t := ts[..|ts| - 1], ts[|ts| - 1];
    assert ts == before + [t];
    if PairOf(o) == PairOf(gone) {
      PairDetermines(oldConfig, env, o, gone);
    }
    if TornDown(env, before, o) {
      var u :| u in before && (u.projectName, u.host.name) == PairOf(o);
      assert u in ts;
    }
    if o == gone {
      assert t in ts;
    }
  }

  lemma {:induction false} TeardownsLeave(env: Env, oldConfig: Config, newConfig: Config, w: World,
                                          ts: seq<TeardownTarget>, l: Live)
    requires BothValid(oldConfig, newConfig, env.badPattern) && NoOverlap(env, oldConfig)
    requires forall t :: t in ts ==> IsTeardown(oldConfig, newConfig, env.join, t)
    requires LiveIs(env, w.live, oldConfig)
    ensures l in RunTeardowns(env, newConfig, w, ts).live <==> exists o :: Standing(env, oldConfig, ts, o, l)
    decreases |ts|
  {
    if ts == [] {
      if o :| o in AllTargetsOf(oldConfig) && LiveOf(env, o) == l {
        assert Standing(env, oldConfig, ts, o, l);
      }
    } else {
      var before, t := ts[..|ts| - 1], ts[|ts| - 1];
      TeardownsLeave(env, oldConfig, newConfig, w, before, l);
      var gone := TeardownOrigin(env, oldConfig, newConfig, t);
      if l in RunTeardowns(env, newConfig, w, ts).live {
        var o :| Standing(env, oldConfig, before, o, l);
        OneMoreTeardown(env, oldConfig, ts, gone, o);
        assert Standing(env, oldConfig, ts, o, l);
      }
      if o :| Standing(env, oldConfig, ts, o, l) {
        OneMoreTeardown(env, oldConfig, ts, gone, o);
        assert Standing(env, oldConfig, before, o, l);
      }
    }
  }

  lemma {:induction false} TeardownsRecords(env: Env, oldConfig: Config, newConfig: Config, w: World,
                                            ts: seq<TeardownTarget>,
                                            pair: (string, string))
    requires BothValid(oldConfig, newConfig, env.badPattern)
    requires forall t :: t in ts ==> IsTeardown(oldConfig, newConfig, env.join, t)
    ensures pair in RunTeardowns(env, newConfig, w, ts).records <==>
            && pair in w.records
            && (PairPlaced(newConfig, pair.0, pair.1) || forall t :: t in ts ==> (t.projectName, t.host.name) != pair)
    decreases |ts|
  {
    if ts != [] {
      var before, t := ts[..|ts| - 1], ts[|ts| - 1];
      assert ts == before + [t];
      TeardownsRecords(env, oldConfig, newConfig, w, before, pair);
      var _ := TeardownOrigin(env, oldConfig, newConfig, t);
    }
  }

  // ---- Deploys ----

  /** Jobs for targets of the new config that the record check lets run at least once. */
  ghost predicate Deployable(newConfig: Config, w: World, js: seq<DeployJob>) {
    forall j :: j in js ==> j.target in AllTargetsOf(newConfig) && (j.redeploy || PairOf(j.target) !in w.records)
  }

  lemma SubmittedSplits(js: seq<DeployJob>, t: Target)
    requires js != []
    ensures Submitted(js, t) <==> Submitted(js[..|js| - 1], t) || js[|js| - 1].target == t
  {
    assert js == js[..|js| - 1] + [js[|js| - 1]];
  }

  ghost predicate PairSubmitted(js: seq<DeployJob>, pair: (string, string)) {
    exists t :: Submitted(js, t) && PairOf(t) == pair
  }

  lemma PairSubmittedSplits(js: seq<DeployJob>, pair: (string, string))
    requires js != []
    ensures PairSubmitted(js, pair) <==> PairSubmitted(js[..|js| - 1], pair) || PairOf(js[|js| - 1].target) == pair
  {
    SubmittedSplits(js, js[|js| - 1].target);
    if t :| Submitted(js, t) && PairOf(t) == pair {
      SubmittedSplits(js, t);
    }
    if t :| Submitted(js[..|js| - 1], t) && PairOf(t) == pair {
      SubmittedSplits(js, t);
    }
  }

  lemma {:induction false} DeploysRecords(env: Env, newConfig: Config, w: World, js: seq<DeployJob>,
                                          pair: (string, string))
    requires Valid(newConfig, env.badPattern) && Deployable(newConfig, w, js)
    ensures pair in RunDeploys(env, newConfig, w, js).records <==> pair in w.records || PairSubmitted(js, pair)
    decreases |js|
  {
    if js != [] {
      var before, j := js[..|js| - 1], js[|js| - 1];
      assert js == before + [j];
      DeploysRecords(env, newConfig, w, before, pair);
      ListedIsDesired(newConfig, env, j.target);
      PairSubmittedSplits(js, pair);
    }
  }

  ghost predicate Untouched(env: Env, js: seq<DeployJob>, l: Live) {
    forall t :: Submitted(js, t) ==> !Wiped(env, t.host.address, DirOf(env, t), l)
  }

  ghost predicate DeployedAt(env: Env, js: seq<DeployJob>, l: Live) {
    exists t :: Submitted(js, t) && LiveOf(env, t) == l
  }

  /** A job the record check skips repeats one that ran before. */
  lemma SkippedWasSubmitted(env: Env, newConfig: Config, w: World, js: seq<DeployJob>)
    requires Valid(newConfig, env.badPattern) && Deployable(newConfig, w, js) && js != []
    requires !js[|js| - 1].redeploy
    requires PairOf(js[|js| - 1].target) in RunDeploys(env, newConfig, w, js[..|js| - 1]).records
    ensures Submitted(js[..|js| - 1], js[|js| - 1].target)
  {
    var before, j := js[..|js| - 1], js[|js| - 1];
    DeploysRecords(env, newConfig, w, before, PairOf(j.target));
    var t :| Submitted(before, t) && PairOf(t) == PairOf(j.target);
    PairDetermines(newConfig, env, t, j.target);
  }

  /** After the deploys a directory holds what was deployed there, or what was there before if no
      deploy got in its way. */
  lemma {:induction false} DeploysLeave(env: Env, newConfig: Config, w: World, js: seq<DeployJob>, l: Live)
    requires Valid(newConfig, env.badPattern) && NoOverlap(env, newConfig) && Deployable(newConfig, w, js)
    ensures l in RunDeploys(env, newConfig, w, js).live <==>
      DeployedAt(env, js, l) || (l in w.live && Untouched(env, js, l))
    decreases |js|
  {
    if js != [] {
      var before, j := js[..|js| - 1], js[|js| - 1];
      assert js == before + [j];
      DeploysLeave(env, newConfig, w, before, l);
      ListedIsDesired(newConfig, env, j.target);
      forall t
        ensures Submitted(js, t) <==> Submitted(before, t) || t == j.target
      {
        SubmittedSplits(js, t);
      }
      var mid := RunDeploys(env, newConfig, w, before);
      if !j.redeploy && PairOf(j.target) in mid.records && mid.records[PairOf(j.target)] == j.sha {
        SkippedWasSubmitted(env, newConfig, w, js);
      } else {
        LastDeploy(env, newConfig, before, j, l);
      }
    }
  }

  /** The last job wipes nothing that an earlier one put there for another pair. */
  lemma LastDeploy(env: Env, newConfig: Config, before: seq<DeployJob>, j: DeployJob, l: Live)
    requires Valid(newConfig, env.badPattern) && NoOverlap(env, newConfig) && j.target in AllTargetsOf(newConfig)
    requires forall i :: i in before ==> i.target in AllTargetsOf(newConfig)
    ensures DeployedAt(env, before, l) && Wiped(env, j.target.host.address, DirOf(env, j.target), l) ==>
      l == LiveOf(env, j.target)
  {
    if DeployedAt(env, before, l) && Wiped(env, j.target.host.address, DirOf(env, j.target), l) {
      var t :| Submitted(before, t) && LiveOf(env, t) == l;
      PairDetermines(newConfig, env, t, j.target);
    }
  }

  // ---- The pass ----

  /** Nothing stays behind on a machine that a kept pair has moved away from: what was deployed for
      each pair kept in its directory is where some target of the new config is deployed. A kept
      pair whose host keeps its address satisfies this by itself. */
  ghost predicate NoOrphans(env: Env, oldConfig: Config, newConfig: Config) {
    forall o | o in AllTargetsOf(oldConfig) && StaysPut(env, newConfig, o) :: TakenOver(env, newConfig, LiveOf(env, o))
  }

  ghost predicate TakenOver(env: Env, newConfig: Config, l: Live) {
    exists n :: n in AllTargetsOf(newConfig) && Wiped(env, n.host.address, DirOf(env, n), l)
  }

  lemma TornDownExactly(env: Env, oldConfig: Config, newConfig: Config, w: World, ts: seq<TeardownTarget>, o: Target)
    requires BothValid(oldConfig, newConfig, env.badPattern) && RecordsAre(w.records, oldConfig)
    requires Removals(env, oldConfig, newConfig, w, ts) && o in AllTargetsOf(oldConfig)
    ensures TornDown(env, ts, o) <==> !StaysPut(env, newConfig, o)
  {
    var project, host, dir := o.project.name, o.host.name, DirOf(env, o);
    if TornDown(env, ts, o) {
      var t :| t in ts && (t.projectName, t.host.name) == PairOf(o);
      var gone := TeardownOrigin(env, oldConfig, newConfig, t);
      PairDetermines(oldConfig, env, gone, o);
    }
    if !StaysPut(env, newConfig, o) {
      var removeState := !PairPlaced(newConfig, project, host);
      TeardownIsDifference(oldConfig, newConfig, env.badPattern, env.join, project, host, dir, removeState);
      var t :| IsTeardown(oldConfig, newConfig, env.join, t) && TearsDown(t, project, host, dir, removeState);
      assert (project, host) in w.records;
      assert t in ts;
    }
  }

  /** A target of the new config that is not deployed stands where the old config had it. */
  lemma NotSubmittedStands(env: Env, oldConfig: Config, newConfig: Config, js: seq<DeployJob>, n: Target)
    returns (o: Target)
    requires BothValid(oldConfig, newConfig, env.badPattern) && Deploys(oldConfig, newConfig, js)
    requires n in AllTargetsOf(newConfig) && !Submitted(js, n)
    ensures o in AllTargetsOf(oldConfig) && PairOf(o) == PairOf(n) && LiveOf(env, o) == LiveOf(env, n)
    ensures o.host.address == n.host.address && DirOf(env, o) == DirOf(env, n) && StaysPut(env, newConfig, o)
  {
    assert !IsAdded(oldConfig, newConfig, n) && !IsChanged(oldConfig, newConfig, n);
    AddedIsDifference(oldConfig, newConfig, env.badPattern, n);
    ChangedIsDifference(oldConfig, newConfig, env.badPattern, n);
    o :| o in AllTargetsOf(oldConfig) && o.project.name == n.project.name && o.host.name == n.host.name;
    assert !SettingsDiffer(o, n);
    assert Placed(newConfig, env.join, n.project.name, n.host.name, DirOf(env, n));
  }

  lemma DeploysAreDeployable(env: Env, oldConfig: Config, newConfig: Config, w: World, js: seq<DeployJob>)
    requires BothValid(oldConfig, newConfig, env.badPattern) && Deploys(oldConfig, newConfig, js)
    requires forall pair :: pair in w.records ==> PairPlaced(oldConfig, pair.0, pair.1)
    ensures Deployable(newConfig, w, js)
  {
    forall j | j in js
      ensures j.target in AllTargetsOf(newConfig) && (j.redeploy || PairOf(j.target) !in w.records)
    {
      AddedIsDifference(oldConfig, newConfig, env.badPattern, j.target);
      ChangedIsDifference(oldConfig, newConfig, env.badPattern, j.target);
    }
  }

  ghost predicate PassOk(env: Env, oldConfig: Config, newConfig: Config, w: World, ts: seq<TeardownTarget>,
                         js: seq<DeployJob>) {
    && BothValid(oldConfig, newConfig, env.badPattern)
    && NoOverlap(env, oldConfig) && NoOverlap(env, newConfig)
    && LiveIs(env, w.live, oldConfig) && RecordsAre(w.records, oldConfig)
    && Removals(env, oldConfig, newConfig, w, ts) && Deploys(oldConfig, newConfig, js)
  }

  function RunPass(env: Env, newConfig: Config, w: World, ts: seq<TeardownTarget>, js: seq<DeployJob>): World {
    RunDeploys(env, newConfig, RunTeardowns(env, newConfig, w, ts), js)
  }

  /** What is live after the pass: what was deployed, and what the old config had and was neither
      torn down nor run over. */
  lemma LiveAfterPass(env: Env, oldConfig: Config, newConfig: Config, w: World, ts: seq<TeardownTarget>,
                      js: seq<DeployJob>, l: Live)
    requires PassOk(env, oldConfig, newConfig, w, ts, js)
    ensures l in RunPass(env, newConfig, w, ts, js).live <==>
            DeployedAt(env, js, l)
            || (Untouched(env, js, l) && exists o ::
                  o in AllTargetsOf(oldConfig) && LiveOf(env, o) == l && StaysPut(env, newConfig, o))
  {
    var mid := RunTeardowns(env, newConfig, w, ts);
    TeardownsLeave(env, oldConfig, newConfig, w, ts, l);
    MidRecords(env, oldConfig, newConfig, w, ts);
    DeploysAreDeployable(env, oldConfig, newConfig, mid, js);
    DeploysLeave(env, newConfig, mid, js, l);
    if o :| Standing(env, oldConfig, ts, o, l) {
      TornDownExactly(env, oldConfig, newConfig, w, ts, o);
    }
    if o :| o in AllTargetsOf(oldConfig) && LiveOf(env, o) == l && StaysPut(env, newConfig, o) {
      TornDownExactly(env, oldConfig, newConfig, w, ts, o);
      assert Standing(env, oldConfig, ts, o, l);
    }
  }

  /** After the removals exactly the pairs of both configs have a record. */
  lemma MidRecords(env: Env, oldConfig: Config, newConfig: Config, w: World, ts: seq<TeardownTarget>)
    requires BothValid(oldConfig, newConfig, env.badPattern) && RecordsAre(w.records, oldConfig)
    requires Removals(env, oldConfig, newConfig, w, ts)
    ensures forall pair: (string, string) :: pair in RunTeardowns(env, newConfig, w, ts).records <==>
              PairPlaced(oldConfig, pair.0, pair.1) && PairPlaced(newConfig, pair.0, pair.1)
  {
    forall pair: (string, string)
      ensures pair in RunTeardowns(env, newConfig, w, ts).records <==>
              PairPlaced(oldConfig, pair.0, pair.1) && PairPlaced(newConfig, pair.0, pair.1)
    {
      TeardownsRecords(env, oldConfig, newConfig, w, ts, pair);
      if pair in w.records && !PairPlaced(newConfig, pair.0, pair.1) {
        var o :| o in AllTargetsOf(oldConfig) && o.project.name == pair.0 && o.host.name == pair.1;
        TornDownExactly(env, oldConfig, newConfig, w, ts, o);
        assert TornDown(env, ts, o);
      }
    }
  }

  /** The pass leaves records for exactly the pairs of the new config, and it leaves exactly the new
      config's placements live if and only if there are no orphans. */
  lemma PassConverges(env: Env, oldConfig: Config, newConfig: Config, w: World, ts: seq<TeardownTarget>,
                      js: seq<DeployJob>)
    requires PassOk(env, oldConfig, newConfig, w, ts, js)
    ensures RecordsAre(RunPass(env, newConfig, w, ts, js).records, newConfig)
    ensures LiveIs(env, RunPass(env, newConfig, w, ts, js).live, newConfig) <==> NoOrphans(env, oldConfig, newConfig)
  {
    PassRecords(env, oldConfig, newConfig, w, ts, js);
    forall n | n in AllTargetsOf(newConfig)
      ensures LiveOf(env, n) in RunPass(env, newConfig, w, ts, js).live
    {
      NewIsLive(env, oldConfig, newConfig, w, ts, js, n);
    }
    if NoOrphans(env, oldConfig, newConfig) {
      forall l | l in RunPass(env, newConfig, w, ts, js).live
        ensures exists t :: t in AllTargetsOf(newConfig) && LiveOf(env, t) == l
      {
        LiveIsNew(env, oldConfig, newConfig, w, ts, js, l);
      }
    }
    if LiveIs(env, RunPass(env, newConfig, w, ts, js).live, newConfig) {
      forall o | o in AllTargetsOf(oldConfig) && StaysPut(env, newConfig, o)
        ensures TakenOver(env, newConfig, LiveOf(env, o))
      {
        KeptIsTakenOver(env, oldConfig, newConfig, w, ts, js, o);
      }
    }
  }

  lemma PassRecords(env: Env, oldConfig: Config, newConfig: Config, w: World, ts: seq<TeardownTarget>,
                    js: seq<DeployJob>)
    requires PassOk(env, oldConfig, newConfig, w, ts, js)
    ensures RecordsAre(RunPass(env, newConfig, w, ts, js).records, newConfig)
  {
    var mid := RunTeardowns(env, newConfig, w, ts);
    MidRecords(env, oldConfig, newConfig, w, ts);
    DeploysAreDeployable(env, oldConfig, newConfig, mid, js);
    forall pair: (string, string)
      ensures pair in RunPass(env, newConfig, w, ts, js).records <==> PairPlaced(newConfig, pair.0, pair.1)
    {
      DeploysRecords(env, newConfig, mid, js, pair);
      if t :| Submitted(js, t) && PairOf(t) == pair {
        var j :| j in js && j.target == t;
        assert j.target in AllTargetsOf(newConfig);
      }
      if n :| n in AllTargetsOf(newConfig) && n.project.name == pair.0 && n.host.name == pair.1 {
        if !PairPlaced(oldConfig, pair.0, pair.1) {
          AddedIsDifference(oldConfig, newConfig, env.badPattern, n);
          assert Submitted(js, n) && PairOf(n) == pair;
        }
      }
    }
  }

  lemma NewIsLive(env: Env, oldConfig: Config, newConfig: Config, w: World, ts: seq<TeardownTarget>,
                  js: seq<DeployJob>, n: Target)
    requires PassOk(env, oldConfig, newConfig, w, ts, js) && n in AllTargetsOf(newConfig)
    ensures LiveOf(env, n) in RunPass(env, newConfig, w, ts, js).live
  {
    var l := LiveOf(env, n);
    LiveAfterPass(env, oldConfig, newConfig, w, ts, js, l);
    if !Submitted(js, n) {
      var o := NotSubmittedStands(env, oldConfig, newConfig, js, n);
      forall t | Submitted(js, t)
        ensures !Wiped(env, t.host.address, DirOf(env, t), l)
      {
        SubmittedIsNew(env, oldConfig, newConfig, js, t);
        if PairOf(t) == PairOf(n) {
          PairDetermines(newConfig, env, t, n);
        }
      }
    } else {
      assert DeployedAt(env, js, l);
    }
  }

  lemma SubmittedIsNew(env: Env, oldConfig: Config, newConfig: Config, js: seq<DeployJob>, t: Target)
    requires BothValid(oldConfig, newConfig, env.badPattern) && Deploys(oldConfig, newConfig, js) && Submitted(js, t)
    ensures t in AllTargetsOf(newConfig)
  {
    AddedIsDifference(oldConfig, newConfig, env.badPattern, t);
    ChangedIsDifference(oldConfig, newConfig, env.badPattern, t);
  }

  lemma LiveIsNew(env: Env, oldConfig: Config, newConfig: Config, w: World, ts: seq<TeardownTarget>,
                  js: seq<DeployJob>, l: Live)
    requires PassOk(env, oldConfig, newConfig, w, ts, js) && NoOrphans(env, oldConfig, newConfig)
    requires l in RunPass(env, newConfig, w, ts, js).live
    ensures exists t :: t in AllTargetsOf(newConfig) && LiveOf(env, t) == l
  {
    LiveAfterPass(env, oldConfig, newConfig, w, ts, js, l);
    if DeployedAt(env, js, l) {
      var t :| Submitted(js, t) && LiveOf(env, t) == l;
      SubmittedIsNew(env, oldConfig, newConfig, js, t);
    } else {
      var o :| o in AllTargetsOf(oldConfig) && LiveOf(env, o) == l && StaysPut(env, newConfig, o);
      assert TakenOver(env, newConfig, LiveOf(env, o));
      var n :| n in AllTargetsOf(newConfig) && Wiped(env, n.host.address, DirOf(env, n), l);
      assert !Submitted(js, n);
      var o2 := NotSubmittedStands(env, oldConfig, newConfig, js, n);
      PairDetermines(oldConfig, env, o2, o);
    }
  }

  lemma KeptIsTakenOver(env: Env, oldConfig: Config, newConfig: Config, w: World, ts: seq<TeardownTarget>,
                        js: seq<DeployJob>, o: Target)
    requires PassOk(env, oldConfig, newConfig, w, ts, js)
    requires LiveIs(env, RunPass(env, newConfig, w, ts, js).live, newConfig)
    requires o in AllTargetsOf(oldConfig) && StaysPut(env, newConfig, o)
    ensures TakenOver(env, newConfig, LiveOf(env, o))
  {
    var l := LiveOf(env, o);
    LiveAfterPass(env, oldConfig, newConfig, w, ts, js, l);
    if !Untouched(env, js, l) {
      var t :| Submitted(js, t) && Wiped(env, t.host.address, DirOf(env, t), l);
      SubmittedIsNew(env, oldConfig, newConfig, js, t);
    } else {
      var n :| n in AllTargetsOf(newConfig) && LiveOf(env, n) == l;
      assert Wiped(env, n.host.address, DirOf(env, n), l);
    }
  }

  /** Keeping the address of every host a kept pair is on is enough. */
  lemma KeptAddressesSuffice(env: Env, oldConfig: Config, newConfig: Config)
    requires forall o, n :: o in AllTargetsOf(oldConfig) && n in AllTargetsOf(newConfig) && PairOf(o) == PairOf(n)
                       ==> n.host.address == o.host.address
    ensures NoOrphans(env, oldConfig, newConfig)
  {
    forall o | o in AllTargetsOf(oldConfig) && StaysPut(env, newConfig, o)
      ensures TakenOver(env, newConfig, LiveOf(env, o))
    {
      var n :| n in AllTargetsOf(newConfig) && n.project.name == o.project.name && n.host.name == o.host.name
            && DirOf(env, o) == env.join(n.host.deployDir, n.project.deploySubdir);
      assert PairOf(o) == PairOf(n);
    }
  }

  // ---- A config edit after which the pass leaves something behind ----

  const EXAMPLE_PROJECT := Project("p", "r", "sub", ["compose.yml"], ["h"], [], "p", [], [])
  const EXAMPLE_REPO := Repo("r", "git@example.com:o/r", "main", "")

  function ExampleHost(address: string): Host {
    Host("h", address, "/srv", "", 0)
  }

  function ExampleConfig(address: string): Config {
    Config([ExampleHost(address)], [EXAMPLE_REPO], [EXAMPLE_PROJECT])
  }

  function ExampleTarget(address: string): Target {
    Target(EXAMPLE_PROJECT, ExampleHost(address), EXAMPLE_REPO)
  }

  function ExampleEnv(): Env {
    Env((a, b) => a + "/" + b, (a, b) => a == b, s => false)
  }

  lemma ExampleTargets(address: string, t: Target)
    requires address != ""
    ensures Valid(ExampleConfig(address), ExampleEnv().badPattern)
    ensures t in AllTargetsOf(ExampleConfig(address)) <==> t == ExampleTarget(address)
  {
    var c := ExampleConfig(address);
    forall issue: Issue | Has(c, issue, ExampleEnv().badPattern)
      ensures !Blocking(issue)
    {
      assert RepoName(c.repos[0]) == "r" && HostName(c.hosts[0]) == "h";
    }
    AllTargetsComplete(c, ExampleEnv().badPattern, t);
  }

  /** Changing only a host's address: nothing is torn down, the project is redeployed at the new
      address, and the old machine keeps running it. */
  lemma AddressChangeOrphans()
    ensures var env, oldConfig, newConfig := ExampleEnv(), ExampleConfig("10.0.0.1"), ExampleConfig("10.0.0.2");
            var w := World({Live("p", "10.0.0.1", "/srv/p")}, map[("p", "h") := "c0"]);
            var js := [DeployJob(ExampleTarget("10.0.0.2"), "c0", true)];
            && PassOk(env, oldConfig, newConfig, w, [], js)
            && Live("p", "10.0.0.1", "/srv/p") in RunPass(env, newConfig, w, [], js).live
            && !LiveIs(env, RunPass(env, newConfig, w, [], js).live, newConfig)
  {
    var env, oldConfig, newConfig := ExampleEnv(), ExampleConfig("10.0.0.1"), ExampleConfig("10.0.0.2");
    var before, after := ExampleTarget("10.0.0.1"), ExampleTarget("10.0.0.2");
    var left := Live("p", "10.0.0.1", "/srv/p");
    var w := World({left}, map[("p", "h") := "c0"]);
    var js := [DeployJob(after, "c0", true)];
    forall t
      ensures t in AllTargetsOf(oldConfig) <==> t == before
      ensures t in AllTargetsOf(newConfig) <==> t == after
      ensures Submitted(js, t) <==> t == after
    {
      ExampleTargets("10.0.0.1", t);
      ExampleTargets("10.0.0.2", t);
      if t == after {
        assert js[0] in js && js[0].target == t;
      }
    }
    ExampleTargets("10.0.0.1", before);
    ExampleTargets("10.0.0.2", after);
    assert LiveOf(env, before) == left;
    ExampleNoTeardown();
    forall t
      ensures !IsAdded(oldConfig, newConfig, t)
      ensures IsChanged(oldConfig, newConfig, t) <==> t == after
    {
      AddedIsDifference(oldConfig, newConfig, env.badPattern, t);
      ChangedIsDifference(oldConfig, newConfig, env.badPattern, t);
      assert SettingsDiffer(before, after);
    }
    assert StaysPut(env, newConfig, before) by {
      assert Placed(newConfig, env.join, after.project.name, after.host.name, DirOf(env, after));
    }
    LiveAfterPass(env, oldConfig, newConfig, w, [], js, left);
    assert LiveOf(env, after).address == "10.0.0.2";
  }

  lemma ExampleNoTeardown()
    ensures forall t :: !IsTeardown(ExampleConfig("10.0.0.1"), ExampleConfig("10.0.0.2"), ExampleEnv().join, t)
  {
    var env, oldConfig, newConfig := ExampleEnv(), ExampleConfig("10.0.0.1"), ExampleConfig("10.0.0.2");
    ExampleTargets("10.0.0.1", ExampleTarget("10.0.0.1"));
    ExampleTargets("10.0.0.2", ExampleTarget("10.0.0.2"));
    forall t
      ensures !IsTeardown(oldConfig, newConfig, env.join, t)
    {
      if IsTeardown(oldConfig, newConfig, env.join, t) {
        var o := TeardownOrigin(env, oldConfig, newConfig, t);
        ExampleTargets("10.0.0.1", o);
        assert Placed(newConfig, env.join, "p", "h", DirOf(env, ExampleTarget("10.0.0.2")));
        assert false;
      }
    }
  }
}
