/** The code of one reconcile pass: ReconcileRemovals, ReconcileAdditions and ReconcileProjectChanges
    of internal/engine/reconcile.go and the push handler of internal/engine/handler.go that turns
    their events into jobs. */
module ReconcilePass {
  import opened Base
  import opened DeployConfig
  import opened Glob
  import opened Planner
  import opened DeploymentStore
  import opened Reconcile
  import opened Convergence
  import Resume

  /** An event of the pass: the planned targets of one repo, to be deployed at one commit. */
  datatype PassEvent = PassEvent(repoName: string, branch: string, sha: string, forced: seq<Target>, redeploy: bool)

  /** Mirror heads by url and branch, None when there is no mirror; saved cursors by repo name and
      branch, empty when there is none. */
  datatype Commits = Commits(head: (string, string) -> Option<string>, cursor: (string, string) -> string)

  function CursorOf(k: Commits, repo: Repo): string {
    k.cursor(repo.name, repo.branch)
  }

  function HeadOrCursor(k: Commits, repo: Repo): string {
    var head := k.head(repo.url, repo.branch);
    if head.Some? && head.value != "" then head.value else CursorOf(k, repo)
  }

  predicate HasRecord(f: Files, project: string, host: string) {
    LookupLatest(f, project, host).Found?
  }

  /** The teardown jobs: the targets that have a record. */
  method ReconcileRemovals(oldConfig: Config, newConfig: Config, f: Files, join: PathJoin)
    returns (jobs: seq<TeardownTarget>)
    ensures forall t :: t in jobs <==>
      IsTeardown(oldConfig, newConfig, join, t) && HasRecord(f, t.projectName, t.host.name)
  {
    var targets := FindTeardownTargets(oldConfig, newConfig, join);
    jobs := [];
    for i := 0 to |targets|
      invariant forall t :: t in jobs <==> t in targets[..i] && HasRecord(f, t.projectName, t.host.name)
    {
      if HasRecord(f, targets[i].projectName, targets[i].host.name) {
        jobs := jobs + [targets[i]];
      }
    }
    assert targets[..|targets|] == targets;
  }

  // ---- The events ----

  ghost predicate Grouped(byRepo: map<string, seq<Target>>) {
    forall r :: r in byRepo ==> byRepo[r] != [] && forall t :: t in byRepo[r] ==>
      t.repo.name == r && t.repo == byRepo[r][0].repo
  }

  ghost predicate InGroup(byRepo: map<string, seq<Target>>, t: Target) {
    t.repo.name in byRepo && t in byRepo[t.repo.name]
  }

  ghost predicate Forces(events: seq<PassEvent>, t: Target) {
    exists e :: e in events && t in e.forced
  }

  /** Every event is for one repo, at the commit known for it. */
  ghost predicate EventsAt(events: seq<PassEvent>, commitOf: Repo -> string, redeploy: bool) {
    forall e :: e in events ==>
      && e.forced != [] && e.redeploy == redeploy && e.sha != ""
      && forall t :: t in e.forced ==>
           e.repoName == t.repo.name && e.branch == t.repo.branch && e.sha == commitOf(t.repo)
  }

  method EventsFor(byRepo: map<string, seq<Target>>, commitOf: Repo -> string, redeploy: bool)
    returns (events: seq<PassEvent>)
    requires Grouped(byRepo)
    ensures EventsAt(events, commitOf, redeploy)
    ensures forall t :: Forces(events, t) <==> InGroup(byRepo, t) && commitOf(t.repo) != ""
  {
    events := [];
    var names := byRepo.Keys;
    while names != {}
      invariant names <= byRepo.Keys
      invariant EventsAt(events, commitOf, redeploy)
      invariant forall t :: Forces(events, t) <==> InGroup(byRepo, t) && t.repo.name !in names && commitOf(t.repo) != ""
      decreases |names|
    {
      var name :| name in names;
      var targets := byRepo[name];
      var repo := targets[0].repo;
      ghost var before := events;
      if commitOf(repo) != "" {
        events := events + [PassEvent(name, repo.branch, commitOf(repo), targets, redeploy)];
      }
      forall t
        ensures Forces(events, t) <==> Forces(before, t) || (t in targets && commitOf(repo) != "")
      {
        if commitOf(repo) != "" && t in targets {
          assert events[|before|] in events && t in events[|before|].forced;
        }
        if Forces(before, t) {
          var e :| e in before && t in e.forced;
          assert e in events;
        }
      }
      names := names - {name};
    }
  }

  /** Exactly the added targets of repos with a known commit, at the mirror's head if there is one. */
  method ReconcileAdditions(oldConfig: Config, newConfig: Config, k: Commits) returns (events: seq<PassEvent>)
    ensures EventsAt(events, repo => HeadOrCursor(k, repo), false)
    ensures forall e, t :: e in events && t in e.forced ==>
      var head, cursor := k.head(t.repo.url, t.repo.branch), k.cursor(t.repo.name, t.repo.branch);
      e.sha == if head.Some? && head.value != "" then head.value else cursor
    ensures forall t :: Forces(events, t) <==> IsAdded(oldConfig, newConfig, t) && HeadOrCursor(k, t.repo) != ""
  {
    var targets := FindAddedDeployTargets(oldConfig, newConfig);
    var byRepo: map<string, seq<Target>> := Resume.GroupByRepo(targets);
    Resume.SameRepoEntry(newConfig);
    forall r: string, t: Target | r in byRepo && t in byRepo[r]
      ensures t.repo == byRepo[r][0].repo
    {
      assert byRepo[r][0] in byRepo[r];
    }
    events := EventsFor(byRepo, repo => HeadOrCursor(k, repo), false);
  }

  lemma ChangedIsListed(oldConfig: Config, newConfig: Config, t: Target)
    requires IsChanged(oldConfig, newConfig, t)
    ensures t in AllTargetsOf(newConfig)
  {
    var i :| ChangedAt(oldConfig, newConfig, i, t);
    InTargetsUpTo(newConfig, |newConfig.projects|, t);
  }

  /** Exactly the changed targets of repos with a saved cursor, at the cursor, as redeploys. A repo
      known only by its mirror is passed over here, unlike in ReconcileAdditions. */
  method ReconcileProjectChanges(oldConfig: Config, newConfig: Config, k: Commits) returns (events: seq<PassEvent>)
    ensures EventsAt(events, repo => CursorOf(k, repo), true)
    ensures forall e, t :: e in events && t in e.forced ==>
      e.redeploy && e.sha == k.cursor(t.repo.name, t.repo.branch)
    ensures forall t :: Forces(events, t) <==> IsChanged(oldConfig, newConfig, t) && CursorOf(k, t.repo) != ""
  {
    var byRepo: map<string, seq<Target>> := FindChangedTargets(oldConfig, newConfig);
    Resume.SameRepoEntry(newConfig);
    forall r: string, t: Target | r in byRepo && t in byRepo[r]
      ensures t.repo == byRepo[r][0].repo
    {
      assert byRepo[r][0] in byRepo[r];
      ChangedIsListed(oldConfig, newConfig, t);
      ChangedIsListed(oldConfig, newConfig, byRepo[r][0]);
    }
    events := EventsFor(byRepo, repo => CursorOf(k, repo), true);
  }

  // ---- The push handler ----

  /** The handler submits the i-th planned target; stores(i) is the store when it looks. */
  predicate Submits(targets: seq<Target>, sha: string, redeploy: bool, stores: nat -> Files, i: nat)
    requires i < |targets|
  {
    redeploy || !ShouldSkip(stores(i), targets[i].project.name, targets[i].host.name, sha)
  }

  /** Field by field: a redeploy always; else unless the pair has a readable record at the commit that is
      running or successful. */
  lemma SubmitsExactly(targets: seq<Target>, sha: string, redeploy: bool, stores: nat -> Files, i: nat)
    requires i < |targets|
    ensures var key, f := targets[i].host.name + "/" + targets[i].project.name, stores(i);
      Submits(targets, sha, redeploy, stores, i) <==>
        || redeploy || key !in f.latest
        || f.latest[key].id == "" || f.latest[key].project == "" || f.latest[key].host == ""
        || f.latest[key].commitSha != sha
        || (f.latest[key].status != StatusRunning && f.latest[key].status != StatusSuccess)
  {
  }

  function JobsUpTo(targets: seq<Target>, sha: string, redeploy: bool, stores: nat -> Files, n: nat): seq<DeployJob>
    requires n <= |targets|
  {
    if n == 0 then []
    else
      JobsUpTo(targets, sha, redeploy, stores, n - 1)
      + (if Submits(targets, sha, redeploy, stores, n - 1) then [DeployJob(targets[n - 1], sha, redeploy)] else [])
  }

  method PushHandler(c: Config, e: Event, sha: string, redeploy: bool, stores: nat -> Files, seg: SegmentMatcher)
    returns (jobs: seq<DeployJob>)
    ensures jobs == JobsUpTo(PlanOf(c, e, seg), sha, redeploy, stores, |PlanOf(c, e, seg)|)
  {
    var targets := Plan(c, e, seg);
    jobs := [];
    for i := 0 to |targets|
      invariant jobs == JobsUpTo(targets, sha, redeploy, stores, i)
    {
      var t := targets[i];
      if redeploy || !ShouldSkip(stores(i), t.project.name, t.host.name, sha) {
        jobs := jobs + [DeployJob(t, sha, redeploy)];
      }
    }
  }

  /** A job for every planned target that has no running or successful record at the commit, and no
      other; one job per entry of the plan. */
  lemma {:induction false} JobsAreUnskipped(targets: seq<Target>, sha: string, redeploy: bool, stores: nat -> Files,
                                            n: nat, j: DeployJob)
    requires n <= |targets|
    ensures j in JobsUpTo(targets, sha, redeploy, stores, n) <==>
            j.sha == sha && j.redeploy == redeploy && exists i ::
              0 <= i < n && targets[i] == j.target && Submits(targets, sha, redeploy, stores, i)
  {
    if n > 0 {
      JobsAreUnskipped(targets, sha, redeploy, stores, n - 1, j);
      if j == DeployJob(targets[n - 1], sha, redeploy) && Submits(targets, sha, redeploy, stores, n - 1) {
        assert targets[n - 1] == j.target;
      }
    }
  }

  // ---- The pass ----

  /** The jobs of the pass's events, event by event; stores(k) are the stores seen at the k-th. */
  function JobsOfEvents(events: seq<PassEvent>, stores: nat -> nat -> Files): seq<DeployJob> {
    if events == [] then []
    else
      var n := |events| - 1;
      var e := events[n];
      JobsOfEvents(events[..n], stores) + JobsUpTo(e.forced, e.sha, e.redeploy, stores(n), |e.forced|)
  }

  method HandleEvents(c: Config, events: seq<PassEvent>, stores: nat -> nat -> Files, seg: SegmentMatcher)
    returns (jobs: seq<DeployJob>)
    requires forall e :: e in events ==> e.forced != []
    ensures jobs == JobsOfEvents(events, stores)
  {
    jobs := [];
    for k := 0 to |events|
      invariant jobs == JobsOfEvents(events[..k], stores)
    {
      var e := events[k];
      var found := PushHandler(c, Event(e.repoName, None, e.forced), e.sha, e.redeploy, stores(k), seg);
      assert events[..k + 1][..k] == events[..k];
      jobs := jobs + found;
    }
    assert events[..|events|] == events;
  }

  ghost predicate JobOf(e: PassEvent, stores: nat -> Files, j: DeployJob) {
    j in JobsUpTo(e.forced, e.sha, e.redeploy, stores, |e.forced|)
  }

  ghost predicate JobAt(events: seq<PassEvent>, stores: nat -> nat -> Files, k: nat, j: DeployJob) {
    k < |events| && JobOf(events[k], stores(k), j)
  }

  lemma {:induction false} InJobsOfEvents(events: seq<PassEvent>, stores: nat -> nat -> Files, j: DeployJob)
    ensures j in JobsOfEvents(events, stores) <==> exists k: nat :: JobAt(events, stores, k, j)
    decreases |events|
  {
    if events != [] {
      var n := |events| - 1;
      InJobsOfEvents(events[..n], stores, j);
      forall k: nat
        ensures JobAt(events, stores, k, j) <==>
          JobAt(events[..n], stores, k, j) || (k == n && JobOf(events[n], stores(n), j))
      {
      }
      assert JobOf(events[n], stores(n), j) ==> JobAt(events, stores, n, j);
    }
  }

  /** The jobs the pass has submitted when it looks at the i-th target of its k-th event. */
  function JobsBefore(events: seq<PassEvent>, stores: nat -> nat -> Files, k: nat, i: nat): seq<DeployJob>
    requires k < |events| && i <= |events[k].forced|
  {
    var e := events[k];
    JobsOfEvents(events[..k], stores) + JobsUpTo(e.forced, e.sha, e.redeploy, stores(k), i)
  }

  lemma SubmittedBefore(events: seq<PassEvent>, stores: nat -> nat -> Files, k: nat, i: nat, j: DeployJob)
    requires k < |events| && i <= |events[k].forced| && j in JobsBefore(events, stores, k, i)
    ensures j in JobsOfEvents(events, stores)
  {
    InJobsOfEvents(events, stores, j);
    if j in JobsOfEvents(events[..k], stores) {
      InJobsOfEvents(events[..k], stores, j);
      var k': nat :| JobAt(events[..k], stores, k', j);
      assert JobAt(events, stores, k', j);
    } else {
      var e := events[k];
      JobsAreUnskipped(e.forced, e.sha, e.redeploy, stores(k), i, j);
      JobsAreUnskipped(e.forced, e.sha, e.redeploy, stores(k), |e.forced|, j);
      assert JobAt(events, stores, k, j);
    }
  }

  ghost predicate HasJob(jobs: seq<DeployJob>, project: string, host: string) {
    exists j :: j in jobs && PairOf(j.target) == (project, host)
  }

  /** A host of either config. Records are compared on these hosts only: with a slash in a project
      name one entry can also be read as that of a pair on a host with a slash in its name. */
  ghost predicate OnHosts(oldConfig: Config, newConfig: Config, host: string) {
    exists h :: (h in oldConfig.hosts || h in newConfig.hosts) && h.name == host
  }

  /** Records that were not there after the removals belong to pairs of jobs submitted so far. */
  ghost predicate OwnWrites(oldConfig: Config, newConfig: Config, removed: Files, jobs: seq<DeployJob>, now: Files) {
    forall project, host :: OnHosts(oldConfig, newConfig, host) && HasRecord(now, project, host) ==>
      HasRecord(removed, project, host) || HasJob(jobs, project, host)
  }

  /** Nobody else deploys: `removed` is the store after the removals, and from then on only the jobs
      of the pass make records. */
  ghost predicate Undisturbed(oldConfig: Config, newConfig: Config, after: World, removed: Files,
                              events: seq<PassEvent>, stores: nat -> nat -> Files) {
    && (forall project, host :: OnHosts(oldConfig, newConfig, host) && HasRecord(removed, project, host) ==>
          (project, host) in after.records)
    && (forall k, i :: 0 <= k < |events| && 0 <= i < |events[k].forced| ==>
          OwnWrites(oldConfig, newConfig, removed, JobsBefore(events, stores, k, i), stores(k)(i)))
  }

  ghost predicate IsOfPass(oldConfig: Config, newConfig: Config, t: Target, redeploy: bool) {
    if redeploy then IsChanged(oldConfig, newConfig, t) else IsAdded(oldConfig, newConfig, t)
  }

  /** Every event is of additions or of changes. */
  ghost predicate OfPass(oldConfig: Config, newConfig: Config, events: seq<PassEvent>) {
    forall e, t :: e in events && t in e.forced ==> IsOfPass(oldConfig, newConfig, t, e.redeploy)
  }

  lemma OfPassIsListed(oldConfig: Config, newConfig: Config, events: seq<PassEvent>, e: PassEvent, t: Target)
    requires OfPass(oldConfig, newConfig, events) && e in events && t in e.forced
    ensures t in AllTargetsOf(newConfig) && IsOfPass(oldConfig, newConfig, t, e.redeploy)
  {
    assert IsOfPass(oldConfig, newConfig, t, e.redeploy);
    if e.redeploy {
      ChangedIsListed(oldConfig, newConfig, t);
    }
  }

  lemma JobOfPass(oldConfig: Config, newConfig: Config, events: seq<PassEvent>, stores: nat -> nat -> Files,
                  j: DeployJob)
    requires OfPass(oldConfig, newConfig, events) && j in JobsOfEvents(events, stores)
    ensures j.target in AllTargetsOf(newConfig) && Forces(events, j.target)
    ensures IsOfPass(oldConfig, newConfig, j.target, j.redeploy)
  {
    InJobsOfEvents(events, stores, j);
    var k: nat :| JobAt(events, stores, k, j);
    var e := events[k];
    JobsAreUnskipped(e.forced, e.sha, e.redeploy, stores(k), |e.forced|, j);
    assert e in events && j.target in e.forced;
    OfPassIsListed(oldConfig, newConfig, events, e, j.target);
  }

  /** What the handler skips was submitted before: the record it met is of the pass itself. */
  lemma SkippedHasJob(env: Env, oldConfig: Config, newConfig: Config, after: World, removed: Files,
                      events: seq<PassEvent>, stores: nat -> nat -> Files, k: nat, i: nat)
    requires BothValid(oldConfig, newConfig, env.badPattern) && OfPass(oldConfig, newConfig, events)
    requires Undisturbed(oldConfig, newConfig, after, removed, events, stores)
    requires forall pair: (string, string) :: pair in after.records ==> PairPlaced(oldConfig, pair.0, pair.1)
    requires k < |events| && i < |events[k].forced|
    requires !Submits(events[k].forced, events[k].sha, events[k].redeploy, stores(k), i)
    ensures Submitted(JobsOfEvents(events, stores), events[k].forced[i])
  {
    var e := events[k];
    var t := e.forced[i];
    assert e in events && t in e.forced;
    OfPassIsListed(oldConfig, newConfig, events, e, t);
    AddedIsDifference(oldConfig, newConfig, env.badPattern, t);
    AllTargetsComplete(newConfig, env.badPattern, t);
    assert OnHosts(oldConfig, newConfig, t.host.name);
    assert OwnWrites(oldConfig, newConfig, removed, JobsBefore(events, stores, k, i), stores(k)(i));
    assert HasRecord(stores(k)(i), t.project.name, t.host.name);
    assert !HasRecord(removed, t.project.name, t.host.name);
    var j :| j in JobsBefore(events, stores, k, i) && PairOf(j.target) == (t.project.name, t.host.name);
    SubmittedBefore(events, stores, k, i, j);
    JobOfPass(oldConfig, newConfig, events, stores, j);
    PairDetermines(newConfig, env, j.target, t);
  }

  lemma ForcedIsSubmitted(env: Env, oldConfig: Config, newConfig: Config, after: World, removed: Files,
                          events: seq<PassEvent>, stores: nat -> nat -> Files, t: Target)
    requires BothValid(oldConfig, newConfig, env.badPattern) && OfPass(oldConfig, newConfig, events)
    requires Undisturbed(oldConfig, newConfig, after, removed, events, stores)
    requires forall pair: (string, string) :: pair in after.records ==> PairPlaced(oldConfig, pair.0, pair.1)
    ensures Submitted(JobsOfEvents(events, stores), t) <==> Forces(events, t)
  {
    var jobs := JobsOfEvents(events, stores);
    if j :| j in jobs && j.target == t {
      JobOfPass(oldConfig, newConfig, events, stores, j);
    }
    if e :| e in events && t in e.forced {
      var k :| 0 <= k < |events| && events[k] == e;
      var i :| 0 <= i < |e.forced| && e.forced[i] == t;
      if Submits(e.forced, e.sha, e.redeploy, stores(k), i) {
        var j := DeployJob(t, e.sha, e.redeploy);
        JobsAreUnskipped(e.forced, e.sha, e.redeploy, stores(k), |e.forced|, j);
        InJobsOfEvents(events, stores, j);
        assert JobAt(events, stores, k, j);
      } else {
        SkippedHasJob(env, oldConfig, newConfig, after, removed, events, stores, k, i);
      }
    }
  }

  /** The commits the pass needs: a head or a cursor for what is added, a cursor for what changed. */
  ghost predicate CommitsKnown(oldConfig: Config, newConfig: Config, k: Commits) {
    && (forall t :: IsAdded(oldConfig, newConfig, t) ==> HeadOrCursor(k, t.repo) != "")
    && (forall t :: IsChanged(oldConfig, newConfig, t) ==> CursorOf(k, t.repo) != "")
  }

  /** What is live and recorded is the old config, and no two directories get in each other's way. */
  ghost predicate InStep(env: Env, oldConfig: Config, newConfig: Config, w: World) {
    && NoOverlap(env, oldConfig) && NoOverlap(env, newConfig)
    && LiveIs(env, w.live, oldConfig) && RecordsAre(w.records, oldConfig)
  }

  /** Whatever the projects are called, a store can hold exactly these records on hosts of which no
      name goes on below another. */
  lemma {:induction false} RecordsHaveStore(records: map<(string, string), string>, hosts: set<string>)
    returns (f: Files)
    requires forall h1, h2 :: h1 in hosts && h2 in hosts ==> !Below(h1, h2)
    requires forall pair: (string, string) :: pair in records ==> pair.0 != "" && pair.1 != "" && pair.1 in hosts
    ensures forall project, host :: host in hosts ==> ((project, host) in records <==> HasRecord(f, project, host))
    decreases |records|
  {
    if records == map[] {
      f := Files(map[], map[]);
    } else {
      var pair: (string, string) :| pair in records;
      var others := RecordsHaveStore(records - {pair}, hosts);
      HostsKeepApart(hosts);
      var d := Deployment("1", pair.0, pair.1, "", StatusSuccess, 0, None, "");
      f := others.(latest := others.latest[IndexKey(pair.0, pair.1) := d]);
      forall project, host | host in hosts
        ensures (project, host) in records <==> HasRecord(f, project, host)
      {
        assert (project, host) in records <==> (project, host) in records - {pair} || (project, host) == pair;
        assert HasRecord(others, project, host) <==> (project, host) in records - {pair};
        assert IndexKey(project, host) == IndexKey(pair.0, pair.1) ==> (project, host) == pair;
      }
    }
  }

  /** reconcileOnce. While nobody else deploys, its jobs are the removals and deploys that take the
      machines and the records from the old config to the new one exactly if it knows the commits. */
  method ReconcileOnce(env: Env, oldConfig: Config, newConfig: Config, f: Files, k: Commits, ghost removed: Files,
                       stores: nat -> nat -> Files, seg: SegmentMatcher, ghost w: World)
    returns (ts: seq<TeardownTarget>, js: seq<DeployJob>, ghost events: seq<PassEvent>)
    requires BothValid(oldConfig, newConfig, env.badPattern)
    requires forall project, host :: OnHosts(oldConfig, newConfig, host) ==>
      ((project, host) in w.records <==> HasRecord(f, project, host))
    ensures Removals(env, oldConfig, newConfig, w, ts)
    ensures js == JobsOfEvents(events, stores)
    ensures forall t :: Forces(events, t) <==>
              || (IsAdded(oldConfig, newConfig, t) && HeadOrCursor(k, t.repo) != "")
              || (IsChanged(oldConfig, newConfig, t) && CursorOf(k, t.repo) != "")
    ensures RecordsAre(w.records, oldConfig)
            && Undisturbed(oldConfig, newConfig, RunTeardowns(env, newConfig, w, ts), removed, events, stores) ==>
      (Deploys(oldConfig, newConfig, js) <==> CommitsKnown(oldConfig, newConfig, k))
    ensures InStep(env, oldConfig, newConfig, w) && CommitsKnown(oldConfig, newConfig, k)
            && Undisturbed(oldConfig, newConfig, RunTeardowns(env, newConfig, w, ts), removed, events, stores) ==>
      var after := RunPass(env, newConfig, w, ts, js);
      RecordsAre(after.records, newConfig)
        && (LiveIs(env, after.live, newConfig) <==> NoOrphans(env, oldConfig, newConfig))
  {
    ts := ReconcileRemovals(oldConfig, newConfig, f, env.join);
    forall t | IsTeardown(oldConfig, newConfig, env.join, t)
      ensures OnHosts(oldConfig, newConfig, t.host.name)
    {
      var o := TeardownOrigin(env, oldConfig, newConfig, t);
      AllTargetsComplete(oldConfig, env.badPattern, o);
    }
    var added := ReconcileAdditions(oldConfig, newConfig, k);
    var changed := ReconcileProjectChanges(oldConfig, newConfig, k);
    events := added + changed;
    ForcesBoth(added, changed);
    js := HandleEvents(newConfig, added + changed, stores, seg);
    EventsOfPass(oldConfig, newConfig, added, changed);
    ghost var after := RunTeardowns(env, newConfig, w, ts);
    if RecordsAre(w.records, oldConfig) && Undisturbed(oldConfig, newConfig, after, removed, events, stores) {
      RemovalsOnlyRemove(env, oldConfig, newConfig, w, ts);
      EventsAreDeploys(env, oldConfig, newConfig, k, after, removed, events, stores);
      if InStep(env, oldConfig, newConfig, w) && CommitsKnown(oldConfig, newConfig, k) {
        PassConverges(env, oldConfig, newConfig, w, ts, js);
      }
    }
  }

  lemma RemovalsOnlyRemove(env: Env, oldConfig: Config, newConfig: Config, w: World, ts: seq<TeardownTarget>)
    requires BothValid(oldConfig, newConfig, env.badPattern) && RecordsAre(w.records, oldConfig)
    requires Removals(env, oldConfig, newConfig, w, ts)
    ensures forall pair: (string, string) ::
              pair in RunTeardowns(env, newConfig, w, ts).records ==> PairPlaced(oldConfig, pair.0, pair.1)
  {
    forall pair: (string, string) | pair in RunTeardowns(env, newConfig, w, ts).records
      ensures PairPlaced(oldConfig, pair.0, pair.1)
    {
      TeardownsRecords(env, oldConfig, newConfig, w, ts, pair);
    }
  }

  lemma ForcesBoth(a: seq<PassEvent>, b: seq<PassEvent>)
    ensures forall t :: Forces(a + b, t) <==> Forces(a, t) || Forces(b, t)
  {
    forall t
      ensures Forces(a + b, t) <==> Forces(a, t) || Forces(b, t)
    {
      if e :| e in a && t in e.forced {
        assert e in a + b;
      }
      if e :| e in b && t in e.forced {
        assert e in a + b;
      }
    }
  }

  lemma EventsOfPass(oldConfig: Config, newConfig: Config, added: seq<PassEvent>, changed: seq<PassEvent>)
    requires forall e :: e in added ==> !e.redeploy
    requires forall e :: e in changed ==> e.redeploy
    requires forall t :: Forces(added, t) ==> IsAdded(oldConfig, newConfig, t)
    requires forall t :: Forces(changed, t) ==> IsChanged(oldConfig, newConfig, t)
    ensures OfPass(oldConfig, newConfig, added + changed)
  {
    forall e, t | e in added + changed && t in e.forced
      ensures IsOfPass(oldConfig, newConfig, t, e.redeploy)
    {
      assert if e.redeploy then Forces(changed, t) else Forces(added, t);
    }
  }

  lemma EventsAreDeploys(env: Env, oldConfig: Config, newConfig: Config, k: Commits, after: World, removed: Files,
                         events: seq<PassEvent>, stores: nat -> nat -> Files)
    requires BothValid(oldConfig, newConfig, env.badPattern) && OfPass(oldConfig, newConfig, events)
    requires Undisturbed(oldConfig, newConfig, after, removed, events, stores)
    requires forall pair: (string, string) :: pair in after.records ==> PairPlaced(oldConfig, pair.0, pair.1)
    requires forall t :: Forces(events, t) <==>
               || (IsAdded(oldConfig, newConfig, t) && HeadOrCursor(k, t.repo) != "")
               || (IsChanged(oldConfig, newConfig, t) && CursorOf(k, t.repo) != "")
    ensures Deploys(oldConfig, newConfig, JobsOfEvents(events, stores)) <==> CommitsKnown(oldConfig, newConfig, k)
  {
    var jobs := JobsOfEvents(events, stores);
    forall j | j in jobs
      ensures IsOfPass(oldConfig, newConfig, j.target, j.redeploy)
    {
      JobOfPass(oldConfig, newConfig, events, stores, j);
    }
    forall t
      ensures Submitted(jobs, t) <==> Forces(events, t)
      ensures !(IsAdded(oldConfig, newConfig, t) && IsChanged(oldConfig, newConfig, t))
    {
      ForcedIsSubmitted(env, oldConfig, newConfig, after, removed, events, stores, t);
      if IsAdded(oldConfig, newConfig, t) && IsChanged(oldConfig, newConfig, t) {
        AddedOrChanged(oldConfig, newConfig, env.badPattern, t, t);
      }
    }
  }
}
