/** The difference between two configs (internal/engine/reconcile.go): what to tear down, what to
    deploy because it is new, what to redeploy because its settings changed. */
module Reconcile {
  import opened Base
  import opened DeployConfig
  import opened Planner

  datatype TeardownTarget = TeardownTarget(projectName: string, host: Host, remoteDir: string,
                                           composeFiles: seq<string>, removeState: bool)

  /** Whether newConfig, read through its indexes, still lists the pair. */
  predicate StillTargeted(newConfig: Config, project: string, host: string) {
    var projects := IndexOf(newConfig.projects, ProjectName);
    project in projects && host in projects[project].targets
  }

  predicate SameLocation(newConfig: Config, project: string, host: string, dir: string, join: PathJoin) {
    var hosts := IndexOf(newConfig.hosts, HostName);
    && StillTargeted(newConfig, project, host) && host in hosts
    && join(hosts[host].deployDir, IndexOf(newConfig.projects, ProjectName)[project].deploySubdir) == dir
  }

  /** What the inner loop of FindTeardownTargets appends for one old (project, host) entry. */
  function TeardownsOf(oldConfig: Config, newConfig: Config, join: PathJoin, project: Project,
                       host: string): set<TeardownTarget> {
    var hosts := IndexOf(oldConfig.hosts, HostName);
    if host !in hosts then {}
    else
      var dir := join(hosts[host].deployDir, project.deploySubdir);
      if SameLocation(newConfig, project.name, host, dir, join) then {}
      else {TeardownTarget(project.name, hosts[host], dir, project.composeFiles,
                           !StillTargeted(newConfig, project.name, host))}
  }

  ghost predicate IsTeardown(oldConfig: Config, newConfig: Config, join: PathJoin, t: TeardownTarget) {
    exists project, host :: project in oldConfig.projects && host in project.targets
      && t in TeardownsOf(oldConfig, newConfig, join, project, host)
  }

  method FindTeardownTargets(oldConfig: Config, newConfig: Config, join: PathJoin)
    returns (targets: seq<TeardownTarget>)
    ensures forall t :: t in targets <==> IsTeardown(oldConfig, newConfig, join, t)
  {
    var newProjects := BuildIndex(newConfig.projects, ProjectName);
    var oldHosts := BuildIndex(oldConfig.hosts, HostName);
    var newHosts := BuildIndex(newConfig.hosts, HostName);
    targets := [];
    for i := 0 to |oldConfig.projects|
      invariant forall t :: t in targets <==> exists project, host ::
        project in oldConfig.projects[..i] && host in project.targets
          && t in TeardownsOf(oldConfig, newConfig, join, project, host)
    {
      var found := TeardownsOfProject(oldConfig, newConfig, join, oldConfig.projects[i], newProjects, oldHosts,
                                      newHosts);
      targets := targets + found;
    }
    assert oldConfig.projects[..|oldConfig.projects|] == oldConfig.projects;
  }

  method TeardownsOfProject(oldConfig: Config, newConfig: Config, join: PathJoin, project: Project,
                            newProjects: map<string, Project>, oldHosts: map<string, Host>, newHosts: map<string, Host>)
    returns (targets: seq<TeardownTarget>)
    requires newProjects == IndexOf(newConfig.projects, ProjectName)
    requires oldHosts == IndexOf(oldConfig.hosts, HostName) && newHosts == IndexOf(newConfig.hosts, HostName)
    ensures forall t :: t in targets <==> exists host ::
      host in project.targets && t in TeardownsOf(oldConfig, newConfig, join, project, host)
  {
    targets := [];
    for j := 0 to |project.targets|
      invariant forall t :: t in targets <==>
        exists host :: host in project.targets[..j] && t in TeardownsOf(oldConfig, newConfig, join, project, host)
    {
      var host := project.targets[j];
      ghost var before := targets;
      assert project.targets[..j + 1] == project.targets[..j] + [host];
      if host in oldHosts {
        var dir := join(oldHosts[host].deployDir, project.deploySubdir);
        var stillTargeted := project.name in newProjects && host in newProjects[project.name].targets;
        var sameLocation := false;
        if stillTargeted {
          if host in newHosts {
            sameLocation := join(newHosts[host].deployDir, newProjects[project.name].deploySubdir) == dir;
          }
        }
        if !sameLocation {
          targets := targets + [TeardownTarget(project.name, oldHosts[host], dir, project.composeFiles,
                                               !stillTargeted)];
        }
      }
      assert forall t :: t in targets <==> t in before || t in TeardownsOf(oldConfig, newConfig, join, project, host);
    }
    assert project.targets[..|project.targets|] == project.targets;
  }

  predicate ListsPair(c: Config, project: string, host: string) {
    exists p :: p in c.projects && p.name == project && host in p.targets
  }

  predicate IsAdded(oldConfig: Config, newConfig: Config, t: Target) {
    t in AllTargetsOf(newConfig) && !ListsPair(oldConfig, t.project.name, t.host.name)
  }

  method FindAddedDeployTargets(oldConfig: Config, newConfig: Config) returns (targets: seq<Target>)
    ensures forall t :: t in targets <==> IsAdded(oldConfig, newConfig, t)
  {
    var oldPairs: set<(string, string)> := {};
    for i := 0 to |oldConfig.projects|
      invariant forall pair: (string, string) :: pair in oldPairs <==>
        exists p :: p in oldConfig.projects[..i] && p.name == pair.0 && pair.1 in p.targets
    {
      var project := oldConfig.projects[i];
      oldPairs := oldPairs + (set host | host in project.targets :: (project.name, host));
    }
    assert oldConfig.projects[..|oldConfig.projects|] == oldConfig.projects;
    var all := AllTargets(newConfig);
    targets := [];
    for i := 0 to |all|
      invariant forall t :: t in targets <==> t in all[..i] && !ListsPair(oldConfig, t.project.name, t.host.name)
    {
      if (all[i].project.name, all[i].host.name) !in oldPairs {
        targets := targets + [all[i]];
      }
    }
    assert all[..|all|] == all;
  }

  predicate DeployConfigChanged(a: Project, b: Project) {
    || a.repoSubdir != b.repoSubdir
    || a.deploySubdir != b.deploySubdir
    || a.composeFiles != b.composeFiles
    || a.extraFiles != b.extraFiles
    || a.persistFiles != b.persistFiles
  }

  predicate HostConfigChanged(a: Host, b: Host) {
    a.address != b.address || a.deployDir != b.deployDir || a.user != b.user || a.port != b.port
  }

  /** What ReconcileProjectChanges redeploys: pairs of both configs with changed settings. */
  ghost predicate IsChanged(oldConfig: Config, newConfig: Config, t: Target) {
    exists i :: ChangedAt(oldConfig, newConfig, i, t)
  }

  ghost predicate ChangedAt(oldConfig: Config, newConfig: Config, i: int, t: Target) {
    && Listed(newConfig, i, t)
    && ChangedEntry(oldConfig, t)
  }

  predicate ChangedEntry(oldConfig: Config, t: Target) {
    var oldProjects, oldHosts := IndexOf(oldConfig.projects, ProjectName), IndexOf(oldConfig.hosts, HostName);
    && t.project.name in oldProjects && t.host.name in oldProjects[t.project.name].targets
    && (|| DeployConfigChanged(oldProjects[t.project.name], t.project)
        || (t.host.name in oldHosts && HostConfigChanged(oldHosts[t.host.name], t.host)))
  }

  method ChangedOfProject(oldConfig: Config, newConfig: Config, project: Project, oldProjects: map<string, Project>,
                          oldHosts: map<string, Host>, repos: map<string, Repo>, hosts: map<string, Host>)
    returns (targets: seq<Target>)
    requires oldProjects == IndexOf(oldConfig.projects, ProjectName) && oldHosts == IndexOf(oldConfig.hosts, HostName)
    requires repos == IndexOf(newConfig.repos, RepoName) && hosts == IndexOf(newConfig.hosts, HostName)
    ensures forall t :: t in targets <==> t in OneProject(newConfig, project) && ChangedEntry(oldConfig, t)
  {
    targets := [];
    if project.name !in oldProjects || project.repo !in repos {
      forall t | t in OneProject(newConfig, project)
        ensures t.project == project
      {
        InProjectTargets(project, repos[project.repo], hosts, project.targets, t);
      }
      return;
    }
    var oldProject, repo := oldProjects[project.name], repos[project.repo];
    var projectChanged := DeployConfigChanged(oldProject, project);
    for j := 0 to |project.targets|
      invariant forall t :: t in targets <==>
        t in ProjectTargets(project, repo, hosts, project.targets[..j]) && ChangedEntry(oldConfig, t)
    {
      var name := project.targets[j];
      assert project.targets[..j + 1][..j] == project.targets[..j];
      if name in hosts {
        IndexedIsNamed(newConfig.hosts, HostName, name);
      }
      if name in oldProject.targets && name in hosts {
        var hostChanged := name in oldHosts && HostConfigChanged(oldHosts[name], hosts[name]);
        if projectChanged || hostChanged {
          targets := targets + [Target(project, hosts[name], repo)];
        }
      }
    }
    assert project.targets[..|project.targets|] == project.targets;
  }

  /** The targets to redeploy, grouped by the name of their repo. */
  method FindChangedTargets(oldConfig: Config, newConfig: Config) returns (byRepo: map<string, seq<Target>>)
    ensures forall t :: IsChanged(oldConfig, newConfig, t) <==> t.repo.name in byRepo && t in byRepo[t.repo.name]
    ensures forall r, t :: r in byRepo && t in byRepo[r] ==> t.repo.name == r
    ensures forall r :: r in byRepo ==> byRepo[r] != []
  {
    var oldProjects := BuildIndex(oldConfig.projects, ProjectName);
    var oldHosts := BuildIndex(oldConfig.hosts, HostName);
    var repos := BuildIndex(newConfig.repos, RepoName);
    var hosts := BuildIndex(newConfig.hosts, HostName);
    byRepo := map[];
    for i := 0 to |newConfig.projects|
      invariant forall t :: ChangedBefore(oldConfig, newConfig, i, t) <==>
        t.repo.name in byRepo && t in byRepo[t.repo.name]
      invariant forall r, t :: r in byRepo && t in byRepo[r] ==> t.repo.name == r
      invariant forall r :: r in byRepo ==> byRepo[r] != []
    {
      var project := newConfig.projects[i];
      var found := ChangedOfProject(oldConfig, newConfig, project, oldProjects, oldHosts, repos, hosts);
      forall t | t in found
        ensures t.repo == repos[project.repo] && project.repo in repos && t.repo.name == project.repo
      {
        InProjectTargets(project, repos[project.repo], hosts, project.targets, t);
        IndexedIsNamed(newConfig.repos, RepoName, project.repo);
      }
      ghost var before := byRepo;
      if |found| > 0 {
        assert found[0] in found;
        var r := found[0].repo.name;
        byRepo := byRepo[r := (if r in byRepo then byRepo[r] else []) + found];
      }
      forall t
        ensures ChangedBefore(oldConfig, newConfig, i + 1, t) <==> t.repo.name in byRepo && t in byRepo[t.repo.name]
      {
        OneMoreChanged(oldConfig, newConfig, i, t);
        assert t in found ==> |found| > 0 && t.repo.name == found[0].repo.name;
      }
    }
    forall t
      ensures IsChanged(oldConfig, newConfig, t) <==> ChangedBefore(oldConfig, newConfig, |newConfig.projects|, t)
    {
    }
  }

  ghost predicate ChangedBefore(oldConfig: Config, newConfig: Config, i: int, t: Target) {
    exists k :: k < i && ChangedAt(oldConfig, newConfig, k, t)
  }

  lemma OneMoreChanged(oldConfig: Config, newConfig: Config, i: nat, t: Target)
    requires i < |newConfig.projects|
    ensures ChangedBefore(oldConfig, newConfig, i + 1, t) <==>
            ChangedBefore(oldConfig, newConfig, i, t)
              || (t in OneProject(newConfig, newConfig.projects[i]) && ChangedEntry(oldConfig, t))
  {
    if ChangedBefore(oldConfig, newConfig, i + 1, t) {
      var k :| k < i + 1 && ChangedAt(oldConfig, newConfig, k, t);
      assert k < i || k == i;
    }
    assert ChangedAt(oldConfig, newConfig, i, t) <==>
      t in OneProject(newConfig, newConfig.projects[i]) && ChangedEntry(oldConfig, t);
  }

  // ---- The plan is the placement difference ----

  /** The config puts the project on the host in this directory. */
  ghost predicate Placed(c: Config, join: PathJoin, project: string, host: string, dir: string) {
    exists t :: t in AllTargetsOf(c) && t.project.name == project && t.host.name == host
      && dir == join(t.host.deployDir, t.project.deploySubdir)
  }

  ghost predicate PairPlaced(c: Config, project: string, host: string) {
    exists t :: t in AllTargetsOf(c) && t.project.name == project && t.host.name == host
  }

  ghost predicate BothValid(oldConfig: Config, newConfig: Config, badPattern: string -> bool) {
    Valid(oldConfig, badPattern) && Valid(newConfig, badPattern)
  }

  /** Of a valid config: an entry with its project, host and repo is what the indexes say. */
  lemma TargetByIndex(c: Config, badPattern: string -> bool, project: Project, host: string)
    requires Valid(c, badPattern) && project in c.projects && host in project.targets
    ensures host in IndexOf(c.hosts, HostName) && project.repo in IndexOf(c.repos, RepoName)
    ensures var t := Target(project, IndexOf(c.hosts, HostName)[host], IndexOf(c.repos, RepoName)[project.repo]);
            t in AllTargetsOf(c) && t.host.name == host
    ensures project.name in IndexOf(c.projects, ProjectName)
    ensures IndexOf(c.projects, ProjectName)[project.name] == project
  {
    ValidMeans(c, badPattern);
    var i :| 0 <= i < |c.projects| && c.projects[i] == project;
    var j :| 0 <= j < |project.targets| && project.targets[j] == host;
    IndexLastWins(c.hosts, HostName, host);
    IndexLastWins(c.repos, RepoName, project.repo);
    IndexedIsNamed(c.hosts, HostName, host);
    IndexedIsNamed(c.repos, RepoName, project.repo);
    EntryIsIndexed(c.projects, ProjectName, project);
    AllTargetsComplete(c, badPattern, Target(project, IndexOf(c.hosts, HostName)[host],
                                             IndexOf(c.repos, RepoName)[project.repo]));
  }

  /** And back: a listed target is made of its config's own entries. */
  lemma TargetParts(c: Config, badPattern: string -> bool, t: Target)
    requires Valid(c, badPattern) && t in AllTargetsOf(c)
    ensures t.project in c.projects && t.host.name in t.project.targets
    ensures t.project.name in IndexOf(c.projects, ProjectName)
    ensures IndexOf(c.projects, ProjectName)[t.project.name] == t.project
    ensures t.host.name in IndexOf(c.hosts, HostName) && IndexOf(c.hosts, HostName)[t.host.name] == t.host
    ensures t.project.repo in IndexOf(c.repos, RepoName) && IndexOf(c.repos, RepoName)[t.project.repo] == t.repo
  {
    ValidMeans(c, badPattern);
    AllTargetsComplete(c, badPattern, t);
    EntryIsIndexed(c.projects, ProjectName, t.project);
    EntryIsIndexed(c.hosts, HostName, t.host);
    EntryIsIndexed(c.repos, RepoName, t.repo);
  }

  lemma StillTargetedIsPlaced(c: Config, badPattern: string -> bool, project: string, host: string)
    requires Valid(c, badPattern)
    ensures StillTargeted(c, project, host) <==> PairPlaced(c, project, host)
  {
    if StillTargeted(c, project, host) {
      IndexedIsNamed(c.projects, ProjectName, project);
      TargetByIndex(c, badPattern, IndexOf(c.projects, ProjectName)[project], host);
    }
    if t :| t in AllTargetsOf(c) && t.project.name == project && t.host.name == host {
      TargetParts(c, badPattern, t);
    }
  }

  lemma SameLocationIsPlaced(c: Config, badPattern: string -> bool, join: PathJoin, project: string, host: string,
                             dir: string)
    requires Valid(c, badPattern)
    ensures SameLocation(c, project, host, dir, join) <==> Placed(c, join, project, host, dir)
  {
    if SameLocation(c, project, host, dir, join) {
      IndexedIsNamed(c.projects, ProjectName, project);
      TargetByIndex(c, badPattern, IndexOf(c.projects, ProjectName)[project], host);
    }
    if t :|
      && t in AllTargetsOf(c) && t.project.name == project && t.host.name == host
      && dir == join(t.host.deployDir, t.project.deploySubdir)
    {
      TargetParts(c, badPattern, t);
    }
  }

  predicate TearsDown(t: TeardownTarget, project: string, host: string, dir: string, removeState: bool) {
    t.projectName == project && t.host.name == host && t.remoteDir == dir && t.removeState == removeState
  }

  /** One pair in two configs, with the project not the same in anything but its repo, its targets and its
      watch paths, or with the host not the same. */
  predicate SettingsDiffer(o: Target, t: Target) {
    && o.project.name == t.project.name && o.host.name == t.host.name
    && (|| t.project != o.project.(repo := t.project.repo, targets := t.project.targets,
                                   watchPaths := t.project.watchPaths)
        || t.host != o.host)
  }

  /** What the compared fields leave out. */
  lemma ComparedFields(o: Target, t: Target)
    requires o.project.name == t.project.name && o.host.name == t.host.name
    ensures SettingsDiffer(o, t) <==> DeployConfigChanged(o.project, t.project) || HostConfigChanged(o.host, t.host)
  {
  }

  /** The teardowns are exactly the old placements that the new config does not have, and each
      clears the pair's record exactly when the new config does not have the pair at all. */
  lemma TeardownIsDifference(oldConfig: Config, newConfig: Config, badPattern: string -> bool, join: PathJoin,
                             project: string, host: string, dir: string, removeState: bool)
    requires BothValid(oldConfig, newConfig, badPattern)
    ensures (exists t :: IsTeardown(oldConfig, newConfig, join, t) && TearsDown(t, project, host, dir, removeState))
       <==> Placed(oldConfig, join, project, host, dir) && !Placed(newConfig, join, project, host, dir)
            && removeState == !PairPlaced(newConfig, project, host)
  {
    StillTargetedIsPlaced(newConfig, badPattern, project, host);
    SameLocationIsPlaced(newConfig, badPattern, join, project, host, dir);
    var hosts := IndexOf(oldConfig.hosts, HostName);
    if t :| IsTeardown(oldConfig, newConfig, join, t) && TearsDown(t, project, host, dir, removeState) {
      var p, h :| p in oldConfig.projects && h in p.targets && t in TeardownsOf(oldConfig, newConfig, join, p, h);
      TargetByIndex(oldConfig, badPattern, p, h);
    }
    if Placed(oldConfig, join, project, host, dir) && !Placed(newConfig, join, project, host, dir) {
      var o :| o in AllTargetsOf(oldConfig) && o.project.name == project && o.host.name == host
        && dir == join(o.host.deployDir, o.project.deploySubdir);
      TargetParts(oldConfig, badPattern, o);
      var t := TeardownTarget(project, o.host, dir, o.project.composeFiles, !PairPlaced(newConfig, project, host));
      assert t in TeardownsOf(oldConfig, newConfig, join, o.project, host);
      assert IsTeardown(oldConfig, newConfig, join, t) && TearsDown(t, project, host, dir, t.removeState);
    }
  }

  /** The teardowns, each as it is handed on: an old target whose place the new config does not keep, on
      the old host, in the old directory, with the old compose files. */
  lemma TeardownsExactly(oldConfig: Config, newConfig: Config, badPattern: string -> bool, join: PathJoin,
                         t: TeardownTarget)
    requires BothValid(oldConfig, newConfig, badPattern)
    ensures IsTeardown(oldConfig, newConfig, join, t) <==> exists o :: IsTeardownOf(oldConfig, newConfig, join, o, t)
  {
    if IsTeardown(oldConfig, newConfig, join, t) {
      var p, h :| p in oldConfig.projects && h in p.targets && t in TeardownsOf(oldConfig, newConfig, join, p, h);
      TargetByIndex(oldConfig, badPattern, p, h);
      StillTargetedIsPlaced(newConfig, badPattern, p.name, h);
      SameLocationIsPlaced(newConfig, badPattern, join, p.name, h, t.remoteDir);
      var o := Target(p, IndexOf(oldConfig.hosts, HostName)[h], IndexOf(oldConfig.repos, RepoName)[p.repo]);
      assert IsTeardownOf(oldConfig, newConfig, join, o, t);
    }
    if o :| IsTeardownOf(oldConfig, newConfig, join, o, t) {
      TargetParts(oldConfig, badPattern, o);
      StillTargetedIsPlaced(newConfig, badPattern, o.project.name, o.host.name);
      SameLocationIsPlaced(newConfig, badPattern, join, o.project.name, o.host.name, t.remoteDir);
      assert t in TeardownsOf(oldConfig, newConfig, join, o.project, o.host.name);
    }
  }

  ghost predicate IsTeardownOf(oldConfig: Config, newConfig: Config, join: PathJoin, o: Target, t: TeardownTarget) {
    && o in AllTargetsOf(oldConfig)
    && t.projectName == o.project.name && t.host == o.host && t.composeFiles == o.project.composeFiles
    && t.remoteDir == join(o.host.deployDir, o.project.deploySubdir)
    && !Placed(newConfig, join, o.project.name, o.host.name, t.remoteDir)
    && t.removeState == !PairPlaced(newConfig, o.project.name, o.host.name)
  }

  lemma ListsPairIsPlaced(c: Config, badPattern: string -> bool, project: string, host: string)
    requires Valid(c, badPattern)
    ensures ListsPair(c, project, host) <==> PairPlaced(c, project, host)
  {
    if p :| p in c.projects && p.name == project && host in p.targets {
      TargetByIndex(c, badPattern, p, host);
    }
    if t :| t in AllTargetsOf(c) && t.project.name == project && t.host.name == host {
      TargetParts(c, badPattern, t);
    }
  }

  /** The additions are exactly the targets of pairs the old config did not have. */
  lemma AddedIsDifference(oldConfig: Config, newConfig: Config, badPattern: string -> bool, t: Target)
    requires BothValid(oldConfig, newConfig, badPattern)
    ensures IsAdded(oldConfig, newConfig, t) <==>
      t in AllTargetsOf(newConfig) && !PairPlaced(oldConfig, t.project.name, t.host.name)
  {
    ListsPairIsPlaced(oldConfig, badPattern, t.project.name, t.host.name);
  }

  /** The changes are exactly the targets of pairs both configs have, with different settings. */
  lemma ChangedIsDifference(oldConfig: Config, newConfig: Config, badPattern: string -> bool, t: Target)
    requires BothValid(oldConfig, newConfig, badPattern)
    ensures IsChanged(oldConfig, newConfig, t) <==>
            t in AllTargetsOf(newConfig) && exists o :: o in AllTargetsOf(oldConfig) && SettingsDiffer(o, t)
  {
    InTargetsUpTo(newConfig, |newConfig.projects|, t);
    if IsChanged(oldConfig, newConfig, t) {
      var i :| ChangedAt(oldConfig, newConfig, i, t);
      IndexedIsNamed(oldConfig.projects, ProjectName, t.project.name);
      var p := IndexOf(oldConfig.projects, ProjectName)[t.project.name];
      TargetByIndex(oldConfig, badPattern, p, t.host.name);
      var o := Target(p, IndexOf(oldConfig.hosts, HostName)[t.host.name], IndexOf(oldConfig.repos, RepoName)[p.repo]);
      ComparedFields(o, t);
    }
    if t in AllTargetsOf(newConfig) {
      if o :| o in AllTargetsOf(oldConfig) && SettingsDiffer(o, t) {
        TargetParts(oldConfig, badPattern, o);
        ComparedFields(o, t);
        var i :| i < |newConfig.projects| && Listed(newConfig, i, t);
        assert ChangedAt(oldConfig, newConfig, i, t);
      }
    }
  }

  /** No pair is both added and changed. */
  lemma AddedOrChanged(oldConfig: Config, newConfig: Config, badPattern: string -> bool, a: Target, b: Target)
    requires BothValid(oldConfig, newConfig, badPattern)
    requires IsAdded(oldConfig, newConfig, a) && IsChanged(oldConfig, newConfig, b)
    ensures a.project.name != b.project.name || a.host.name != b.host.name
  {
    AddedIsDifference(oldConfig, newConfig, badPattern, a);
    ChangedIsDifference(oldConfig, newConfig, badPattern, b);
  }

  /** Every placement the old config did not have is deployed by the pass, as an addition or as a
      change; so a pair whose old directory is torn down but which is kept is redeployed. */
  lemma NewPlacementDeployed(oldConfig: Config, newConfig: Config, badPattern: string -> bool, join: PathJoin,
                             t: Target)
    requires BothValid(oldConfig, newConfig, badPattern) && t in AllTargetsOf(newConfig)
    requires !Placed(oldConfig, join, t.project.name, t.host.name, join(t.host.deployDir, t.project.deploySubdir))
    ensures IsAdded(oldConfig, newConfig, t) || IsChanged(oldConfig, newConfig, t)
    ensures IsChanged(oldConfig, newConfig, t) <==> PairPlaced(oldConfig, t.project.name, t.host.name)
  {
    AddedIsDifference(oldConfig, newConfig, badPattern, t);
    ChangedIsDifference(oldConfig, newConfig, badPattern, t);
    if o :| o in AllTargetsOf(oldConfig) && o.project.name == t.project.name && o.host.name == t.host.name {
      assert Placed(oldConfig, join, o.project.name, o.host.name, join(o.host.deployDir, o.project.deploySubdir));
      assert SettingsDiffer(o, t);
    }
  }
}
