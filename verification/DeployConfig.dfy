/** The deploy configuration (internal/config): its entities, the last-wins indexes over their names
    and the validation that decides whether a config may be applied. */
module DeployConfig {
  import opened Base

  datatype Host = Host(name: string, address: string, deployDir: string, user: string, port: int)

  datatype Repo = Repo(name: string, url: string, branch: string, triggerMode: string)

  datatype Project = Project(
    name: string,
    repo: string,
    repoSubdir: string,
    composeFiles: seq<string>,
    targets: seq<string>,
    watchPaths: seq<string>,
    deploySubdir: string,
    extraFiles: seq<string>,
    persistFiles: seq<string>)

  datatype Config = Config(hosts: seq<Host>, repos: seq<Repo>, projects: seq<Project>)

  function HostName(host: Host): string {
    host.name
  }

  function RepoName(repo: Repo): string {
    repo.name
  }

  function ProjectName(project: Project): string {
    project.name
  }

  // ---- Indexes ----

  /** HostIndex, RepoIndex and ProjectIndex: a map from name to entry. */
  function IndexOf<T>(items: seq<T>, nameOf: T -> string): map<string, T> {
    if items == [] then map[]
    else IndexOf(items[..|items| - 1], nameOf)[nameOf(items[|items| - 1]) := items[|items| - 1]]
  }

  /** Entry i is the last one with its name. */
  ghost predicate LastNamed<T>(items: seq<T>, nameOf: T -> string, i: int, name: string) {
    0 <= i < |items| && nameOf(items[i]) == name && forall j :: i < j < |items| ==> nameOf(items[j]) != name
  }

  ghost predicate FirstNamed<T>(items: seq<T>, nameOf: T -> string, i: int, name: string) {
    0 <= i < |items| && nameOf(items[i]) == name && forall j :: 0 <= j < i ==> nameOf(items[j]) != name
  }

  predicate Named<T>(items: seq<T>, nameOf: T -> string, name: string) {
    exists i :: 0 <= i < |items| && nameOf(items[i]) == name
  }

  /** The index knows exactly the names there are, and the last entry of a name wins. */
  lemma {:induction false} IndexLastWins<T>(items: seq<T>, nameOf: T -> string, name: string)
    ensures name in IndexOf(items, nameOf) <==> Named(items, nameOf, name)
    ensures forall i :: LastNamed(items, nameOf, i, name) ==>
      name in IndexOf(items, nameOf) && IndexOf(items, nameOf)[name] == items[i]
    decreases |items|
  {
    if items != [] {
      var n := |items| - 1;
      var before := items[..n];
      IndexLastWins(before, nameOf, name);
      assert forall i :: 0 <= i < n ==> before[i] == items[i];
      forall i | LastNamed(items, nameOf, i, name)
        ensures name in IndexOf(items, nameOf) && IndexOf(items, nameOf)[name] == items[i]
      {
        if i < n {
          assert nameOf(items[n]) != name;
          assert LastNamed(before, nameOf, i, name);
        }
      }
    }
  }

  method BuildIndex<T>(items: seq<T>, nameOf: T -> string) returns (index: map<string, T>)
    ensures index == IndexOf(items, nameOf)
  {
    index := map[];
    for i := 0 to |items|
      invariant index == IndexOf(items[..i], nameOf)
    {
      assert items[..i + 1][..i] == items[..i];
      index := index[nameOf(items[i]) := items[i]];
    }
    assert items[..|items|] == items;
  }

  // ---- Validation ----

  datatype HostFault = NameMissing | NameDuplicate | AddressMissing | DeployDirMissing | PortOutOfRange

  datatype RepoFault = RepoNameMissing | RepoNameDuplicate | UrlMissing | BranchMissing | UnknownTriggerMode

  datatype ProjectFault =
    | ProjectNameMissing | ProjectNameDuplicate | RepoMissing | RepoUnknown | RepoSubdirMissing | ComposeFilesMissing
    | BadWatchPath(j: nat) | BadPersistFile(j: nat) | TargetsMissing | TargetUnknown(j: nat)

  datatype Issue =
    | NoHosts
    | HostIssue(i: nat, hostFault: HostFault)
    | NoRepos
    | RepoIssue(i: nat, repoFault: RepoFault)
    | NoProjects
    | ProjectIssue(i: nat, projectFault: ProjectFault)

  /** Every issue is an error but the one about having no projects, which is a warning. */
  predicate Blocking(issue: Issue) {
    !issue.NoProjects?
  }

  /** `badPattern` says which segments filepath.Match rejects. */
  predicate WatchPathOk(pattern: string, badPattern: string -> bool) {
    pattern != "" && forall k :: 0 <= k < |Split(pattern, '/')| ==>
      Split(pattern, '/')[k] == "**" || !badPattern(Split(pattern, '/')[k])
  }

  predicate PersistFileOk(name: string) {
    name != "" && name[0] != '/' && ".." !in Split(name, '/')
  }

  predicate SeenBefore<T>(items: seq<T>, nameOf: T -> string, i: nat, name: string) {
    exists j :: 0 <= j < i && j < |items| && nameOf(items[j]) == name
  }

  predicate HostHas(c: Config, i: nat, f: HostFault)
    requires i < |c.hosts|
  {
    var host := c.hosts[i];
    match f
    case NameMissing => host.name == ""
    case NameDuplicate => host.name != "" && SeenBefore(c.hosts, HostName, i, host.name)
    case AddressMissing => host.address == ""
    case DeployDirMissing => host.deployDir == ""
    case PortOutOfRange => host.port != 0 && !(1 <= host.port <= 65535)
  }

  predicate RepoHas(c: Config, i: nat, f: RepoFault)
    requires i < |c.repos|
  {
    var repo := c.repos[i];
    match f
    case RepoNameMissing => repo.name == ""
    case RepoNameDuplicate => repo.name != "" && SeenBefore(c.repos, RepoName, i, repo.name)
    case UrlMissing => repo.url == ""
    case BranchMissing => repo.branch == ""
    case UnknownTriggerMode => repo.triggerMode !in ["webhook", "poll", "hybrid", ""]
  }

  predicate ProjectHas(c: Config, i: nat, f: ProjectFault, badPattern: string -> bool)
    requires i < |c.projects|
  {
    var project := c.projects[i];
    match f
    case ProjectNameMissing => project.name == ""
    case ProjectNameDuplicate => project.name != "" && SeenBefore(c.projects, ProjectName, i, project.name)
    case RepoMissing => project.repo == ""
    case RepoUnknown => project.repo != "" && !Named(c.repos, RepoName, project.repo)
    case RepoSubdirMissing => project.repoSubdir == ""
    case ComposeFilesMissing => project.composeFiles == []
    case BadWatchPath(j) => j < |project.watchPaths| && !WatchPathOk(project.watchPaths[j], badPattern)
    case BadPersistFile(j) => j < |project.persistFiles| && !PersistFileOk(project.persistFiles[j])
    case TargetsMissing => project.targets == []
    case TargetUnknown(j) =>
      j < |project.targets| && (project.targets[j] == "" || !Named(c.hosts, HostName, project.targets[j]))
  }

  /** What each reported issue means. */
  predicate Has(c: Config, issue: Issue, badPattern: string -> bool) {
    match issue
    case NoHosts => c.hosts == []
    case HostIssue(i, f) => i < |c.hosts| && HostHas(c, i, f)
    case NoRepos => c.repos == []
    case RepoIssue(i, f) => i < |c.repos| && RepoHas(c, i, f)
    case NoProjects => c.projects == []
    case ProjectIssue(i, f) => i < |c.projects| && ProjectHas(c, i, f, badPattern)
  }

  /** A config without blocking issues. */
  ghost predicate Valid(c: Config, badPattern: string -> bool) {
    forall issue: Issue :: Has(c, issue, badPattern) ==> !Blocking(issue)
  }

  /** The names recorded by the seen maps: the non-empty ones among the first i. */
  ghost predicate SeenAre<T>(seen: set<string>, items: seq<T>, nameOf: T -> string, i: nat) {
    forall name :: name in seen <==> name != "" && SeenBefore(items, nameOf, i, name)
  }

  /** The issues about the first n hosts. */
  predicate HostSection(c: Config, n: nat, issue: Issue) {
    || (issue.NoHosts? && c.hosts == [])
    || (issue.HostIssue? && issue.i < n && issue.i < |c.hosts| && HostHas(c, issue.i, issue.hostFault))
  }

  predicate RepoSection(c: Config, n: nat, issue: Issue) {
    || (issue.NoRepos? && c.repos == [])
    || (issue.RepoIssue? && issue.i < n && issue.i < |c.repos| && RepoHas(c, issue.i, issue.repoFault))
  }

  predicate ProjectSection(c: Config, n: nat, issue: Issue, badPattern: string -> bool) {
    || (issue.NoProjects? && c.projects == [])
    || (issue.ProjectIssue? && issue.i < n && issue.i < |c.projects|
        && ProjectHas(c, issue.i, issue.projectFault, badPattern))
  }

  method ValidateHosts(c: Config) returns (issues: seq<Issue>, seenHosts: set<string>)
    ensures forall issue :: issue in issues <==> HostSection(c, |c.hosts|, issue)
    ensures SeenAre(seenHosts, c.hosts, HostName, |c.hosts|)
  {
    issues, seenHosts := [], {};
    if |c.hosts| == 0 {
      issues := [NoHosts];
    }
    for i := 0 to |c.hosts|
      invariant forall issue :: issue in issues <==> HostSection(c, i, issue)
      invariant SeenAre(seenHosts, c.hosts, HostName, i)
    {
      var host := c.hosts[i];
      if host.name == "" {
        issues := issues + [HostIssue(i, NameMissing)];
      } else if host.name in seenHosts {
        issues := issues + [HostIssue(i, NameDuplicate)];
      } else {
        seenHosts := seenHosts + {host.name};
      }
      if host.address == "" {
        issues := issues + [HostIssue(i, AddressMissing)];
      }
      if host.deployDir == "" {
        issues := issues + [HostIssue(i, DeployDirMissing)];
      }
      if host.port != 0 && (host.port < 1 || host.port > 65535) {
        issues := issues + [HostIssue(i, PortOutOfRange)];
      }
      assert forall f :: HostIssue(i, f) in issues <==> HostHas(c, i, f);
      assert HostName(c.hosts[i]) == host.name;
    }
  }

  method ValidateRepos(c: Config) returns (issues: seq<Issue>, seenRepos: set<string>)
    ensures forall issue :: issue in issues <==> RepoSection(c, |c.repos|, issue)
    ensures SeenAre(seenRepos, c.repos, RepoName, |c.repos|)
  {
    issues, seenRepos := [], {};
    if |c.repos| == 0 {
      issues := [NoRepos];
    }
    for i := 0 to |c.repos|
      invariant forall issue :: issue in issues <==> RepoSection(c, i, issue)
      invariant SeenAre(seenRepos, c.repos, RepoName, i)
    {
      var repo := c.repos[i];
      if repo.name == "" {
        issues := issues + [RepoIssue(i, RepoNameMissing)];
      } else if repo.name in seenRepos {
        issues := issues + [RepoIssue(i, RepoNameDuplicate)];
      } else {
        seenRepos := seenRepos + {repo.name};
      }
      if repo.url == "" {
        issues := issues + [RepoIssue(i, UrlMissing)];
      }
      if repo.branch == "" {
        issues := issues + [RepoIssue(i, BranchMissing)];
      }
      if repo.triggerMode !in ["webhook", "poll", "hybrid", ""] {
        issues := issues + [RepoIssue(i, UnknownTriggerMode)];
      }
      assert forall f :: RepoIssue(i, f) in issues <==> RepoHas(c, i, f);
      assert RepoName(c.repos[i]) == repo.name;
    }
  }

  predicate BadWatchPathAmong(i: nat, paths: seq<string>, badPattern: string -> bool, n: nat, issue: Issue) {
    && issue.ProjectIssue? && issue.i == i && issue.projectFault.BadWatchPath?
    && issue.projectFault.j < n && issue.projectFault.j < |paths|
    && !WatchPathOk(paths[issue.projectFault.j], badPattern)
  }

  method WatchPathIssues(i: nat, paths: seq<string>, badPattern: string -> bool) returns (issues: seq<Issue>)
    ensures forall issue :: issue in issues <==> BadWatchPathAmong(i, paths, badPattern, |paths|, issue)
  {
    issues := [];
    for j := 0 to |paths|
      invariant forall issue :: issue in issues <==> BadWatchPathAmong(i, paths, badPattern, j, issue)
    {
      if !WatchPathOk(paths[j], badPattern) {
        issues := issues + [ProjectIssue(i, BadWatchPath(j))];
      }
    }
  }

  predicate BadPersistFileAmong(i: nat, names: seq<string>, n: nat, issue: Issue) {
    && issue.ProjectIssue? && issue.i == i && issue.projectFault.BadPersistFile?
    && issue.projectFault.j < n && issue.projectFault.j < |names| && !PersistFileOk(names[issue.projectFault.j])
  }

  method PersistFileIssues(i: nat, names: seq<string>) returns (issues: seq<Issue>)
    ensures forall issue :: issue in issues <==> BadPersistFileAmong(i, names, |names|, issue)
  {
    issues := [];
    for j := 0 to |names|
      invariant forall issue :: issue in issues <==> BadPersistFileAmong(i, names, j, issue)
    {
      if !PersistFileOk(names[j]) {
        issues := issues + [ProjectIssue(i, BadPersistFile(j))];
      }
    }
  }

  predicate TargetUnknownAmong(i: nat, targets: seq<string>, seenHosts: set<string>, n: nat, issue: Issue) {
    && issue.ProjectIssue? && issue.i == i && issue.projectFault.TargetUnknown?
    && issue.projectFault.j < n && issue.projectFault.j < |targets| && targets[issue.projectFault.j] !in seenHosts
  }

  method TargetIssues(i: nat, targets: seq<string>, seenHosts: set<string>) returns (issues: seq<Issue>)
    ensures forall issue :: issue in issues <==> TargetUnknownAmong(i, targets, seenHosts, |targets|, issue)
  {
    issues := [];
    for j := 0 to |targets|
      invariant forall issue :: issue in issues <==> TargetUnknownAmong(i, targets, seenHosts, j, issue)
    {
      if targets[j] !in seenHosts {
        issues := issues + [ProjectIssue(i, TargetUnknown(j))];
      }
    }
  }

  predicate Indexed(f: ProjectFault) {
    f.BadWatchPath? || f.BadPersistFile? || f.TargetUnknown?
  }

  /** The checks of one project that are neither loops nor about its name. */
  method ValidateProjectFields(c: Config, i: nat, seenRepos: set<string>, badPattern: string -> bool)
    returns (issues: seq<Issue>)
    requires i < |c.projects| && SeenAre(seenRepos, c.repos, RepoName, |c.repos|)
    ensures forall issue :: issue in issues ==>
      issue.ProjectIssue? && issue.i == i && !Indexed(issue.projectFault) && !AboutName(issue.projectFault)
    ensures forall f :: !Indexed(f) && !AboutName(f) ==>
      (ProjectIssue(i, f) in issues <==> ProjectHas(c, i, f, badPattern))
  {
    var project := c.projects[i];
    issues := [];
    if project.repo == "" {
      issues := issues + [ProjectIssue(i, RepoMissing)];
    } else if project.repo !in seenRepos {
      issues := issues + [ProjectIssue(i, RepoUnknown)];
    }
    if project.repoSubdir == "" {
      issues := issues + [ProjectIssue(i, RepoSubdirMissing)];
    }
    if |project.composeFiles| == 0 {
      issues := issues + [ProjectIssue(i, ComposeFilesMissing)];
    }
    if |project.targets| == 0 {
      issues := issues + [ProjectIssue(i, TargetsMissing)];
    }
    assert SeenBefore(c.repos, RepoName, |c.repos|, project.repo) <==> Named(c.repos, RepoName, project.repo);
  }

  predicate AboutName(f: ProjectFault) {
    f.ProjectNameMissing? || f.ProjectNameDuplicate?
  }

  method ValidateProjectName(c: Config, i: nat, seenBefore: set<string>, badPattern: string -> bool)
    returns (issues: seq<Issue>, seenProjects: set<string>)
    requires i < |c.projects| && SeenAre(seenBefore, c.projects, ProjectName, i)
    ensures forall issue :: issue in issues ==> issue.ProjectIssue? && issue.i == i && AboutName(issue.projectFault)
    ensures forall f :: AboutName(f) ==> (ProjectIssue(i, f) in issues <==> ProjectHas(c, i, f, badPattern))
    ensures SeenAre(seenProjects, c.projects, ProjectName, i + 1)
  {
    var project := c.projects[i];
    issues, seenProjects := [], seenBefore;
    if project.name == "" {
      issues := [ProjectIssue(i, ProjectNameMissing)];
    } else if project.name in seenProjects {
      issues := [ProjectIssue(i, ProjectNameDuplicate)];
    } else {
      seenProjects := seenProjects + {project.name};
    }
    assert ProjectName(c.projects[i]) == project.name;
  }

  /** One turn of the loop over the projects. */
  method ValidateProject(c: Config, i: nat, seenHosts: set<string>, seenRepos: set<string>, seenBefore: set<string>,
                         badPattern: string -> bool)
    returns (issues: seq<Issue>, seenProjects: set<string>)
    requires i < |c.projects| && SeenAre(seenHosts, c.hosts, HostName, |c.hosts|)
    requires SeenAre(seenRepos, c.repos, RepoName, |c.repos|)
    requires SeenAre(seenBefore, c.projects, ProjectName, i)
    ensures forall issue :: issue in issues <==>
      (issue.ProjectIssue? && issue.i == i && ProjectHas(c, i, issue.projectFault, badPattern))
    ensures SeenAre(seenProjects, c.projects, ProjectName, i + 1)
  {
    var project := c.projects[i];
    var name, seen := ValidateProjectName(c, i, seenBefore, badPattern);
    var fields := ValidateProjectFields(c, i, seenRepos, badPattern);
    var watch := WatchPathIssues(i, project.watchPaths, badPattern);
    var persist := PersistFileIssues(i, project.persistFiles);
    var targets := TargetIssues(i, project.targets, seenHosts);
    issues, seenProjects := name + fields + watch + persist + targets, seen;
    forall issue: Issue
      ensures issue in issues <==>
        (issue.ProjectIssue? && issue.i == i && ProjectHas(c, i, issue.projectFault, badPattern))
    {
      if issue.ProjectIssue? && issue.projectFault.TargetUnknown? && issue.projectFault.j < |project.targets| {
        var target := project.targets[issue.projectFault.j];
        assert SeenBefore(c.hosts, HostName, |c.hosts|, target) <==> Named(c.hosts, HostName, target);
      }
      assert issue in issues <==>
        issue in name || issue in fields || issue in watch || issue in persist || issue in targets;
    }
  }

  /** Validate reports exactly the faults there are. */
  method Validate(c: Config, badPattern: string -> bool) returns (issues: seq<Issue>)
    ensures forall issue :: issue in issues <==> Has(c, issue, badPattern)
  {
    var hostIssues, seenHosts := ValidateHosts(c);
    var repoIssues, seenRepos := ValidateRepos(c);
    var projectIssues: seq<Issue> := [];
    if |c.projects| == 0 {
      projectIssues := [NoProjects];
    }
    var seenProjects: set<string> := {};
    for i := 0 to |c.projects|
      invariant forall issue :: issue in projectIssues <==> ProjectSection(c, i, issue, badPattern)
      invariant SeenAre(seenProjects, c.projects, ProjectName, i)
    {
      var found, seen := ValidateProject(c, i, seenHosts, seenRepos, seenProjects, badPattern);
      projectIssues, seenProjects := projectIssues + found, seen;
    }
    issues := hostIssues + repoIssues + projectIssues;
    assert forall issue :: Has(c, issue, badPattern) <==>
      HostSection(c, |c.hosts|, issue) || RepoSection(c, |c.repos|, issue)
        || ProjectSection(c, |c.projects|, issue, badPattern);
  }

  /** BlockingIssues is empty exactly for the valid configs. */
  method BlockingIssues(c: Config, badPattern: string -> bool) returns (blocking: seq<Issue>)
    ensures forall issue :: issue in blocking <==> Has(c, issue, badPattern) && Blocking(issue)
    ensures blocking == [] <==> Valid(c, badPattern)
  {
    var all := Validate(c, badPattern);
    blocking := [];
    for i := 0 to |all|
      invariant forall issue :: issue in blocking <==> issue in all[..i] && Blocking(issue)
    {
      if Blocking(all[i]) {
        blocking := blocking + [all[i]];
      }
    }
    assert all[..|all|] == all;
    if blocking != [] {
      assert blocking[0] in blocking;
    }
  }

  // ---- What validity gives its users ----

  ghost predicate Unique<T>(items: seq<T>, nameOf: T -> string) {
    forall i, j :: 0 <= i < |items| && 0 <= j < |items| && nameOf(items[i]) == nameOf(items[j]) ==> i == j
  }

  /** Names are unique and non-empty, and every project's repo and targets exist. */
  lemma ValidMeans(c: Config, badPattern: string -> bool)
    requires Valid(c, badPattern)
    ensures Unique(c.hosts, HostName) && Unique(c.repos, RepoName) && Unique(c.projects, ProjectName)
    ensures forall i :: 0 <= i < |c.hosts| ==> c.hosts[i].name != ""
    ensures forall i :: 0 <= i < |c.projects| ==>
      && c.projects[i].name != "" && Named(c.repos, RepoName, c.projects[i].repo) && c.projects[i].targets != []
      && forall j :: 0 <= j < |c.projects[i].targets| ==> Named(c.hosts, HostName, c.projects[i].targets[j])
  {
    forall i, j | 0 <= i < j < |c.hosts|
      ensures HostName(c.hosts[i]) != HostName(c.hosts[j])
    {
      assert !Has(c, HostIssue(j, NameDuplicate), badPattern) && !Has(c, HostIssue(j, NameMissing), badPattern);
    }
    forall i, j | 0 <= i < j < |c.repos|
      ensures RepoName(c.repos[i]) != RepoName(c.repos[j])
    {
      assert !Has(c, RepoIssue(j, RepoNameDuplicate), badPattern) && !Has(c, RepoIssue(j, RepoNameMissing), badPattern);
    }
    forall i, j | 0 <= i < j < |c.projects|
      ensures ProjectName(c.projects[i]) != ProjectName(c.projects[j])
    {
      assert !Has(c, ProjectIssue(j, ProjectNameDuplicate), badPattern)
        && !Has(c, ProjectIssue(j, ProjectNameMissing), badPattern);
    }
    forall i | 0 <= i < |c.hosts|
      ensures c.hosts[i].name != ""
    {
      assert !Has(c, HostIssue(i, NameMissing), badPattern);
    }
    forall i | 0 <= i < |c.projects|
      ensures c.projects[i].name != "" && Named(c.repos, RepoName, c.projects[i].repo) && c.projects[i].targets != []
      ensures forall j :: 0 <= j < |c.projects[i].targets| ==> Named(c.hosts, HostName, c.projects[i].targets[j])
    {
      assert !Has(c, ProjectIssue(i, ProjectNameMissing), badPattern)
        && !Has(c, ProjectIssue(i, RepoMissing), badPattern);
      assert !Has(c, ProjectIssue(i, RepoUnknown), badPattern) && !Has(c, ProjectIssue(i, TargetsMissing), badPattern);
      forall j | 0 <= j < |c.projects[i].targets|
        ensures Named(c.hosts, HostName, c.projects[i].targets[j])
      {
        assert !Has(c, ProjectIssue(i, TargetUnknown(j)), badPattern);
      }
    }
  }

  // ---- Exactly the valid configs ----

  predicate HostSound(host: Host) {
    host.name != "" && host.address != "" && host.deployDir != "" && (host.port == 0 || 1 <= host.port <= 65535)
  }

  predicate RepoSound(repo: Repo) {
    && repo.name != "" && repo.url != "" && repo.branch != ""
    && (repo.triggerMode == "webhook" || repo.triggerMode == "poll" || repo.triggerMode == "hybrid"
        || repo.triggerMode == "")
  }

  /** A watch path is not empty, and each segment is "**" or a pattern that filepath.Match takes. */
  ghost predicate WatchPathSound(pattern: string, badPattern: string -> bool) {
    pattern != "" && forall segment :: segment in Split(pattern, '/') ==> segment == "**" || !badPattern(segment)
  }

  /** A persist file is a relative path that never goes up. */
  ghost predicate PersistFileSound(name: string) {
    name != "" && !("/" <= name) && forall segment :: segment in Split(name, '/') ==> segment != ".."
  }

  ghost predicate ProjectSound(c: Config, project: Project, badPattern: string -> bool) {
    && project.name != "" && Named(c.repos, RepoName, project.repo)
    && project.repoSubdir != "" && project.composeFiles != [] && project.targets != []
    && (forall name :: name in project.targets ==> Named(c.hosts, HostName, name))
    && (forall pattern :: pattern in project.watchPaths ==> WatchPathSound(pattern, badPattern))
    && (forall name :: name in project.persistFiles ==> PersistFileSound(name))
  }

  ghost predicate Sound(c: Config, badPattern: string -> bool) {
    && c.hosts != [] && c.repos != []
    && Unique(c.hosts, HostName) && Unique(c.repos, RepoName) && Unique(c.projects, ProjectName)
    && (forall host :: host in c.hosts ==> HostSound(host))
    && (forall repo :: repo in c.repos ==> RepoSound(repo))
    && (forall project :: project in c.projects ==> ProjectSound(c, project, badPattern))
  }

  lemma HostAndRepoSound(c: Config, badPattern: string -> bool)
    requires Valid(c, badPattern)
    ensures forall host :: host in c.hosts ==> HostSound(host)
    ensures forall repo :: repo in c.repos ==> RepoSound(repo)
  {
    forall i | 0 <= i < |c.hosts|
      ensures HostSound(c.hosts[i])
    {
      assert !Has(c, HostIssue(i, NameMissing), badPattern) && !Has(c, HostIssue(i, AddressMissing), badPattern);
      assert !Has(c, HostIssue(i, DeployDirMissing), badPattern) && !Has(c, HostIssue(i, PortOutOfRange), badPattern);
    }
    forall i | 0 <= i < |c.repos|
      ensures RepoSound(c.repos[i])
    {
      assert !Has(c, RepoIssue(i, RepoNameMissing), badPattern) && !Has(c, RepoIssue(i, UrlMissing), badPattern);
      assert !Has(c, RepoIssue(i, BranchMissing), badPattern) && !Has(c, RepoIssue(i, UnknownTriggerMode), badPattern);
    }
  }

  lemma WatchPathSame(pattern: string, badPattern: string -> bool)
    ensures WatchPathOk(pattern, badPattern) <==> WatchPathSound(pattern, badPattern)
  {
    var parts := Split(pattern, '/');
    if WatchPathSound(pattern, badPattern) {
      forall k | 0 <= k < |parts|
        ensures parts[k] == "**" || !badPattern(parts[k])
      {
        assert parts[k] in parts;
      }
    }
  }

  lemma ProjectIsSound(c: Config, i: nat, badPattern: string -> bool)
    requires Valid(c, badPattern) && i < |c.projects|
    ensures ProjectSound(c, c.projects[i], badPattern)
  {
    var project := c.projects[i];
    ValidMeans(c, badPattern);
    assert !Has(c, ProjectIssue(i, RepoSubdirMissing), badPattern);
    assert !Has(c, ProjectIssue(i, ComposeFilesMissing), badPattern);
    forall j | 0 <= j < |project.watchPaths|
      ensures WatchPathSound(project.watchPaths[j], badPattern)
    {
      assert !Has(c, ProjectIssue(i, BadWatchPath(j)), badPattern);
      WatchPathSame(project.watchPaths[j], badPattern);
    }
    forall j | 0 <= j < |project.persistFiles|
      ensures PersistFileSound(project.persistFiles[j])
    {
      assert !Has(c, ProjectIssue(i, BadPersistFile(j)), badPattern);
    }
  }

  lemma SoundProjectHasNothing(c: Config, i: nat, f: ProjectFault, badPattern: string -> bool)
    requires Sound(c, badPattern) && i < |c.projects|
    ensures !ProjectHas(c, i, f, badPattern)
  {
    var project := c.projects[i];
    assert project in c.projects;
    match f
    case RepoMissing =>
      var r :| 0 <= r < |c.repos| && c.repos[r].name == project.repo;
      assert c.repos[r] in c.repos;
    case BadWatchPath(j) =>
      if j < |project.watchPaths| {
        assert project.watchPaths[j] in project.watchPaths;
        WatchPathSame(project.watchPaths[j], badPattern);
      }
    case BadPersistFile(j) =>
      if j < |project.persistFiles| {
        assert project.persistFiles[j] in project.persistFiles;
      }
    case TargetUnknown(j) =>
      if j < |project.targets| {
        assert project.targets[j] in project.targets;
        var h :| 0 <= h < |c.hosts| && c.hosts[h].name == project.targets[j];
        assert c.hosts[h] in c.hosts;
      }
    case _ =>
  }

  /** A config has no blocking issue exactly if it is sound, field by field. */
  lemma ValidExactly(c: Config, badPattern: string -> bool)
    ensures Valid(c, badPattern) <==> Sound(c, badPattern)
  {
    if Valid(c, badPattern) {
      assert !Has(c, NoHosts, badPattern) && !Has(c, NoRepos, badPattern);
      ValidMeans(c, badPattern);
      HostAndRepoSound(c, badPattern);
      forall i | 0 <= i < |c.projects|
        ensures ProjectSound(c, c.projects[i], badPattern)
      {
        ProjectIsSound(c, i, badPattern);
      }
    }
    if Sound(c, badPattern) {
      forall issue: Issue | Blocking(issue)
        ensures !Has(c, issue, badPattern)
      {
        SoundHasOnlyWarnings(c, issue, badPattern);
      }
    }
  }

  lemma SoundHasOnlyWarnings(c: Config, issue: Issue, badPattern: string -> bool)
    requires Sound(c, badPattern) && Blocking(issue)
    ensures !Has(c, issue, badPattern)
  {
    match issue
    case HostIssue(i, _) =>
      if i < |c.hosts| {
        assert c.hosts[i] in c.hosts;
      }
    case RepoIssue(i, _) =>
      if i < |c.repos| {
        assert c.repos[i] in c.repos;
      }
    case ProjectIssue(i, f) =>
      if i < |c.projects| {
        SoundProjectHasNothing(c, i, f, badPattern);
      }
    case _ =>
  }

  /** With unique names the first match of a scan and the entry of the index are the same. */
  lemma FirstIsLast<T>(items: seq<T>, nameOf: T -> string, i: int, name: string)
    requires Unique(items, nameOf) && FirstNamed(items, nameOf, i, name)
    ensures name in IndexOf(items, nameOf) && IndexOf(items, nameOf)[name] == items[i]
  {
    IndexLastWins(items, nameOf, name);
    assert LastNamed(items, nameOf, i, name);
  }
}
