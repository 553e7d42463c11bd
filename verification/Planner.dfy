/** From a config and an event to deploy targets (internal/planner/planner.go), and the scans that
    tell a running job whether its target is still wanted (internal/engine/desired.go). */
module Planner {
  import opened Base
  import opened DeployConfig
  import opened Glob

  datatype Target = Target(project: Project, host: Host, repo: Repo)

  /** `changedFiles` is None when the diff is unknown. */
  datatype Event = Event(repoName: string, changedFiles: Option<seq<string>>, forced: seq<Target>)

  // ---- Specification functions ----

  /** The targets of one project: an entry per listed host that exists. */
  function ProjectTargets(project: Project, repo: Repo, hosts: map<string, Host>, names: seq<string>): seq<Target> {
    if names == [] then []
    else
      var n := |names| - 1;
      ProjectTargets(project, repo, hosts, names[..n])
      + (if names[n] in hosts then [Target(project, hosts[names[n]], repo)] else [])
  }

  function OneProject(c: Config, project: Project): seq<Target> {
    var repos := IndexOf(c.repos, RepoName);
    if project.repo !in repos then []
    else ProjectTargets(project, repos[project.repo], IndexOf(c.hosts, HostName), project.targets)
  }

  function TargetsUpTo(c: Config, n: nat): seq<Target>
    requires n <= |c.projects|
  {
    if n == 0 then [] else TargetsUpTo(c, n - 1) + OneProject(c, c.projects[n - 1])
  }

  function AllTargetsOf(c: Config): seq<Target> {
    TargetsUpTo(c, |c.projects|)
  }

  function OfRepo(targets: seq<Target>, repoName: string): seq<Target> {
    if targets == [] then []
    else
      var n := |targets| - 1;
      OfRepo(targets[..n], repoName) + (if targets[n].repo.name == repoName then [targets[n]] else [])
  }

  function EffectiveWatchPaths(project: Project): seq<string> {
    if project.watchPaths == [] && project.repoSubdir != "" then [project.repoSubdir + "/**"] else project.watchPaths
  }

  /** Some changed file matches some watch path; without watch paths, or not knowing, yes. */
  ghost predicate Touched(watchPaths: seq<string>, changedFiles: Option<seq<string>>, seg: SegmentMatcher) {
    || watchPaths == []
    || changedFiles.None?
    || exists f, p :: f in changedFiles.value && p in watchPaths && PathMatches(p, f, seg)
  }

  ghost function PlannedProject(c: Config, e: Event, project: Project, seg: SegmentMatcher): seq<Target> {
    if project.repo == e.repoName && Touched(EffectiveWatchPaths(project), e.changedFiles, seg)
    then OneProject(c, project) else []
  }

  ghost function PlanUpTo(c: Config, e: Event, n: nat, seg: SegmentMatcher): seq<Target>
    requires n <= |c.projects|
  {
    if n == 0 then [] else PlanUpTo(c, e, n - 1, seg) + PlannedProject(c, e, c.projects[n - 1], seg)
  }

  ghost function PlanOf(c: Config, e: Event, seg: SegmentMatcher): seq<Target> {
    if e.forced != [] then e.forced else PlanUpTo(c, e, |c.projects|, seg)
  }

  // ---- The source's loops ----

  method FilesMatchProject(watchPaths: seq<string>, changedFiles: Option<seq<string>>, seg: SegmentMatcher)
    returns (touched: bool)
    ensures touched <==> Touched(watchPaths, changedFiles, seg)
  {
    if |watchPaths| == 0 || changedFiles.None? {
      return true;
    }
    var files := changedFiles.value;
    for i := 0 to |files|
      invariant forall f, p :: f in files[..i] && p in watchPaths ==> !PathMatches(p, f, seg)
    {
      for j := 0 to |watchPaths|
        invariant forall p :: p in watchPaths[..j] ==> !PathMatches(p, files[i], seg)
      {
        var matched := MatchPath(watchPaths[j], files[i], seg);
        if matched {
          return true;
        }
      }
      assert watchPaths[..|watchPaths|] == watchPaths;
    }
    assert files[..|files|] == files;
    return false;
  }

  method ProjectMatchesChangedFiles(project: Project, changedFiles: Option<seq<string>>, seg: SegmentMatcher)
    returns (touched: bool)
    ensures touched <==> Touched(EffectiveWatchPaths(project), changedFiles, seg)
  {
    var watchPaths := project.watchPaths;
    if |watchPaths| == 0 && project.repoSubdir != "" {
      watchPaths := [project.repoSubdir + "/**"];
    }
    touched := FilesMatchProject(watchPaths, changedFiles, seg);
  }

  method AppendTargets(project: Project, repos: map<string, Repo>, hosts: map<string, Host>)
    returns (targets: seq<Target>)
    ensures targets == if project.repo !in repos then []
                       else ProjectTargets(project, repos[project.repo], hosts, project.targets)
  {
    targets := [];
    if project.repo !in repos {
      return;
    }
    var repo := repos[project.repo];
    var names := project.targets;
    for i := 0 to |names|
      invariant targets == ProjectTargets(project, repo, hosts, names[..i])
    {
      assert names[..i + 1][..i] == names[..i];
      if names[i] in hosts {
        targets := targets + [Target(project, hosts[names[i]], repo)];
      }
    }
    assert names[..|names|] == names;
  }

  method AllTargets(c: Config) returns (targets: seq<Target>)
    ensures targets == AllTargetsOf(c)
  {
    var repos := BuildIndex(c.repos, RepoName);
    var hosts := BuildIndex(c.hosts, HostName);
    targets := [];
    for i := 0 to |c.projects|
      invariant targets == TargetsUpTo(c, i)
    {
      var found := AppendTargets(c.projects[i], repos, hosts);
      targets := targets + found;
    }
  }

  method TargetsForRepo(c: Config, repoName: string) returns (targets: seq<Target>)
    ensures targets == OfRepo(AllTargetsOf(c), repoName)
  {
    var all := AllTargets(c);
    targets := [];
    for i := 0 to |all|
      invariant targets == OfRepo(all[..i], repoName)
    {
      assert all[..i + 1][..i] == all[..i];
      if all[i].repo.name == repoName {
        targets := targets + [all[i]];
      }
    }
    assert all[..|all|] == all;
  }

  method Plan(c: Config, e: Event, seg: SegmentMatcher) returns (targets: seq<Target>)
    ensures targets == PlanOf(c, e, seg)
  {
    if |e.forced| > 0 {
      return e.forced;
    }
    var repos := BuildIndex(c.repos, RepoName);
    var hosts := BuildIndex(c.hosts, HostName);
    targets := [];
    for i := 0 to |c.projects|
      invariant targets == PlanUpTo(c, e, i, seg)
    {
      var project := c.projects[i];
      if project.repo == e.repoName {
        var touched := ProjectMatchesChangedFiles(project, e.changedFiles, seg);
        if touched {
          var found := AppendTargets(project, repos, hosts);
          targets := targets + found;
        }
      }
    }
  }

  // ---- What AllTargets lists ----

  lemma {:induction false} InProjectTargets(project: Project, repo: Repo, hosts: map<string, Host>, names: seq<string>,
                                            t: Target)
    ensures t in ProjectTargets(project, repo, hosts, names) <==>
            t.project == project && t.repo == repo && exists j ::
              0 <= j < |names| && names[j] in hosts && hosts[names[j]] == t.host
    decreases |names|
  {
    if names != [] {
      var n := |names| - 1;
      InProjectTargets(project, repo, hosts, names[..n], t);
      assert forall j :: 0 <= j < n ==> names[..n][j] == names[j];
    }
  }

  ghost predicate Listed(c: Config, i: int, t: Target)
  {
    0 <= i < |c.projects| && t in OneProject(c, c.projects[i])
  }

  lemma {:induction false} InTargetsUpTo(c: Config, n: nat, t: Target)
    requires n <= |c.projects|
    ensures t in TargetsUpTo(c, n) <==> exists i :: i < n && Listed(c, i, t)
  {
    if n > 0 {
      InTargetsUpTo(c, n - 1, t);
      if t in TargetsUpTo(c, n) {
        if t in TargetsUpTo(c, n - 1) {
          var i :| i < n - 1 && Listed(c, i, t);
        } else {
          assert Listed(c, n - 1, t);
        }
      }
    }
  }

  lemma IndexedIsNamed<T>(items: seq<T>, nameOf: T -> string, name: string)
    requires name in IndexOf(items, nameOf)
    ensures IndexOf(items, nameOf)[name] in items && nameOf(IndexOf(items, nameOf)[name]) == name
    decreases |items|
  {
    var n := |items| - 1;
    if nameOf(items[n]) != name {
      IndexedIsNamed(items[..n], nameOf, name);
    }
  }

  /** For a valid config AllTargets skips nothing: every (project, listed host) is there, with its
      own project, host and repo, and nothing else is. */
  lemma AllTargetsComplete(c: Config, badPattern: string -> bool, t: Target)
    requires Valid(c, badPattern)
    ensures t in AllTargetsOf(c) <==>
            t.project in c.projects && t.host in c.hosts && t.repo in c.repos
            && t.host.name in t.project.targets && t.repo.name == t.project.repo
  {
    ValidMeans(c, badPattern);
    InTargetsUpTo(c, |c.projects|, t);
    var repos, hosts := IndexOf(c.repos, RepoName), IndexOf(c.hosts, HostName);
    if t in AllTargetsOf(c) {
      var i :| i < |c.projects| && Listed(c, i, t);
      InProjectTargets(c.projects[i], repos[c.projects[i].repo], hosts, c.projects[i].targets, t);
      var j :| 0 <= j < |c.projects[i].targets| && c.projects[i].targets[j] in hosts
        && hosts[c.projects[i].targets[j]] == t.host;
      IndexedIsNamed(c.hosts, HostName, c.projects[i].targets[j]);
      IndexedIsNamed(c.repos, RepoName, c.projects[i].repo);
    }
    if t.project in c.projects && t.host in c.hosts && t.repo in c.repos
       && t.host.name in t.project.targets && t.repo.name == t.project.repo {
      var i :| 0 <= i < |c.projects| && c.projects[i] == t.project;
      EntryIsIndexed(c.repos, RepoName, t.repo);
      EntryIsIndexed(c.hosts, HostName, t.host);
      InProjectTargets(t.project, t.repo, hosts, t.project.targets, t);
      assert Listed(c, i, t);
    }
  }

  lemma EntryIsIndexed<T>(items: seq<T>, nameOf: T -> string, item: T)
    requires Unique(items, nameOf) && item in items
    ensures nameOf(item) in IndexOf(items, nameOf) && IndexOf(items, nameOf)[nameOf(item)] == item
  {
    var i :| 0 <= i < |items| && items[i] == item;
    FirstIsLast(items, nameOf, i, nameOf(item));
  }

  // ---- First-match scans ----

  function FindFirst<T>(items: seq<T>, nameOf: T -> string, name: string): Option<T> {
    if items == [] then None
    else if nameOf(items[0]) == name then Some(items[0])
    else FindFirst(items[1..], nameOf, name)
  }

  lemma {:induction false} FindFirstFinds<T>(items: seq<T>, nameOf: T -> string, name: string)
    ensures FindFirst(items, nameOf, name).None? <==> !Named(items, nameOf, name)
    ensures FindFirst(items, nameOf, name).Some? ==>
      exists i :: FirstNamed(items, nameOf, i, name) && items[i] == FindFirst(items, nameOf, name).value
  {
    if items != [] {
      if nameOf(items[0]) == name {
        assert FirstNamed(items, nameOf, 0, name);
      } else {
        var rest := items[1..];
        FindFirstFinds(rest, nameOf, name);
        assert forall i :: 0 <= i < |rest| ==> rest[i] == items[i + 1];
        assert Named(rest, nameOf, name) ==> Named(items, nameOf, name);
        if FindFirst(rest, nameOf, name).Some? {
          var i :| FirstNamed(rest, nameOf, i, name) && rest[i] == FindFirst(rest, nameOf, name).value;
          assert forall j :: 0 <= j < i + 1 ==> nameOf(items[j]) != name by {
            assert forall j :: 0 <= j < i ==> nameOf(rest[j]) != name;
            assert forall j :: 1 <= j < i + 1 ==> items[j] == rest[j - 1];
          }
          assert FirstNamed(items, nameOf, i + 1, name);
        }
      }
    }
  }

  /** On unique names the first match and the index entry agree. */
  lemma FindFirstIsIndex<T>(items: seq<T>, nameOf: T -> string, name: string)
    requires Unique(items, nameOf)
    ensures FindFirst(items, nameOf, name)
         == if name in IndexOf(items, nameOf) then Some(IndexOf(items, nameOf)[name]) else None
  {
    FindFirstFinds(items, nameOf, name);
    IndexLastWins(items, nameOf, name);
    if FindFirst(items, nameOf, name).Some? {
      var i :| FirstNamed(items, nameOf, i, name) && items[i] == FindFirst(items, nameOf, name).value;
      FirstIsLast(items, nameOf, i, name);
    }
  }

  method Scan<T>(items: seq<T>, nameOf: T -> string, name: string) returns (found: Option<T>)
    ensures found == FindFirst(items, nameOf, name)
  {
    for i := 0 to |items|
      invariant FindFirst(items, nameOf, name) == FindFirst(items[i..], nameOf, name)
    {
      if nameOf(items[i]) == name {
        return Some(items[i]);
      }
      assert items[i..][1..] == items[i + 1..];
    }
    return None;
  }

  type PathJoin = (string, string) -> string

  function DesiredDir(c: Option<Config>, project: string, host: string, join: PathJoin): Option<string> {
    if c.None? then None
    else
      match FindFirst(c.value.projects, ProjectName, project)
      case None => None
      case Some(p) =>
        if host !in p.targets then None
        else
          match FindFirst(c.value.hosts, HostName, host)
          case None => None
          case Some(h) => Some(join(h.deployDir, p.deploySubdir))
  }

  method DesiredRemoteDir(c: Option<Config>, project: string, host: string, join: PathJoin)
    returns (dir: Option<string>)
    ensures dir == DesiredDir(c, project, host, join)
  {
    if c.None? {
      return None;
    }
    var proj := Scan(c.value.projects, ProjectName, project);
    if proj.None? || host !in proj.value.targets {
      return None;
    }
    var found := Scan(c.value.hosts, HostName, host);
    if found.None? {
      return None;
    }
    return Some(join(found.value.deployDir, proj.value.deploySubdir));
  }

  method TargetDesired(c: Option<Config>, project: string, host: string, join: PathJoin) returns (desired: bool)
    ensures desired == DesiredDir(c, project, host, join).Some?
  {
    var dir := DesiredRemoteDir(c, project, host, join);
    desired := dir.Some?;
  }

  /** For a valid config a pair is desired exactly when AllTargets lists it, in that target's directory. */
  lemma DesiredIsListed(c: Config, badPattern: string -> bool, join: PathJoin, project: string, host: string,
                        dir: string)
    requires Valid(c, badPattern)
    ensures DesiredDir(Some(c), project, host, join) == Some(dir) <==>
      exists t :: t in AllTargetsOf(c) && t.project.name == project && t.host.name == host
        && dir == join(t.host.deployDir, t.project.deploySubdir)
  {
    ValidMeans(c, badPattern);
    FindFirstIsIndex(c.projects, ProjectName, project);
    FindFirstIsIndex(c.hosts, HostName, host);
    if DesiredDir(Some(c), project, host, join) == Some(dir) {
      var p := FindFirst(c.projects, ProjectName, project).value;
      var h := FindFirst(c.hosts, HostName, host).value;
      IndexedIsNamed(c.projects, ProjectName, project);
      IndexedIsNamed(c.hosts, HostName, host);
      var i :| 0 <= i < |c.projects| && c.projects[i] == p;
      IndexLastWins(c.repos, RepoName, p.repo);
      IndexedIsNamed(c.repos, RepoName, p.repo);
      var t := Target(p, h, IndexOf(c.repos, RepoName)[p.repo]);
      AllTargetsComplete(c, badPattern, t);
    }
    if t :|
      && t in AllTargetsOf(c) && t.project.name == project && t.host.name == host
      && dir == join(t.host.deployDir, t.project.deploySubdir)
    {
      AllTargetsComplete(c, badPattern, t);
      EntryIsIndexed(c.projects, ProjectName, t.project);
      EntryIsIndexed(c.hosts, HostName, t.host);
    }
  }

  /** The targets of a config with one project on one host. */
  lemma OnlyTarget(c: Config, t: Target)
    requires |c.hosts| == |c.repos| == |c.projects| == 1
    requires c.projects[0].repo == c.repos[0].name && c.projects[0].targets == [c.hosts[0].name]
    ensures t in AllTargetsOf(c) <==> t == Target(c.projects[0], c.hosts[0], c.repos[0])
  {
    var project := c.projects[0];
    IndexOfOne(c.hosts, HostName);
    IndexOfOne(c.repos, RepoName);
    InTargetsUpTo(c, 1, t);
    InProjectTargets(project, c.repos[0], IndexOf(c.hosts, HostName), project.targets, t);
    assert project.targets[0] == c.hosts[0].name;
    assert Listed(c, 0, t) <==> t in OneProject(c, project);
  }

  lemma IndexOfOne<T>(items: seq<T>, nameOf: T -> string)
    requires |items| == 1
    ensures IndexOf(items, nameOf) == map[nameOf(items[0]) := items[0]]
  {
    assert items[..0] == [];
  }

  /** A project without a name makes a config invalid, but one that is in use all the same, as after a
      start from a local file, plans and wants its deploys. */
  lemma UnnamedIsPlanned(c: Config, badPattern: string -> bool, join: PathJoin)
    requires |c.hosts| == |c.repos| == |c.projects| == 1 && c.projects[0].name == ""
    requires c.projects[0].repo == c.repos[0].name && c.projects[0].targets == [c.hosts[0].name]
    ensures !Valid(c, badPattern)
    ensures Target(c.projects[0], c.hosts[0], c.repos[0]) in AllTargetsOf(c)
    ensures DesiredDir(Some(c), "", c.hosts[0].name, join).Some?
  {
    OnlyTarget(c, Target(c.projects[0], c.hosts[0], c.repos[0]));
    assert Has(c, ProjectIssue(0, ProjectNameMissing), badPattern);
    assert FindFirst(c.projects, ProjectName, "") == Some(c.projects[0]);
    assert FindFirst(c.hosts, HostName, c.hosts[0].name) == Some(c.hosts[0]);
  }

  // ---- Plan ----

  lemma {:induction false} OfRepoConcat(a: seq<Target>, b: seq<Target>, repoName: string)
    ensures OfRepo(a + b, repoName) == OfRepo(a, repoName) + OfRepo(b, repoName)
    decreases |b|
  {
    if b == [] {
      assert a + b == a;
    } else {
      var n := |b| - 1;
      assert (a + b)[..|a + b| - 1] == a + b[..n];
      OfRepoConcat(a, b[..n], repoName);
    }
  }

  lemma {:induction false} OfRepoProject(project: Project, repo: Repo, hosts: map<string, Host>, names: seq<string>,
                                         repoName: string)
    ensures OfRepo(ProjectTargets(project, repo, hosts, names), repoName)
         == if repo.name == repoName then ProjectTargets(project, repo, hosts, names) else []
    decreases |names|
  {
    if names != [] {
      var n := |names| - 1;
      OfRepoProject(project, repo, hosts, names[..n], repoName);
      var tail := if names[n] in hosts then [Target(project, hosts[names[n]], repo)] else [];
      OfRepoConcat(ProjectTargets(project, repo, hosts, names[..n]), tail, repoName);
      assert tail != [] ==> tail[..0] == [];
    }
  }

  /** An unknown diff touches every project. */
  lemma UnknownDiffProject(c: Config, e: Event, project: Project, seg: SegmentMatcher)
    requires e.changedFiles.None?
    ensures PlannedProject(c, e, project, seg) == OfRepo(OneProject(c, project), e.repoName)
  {
    var repos := IndexOf(c.repos, RepoName);
    if project.repo in repos {
      IndexedIsNamed(c.repos, RepoName, project.repo);
      OfRepoProject(project, repos[project.repo], IndexOf(c.hosts, HostName), project.targets, e.repoName);
    }
  }

  lemma {:induction false} UnknownDiffUpTo(c: Config, e: Event, n: nat, seg: SegmentMatcher)
    requires n <= |c.projects| && e.changedFiles.None?
    ensures PlanUpTo(c, e, n, seg) == OfRepo(TargetsUpTo(c, n), e.repoName)
  {
    if n > 0 {
      UnknownDiffUpTo(c, e, n - 1, seg);
      var before, project := TargetsUpTo(c, n - 1), c.projects[n - 1];
      OfRepoConcat(before, OneProject(c, project), e.repoName);
      UnknownDiffProject(c, e, project, seg);
      assert TargetsUpTo(c, n) == before + OneProject(c, project);
      assert PlanUpTo(c, e, n, seg) == PlanUpTo(c, e, n - 1, seg) + PlannedProject(c, e, project, seg);
    }
  }

  /** Not knowing the diff, Plan takes every target of the repo, for any config. */
  lemma UnknownDiffPlansAll(c: Config, e: Event, seg: SegmentMatcher)
    requires e.changedFiles.None? && e.forced == []
    ensures PlanOf(c, e, seg) == OfRepo(AllTargetsOf(c), e.repoName)
  {
    UnknownDiffUpTo(c, e, |c.projects|, seg);
  }

  /** What Plan chooses: every target of the repo whose project is touched, and no other. */
  lemma {:induction false} InPlanUpTo(c: Config, e: Event, n: nat, seg: SegmentMatcher, t: Target)
    requires n <= |c.projects|
    ensures t in PlanUpTo(c, e, n, seg) <==>
      exists i :: i < n && Listed(c, i, t) && c.projects[i].repo == e.repoName
        && Touched(EffectiveWatchPaths(c.projects[i]), e.changedFiles, seg)
  {
    if n > 0 {
      InPlanUpTo(c, e, n - 1, seg, t);
      if t in PlanUpTo(c, e, n, seg) && t !in PlanUpTo(c, e, n - 1, seg) {
        assert Listed(c, n - 1, t);
      }
    }
  }

  // ---- Which files concern a project ----

  /** With watch paths the file matches one of them; without, it is below the project's directory in the
      repo, at whatever depth; and a project of the whole repo is concerned by every file. */
  ghost predicate Concerns(project: Project, file: string, seg: SegmentMatcher) {
    if project.watchPaths != [] then exists p :: p in project.watchPaths && PathMatches(p, file, seg)
    else if project.repoSubdir != "" then LeadMatches(Split(project.repoSubdir, '/'), Split(file, '/'), seg)
    else true
  }

  lemma DirectoryPattern(dir: string, file: string, seg: SegmentMatcher)
    ensures PathMatches(dir + "/**", file, seg) <==> LeadMatches(Split(dir, '/'), Split(file, '/'), seg)
  {
    SplitConcat(dir, "**", '/');
    SplitWhole("**", '/');
    assert dir + "/**" == dir + ['/'] + "**";
    TrailingStar(Split(dir, '/'), Split(file, '/'), seg);
  }

  /** Every file below the directory of a project without watch paths concerns it, at any depth. */
  lemma FilesBelowConcern(project: Project, rest: string, seg: SegmentMatcher)
    requires project.watchPaths == [] && project.repoSubdir != ""
    requires forall x :: x in Split(project.repoSubdir, '/') ==> seg(x, x) == Some(true)
    ensures Concerns(project, project.repoSubdir + "/" + rest, seg)
  {
    var dir := Split(project.repoSubdir, '/');
    SplitConcat(project.repoSubdir, rest, '/');
    MatchesItself(dir, seg);
    assert (dir + Split(rest, '/'))[..|dir|] == dir;
  }

  /** And no other, if its directory has no "**": the file's first segments are those of the directory, as
      the segment matcher sees it. */
  lemma OnlyFilesBelowConcern(project: Project, file: string, seg: SegmentMatcher)
    requires project.watchPaths == [] && project.repoSubdir != "" && "**" !in Split(project.repoSubdir, '/')
    ensures var dir, path := Split(project.repoSubdir, '/'), Split(file, '/');
      Concerns(project, file, seg) <==>
        |dir| <= |path| && forall i :: 0 <= i < |dir| ==> seg(dir[i], path[i]) == Some(true)
  {
    var dir, path := Split(project.repoSubdir, '/'), Split(file, '/');
    if k :| 0 <= k <= |path| && Matches(dir, path[..k], seg) {
      PlainMatches(dir, path[..k], seg);
    }
    if |dir| <= |path| {
      PlainMatches(dir, path[..|dir|], seg);
    }
  }

  /** Without a diff, and for a project of the whole repo, there is nothing to ask; else some changed file
      has to concern the project. */
  ghost predicate Chosen(project: Project, changedFiles: Option<seq<string>>, seg: SegmentMatcher) {
    || changedFiles.None?
    || (project.watchPaths == [] && project.repoSubdir == "")
    || exists f :: f in changedFiles.value && Concerns(project, f, seg)
  }

  lemma TouchedMeansChosen(project: Project, changedFiles: Option<seq<string>>, seg: SegmentMatcher)
    ensures Touched(EffectiveWatchPaths(project), changedFiles, seg) <==> Chosen(project, changedFiles, seg)
  {
    var pattern := project.repoSubdir + "/**";
    if project.watchPaths == [] && project.repoSubdir != "" && changedFiles.Some? {
      forall f | f in changedFiles.value
        ensures PathMatches(pattern, f, seg) <==> Concerns(project, f, seg)
      {
        DirectoryPattern(project.repoSubdir, f, seg);
      }
      assert pattern in [pattern];
    }
  }

  /** What is planned for an event: its forced targets if it has any, else the targets of the projects of
      its repo that are chosen. */
  lemma PlanMeans(c: Config, e: Event, seg: SegmentMatcher, t: Target)
    ensures t in PlanOf(c, e, seg) <==>
      if e.forced != [] then t in e.forced
      else exists i :: Listed(c, i, t) && c.projects[i].repo == e.repoName && Chosen(c.projects[i], e.changedFiles, seg)
  {
    InPlanUpTo(c, e, |c.projects|, seg, t);
    forall i | Listed(c, i, t)
      ensures Touched(EffectiveWatchPaths(c.projects[i]), e.changedFiles, seg)
         <==> Chosen(c.projects[i], e.changedFiles, seg)
    {
      TouchedMeansChosen(c.projects[i], e.changedFiles, seg);
    }
  }

  /** Plan only grows with the changed files, and an unknown diff gives the most. */
  lemma PlanMonotone(c: Config, small: Event, large: Event, seg: SegmentMatcher, t: Target)
    requires small.repoName == large.repoName && small.forced == large.forced
    requires large.changedFiles.Some? ==>
      small.changedFiles.Some? && forall f :: f in small.changedFiles.value ==> f in large.changedFiles.value
    requires t in PlanOf(c, small, seg)
    ensures t in PlanOf(c, large, seg)
  {
    InPlanUpTo(c, small, |c.projects|, seg, t);
    InPlanUpTo(c, large, |c.projects|, seg, t);
  }
}
