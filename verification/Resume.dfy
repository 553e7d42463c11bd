/** Which targets still have to be deployed to reach a commit (internal/engine/resume.go). */
module Resume {
  import opened Base
  import opened DeployConfig
  import opened Glob
  import opened Planner
  import opened DeploymentStore

  type Tree = map<string, string>

  /** A local mirror: the commits it holds, what diffing two of them answers (None is an error), and
      what it says about ancestry. */
  datatype Mirror = Mirror(
    commits: map<string, Tree>,
    diff: (string, string) -> Option<seq<string>>,
    isAncestor: (string, string) -> bool)

  predicate SameFile(a: Tree, b: Tree, file: string) {
    (file in a <==> file in b) && (file in a ==> a[file] == b[file])
  }

  /** A successful diff of two commits lists exactly the files that differ. */
  ghost predicate Faithful(m: Mirror) {
    forall a, b :: a in m.commits && b in m.commits && m.diff(a, b).Some? ==>
      forall file :: file in m.diff(a, b).value <==> !SameFile(m.commits[a], m.commits[b], file)
  }

  ghost predicate Untouched(f: Files, mirror: Option<Mirror>, t: Target, head: string, seg: SegmentMatcher) {
    && mirror.Some?
    && var latest := LookupLatest(f, t.project.name, t.host.name);
    && latest.Found? && latest.record.status == StatusSuccess
    && var base := latest.record.commitSha;
    && base != "" && base != head
    && base in mirror.value.commits && head in mirror.value.commits
    && var files := mirror.value.diff(base, head);
    && files.Some? && (files.value == [] || !Touched(EffectiveWatchPaths(t.project), files, seg))
  }

  method TargetUntouchedSinceLastDeploy(f: Files, mirror: Option<Mirror>, t: Target, head: string, seg: SegmentMatcher)
    returns (untouched: bool)
    ensures untouched <==> Untouched(f, mirror, t, head, seg)
  {
    if mirror.None? {
      return false;
    }
    var latest := LookupLatest(f, t.project.name, t.host.name);
    if !latest.Found? || latest.record.status != StatusSuccess {
      return false;
    }
    var base := latest.record.commitSha;
    if base == "" || base == head {
      return false;
    }
    if base !in mirror.value.commits || head !in mirror.value.commits {
      return false;
    }
    var files := mirror.value.diff(base, head);
    if files.None? {
      return false;
    }
    if |files.value| == 0 {
      return true;
    }
    var touched := ProjectMatchesChangedFiles(t.project, files, seg);
    return !touched;
  }

  ghost predicate IsPending(f: Files, mirror: Option<Mirror>, t: Target, head: string, seg: SegmentMatcher) {
    !ShouldSkip(f, t.project.name, t.host.name, head) && !Untouched(f, mirror, t, head, seg)
  }

  ghost function PendingOf(f: Files, mirror: Option<Mirror>, targets: seq<Target>, head: string,
                           seg: SegmentMatcher): seq<Target> {
    if targets == [] then []
    else
      var n := |targets| - 1;
      PendingOf(f, mirror, targets[..n], head, seg)
        + (if IsPending(f, mirror, targets[n], head, seg) then [targets[n]] else [])
  }

  method PendingTargetsForHead(f: Files, targets: seq<Target>, head: string, mirror: Option<Mirror>,
                               seg: SegmentMatcher)
    returns (pending: seq<Target>)
    ensures pending == PendingOf(f, mirror, targets, head, seg)
  {
    pending := [];
    for i := 0 to |targets|
      invariant pending == PendingOf(f, mirror, targets[..i], head, seg)
    {
      assert targets[..i + 1][..i] == targets[..i];
      var t := targets[i];
      if !ShouldSkip(f, t.project.name, t.host.name, head) {
        var untouched := TargetUntouchedSinceLastDeploy(f, mirror, t, head, seg);
        if !untouched {
          pending := pending + [t];
        }
      }
    }
    assert targets[..|targets|] == targets;
  }

  lemma {:induction false} InPending(f: Files, mirror: Option<Mirror>, targets: seq<Target>, head: string,
                                     seg: SegmentMatcher, t: Target)
    ensures t in PendingOf(f, mirror, targets, head, seg) <==> t in targets && IsPending(f, mirror, t, head, seg)
    decreases |targets|
  {
    if targets != [] {
      var n := |targets| - 1;
      InPending(f, mirror, targets[..n], head, seg, t);
      assert targets == targets[..n] + [targets[n]];
    }
  }

  // ---- What leaving a target out means ----

  /** The project looks at this file. */
  ghost predicate Watches(project: Project, file: string, seg: SegmentMatcher) {
    var paths := EffectiveWatchPaths(project);
    paths == [] || exists p :: p in paths && PathMatches(p, file, seg)
  }

  /** The pair's last success and the head are both known, and agree on every file the project
      watches. */
  ghost predicate UpToDate(f: Files, mirror: Option<Mirror>, t: Target, head: string, seg: SegmentMatcher) {
    && mirror.Some?
    && var latest := LookupLatest(f, t.project.name, t.host.name);
    && latest.Found? && latest.record.status == StatusSuccess
    && var base := latest.record.commitSha;
    && base in mirror.value.commits && head in mirror.value.commits
    && forall file :: Watches(t.project, file, seg) ==>
      SameFile(mirror.value.commits[base], mirror.value.commits[head], file)
  }

  ghost predicate AtHead(f: Files, t: Target, head: string) {
    var latest := LookupLatest(f, t.project.name, t.host.name);
    latest.Found? && latest.record.commitSha == head
      && (latest.record.status == StatusRunning || latest.record.status == StatusSuccess)
  }

  /** The computation never drops work: a target is left out only if it is running or done at the
      head, or nothing it watches differs from its last success. */
  lemma PendingDropsNothing(f: Files, mirror: Option<Mirror>, targets: seq<Target>, head: string, seg: SegmentMatcher,
                            t: Target)
    requires mirror.Some? ==> Faithful(mirror.value)
    requires t in targets && t !in PendingOf(f, mirror, targets, head, seg)
    ensures AtHead(f, t, head) || UpToDate(f, mirror, t, head, seg)
  {
    InPending(f, mirror, targets, head, seg, t);
    if Untouched(f, mirror, t, head, seg) {
      var base := LookupLatest(f, t.project.name, t.host.name).record.commitSha;
      var files := mirror.value.diff(base, head).value;
      forall file | Watches(t.project, file, seg)
        ensures SameFile(mirror.value.commits[base], mirror.value.commits[head], file)
      {
        assert file in files <==> !SameFile(mirror.value.commits[base], mirror.value.commits[head], file);
      }
    }
  }

  /** The files a project watches are those that concern it. */
  lemma WatchesMeans(project: Project, file: string, seg: SegmentMatcher)
    ensures Watches(project, file, seg) <==> Concerns(project, file, seg)
  {
    if project.watchPaths == [] && project.repoSubdir != "" {
      DirectoryPattern(project.repoSubdir, file, seg);
      assert project.repoSubdir + "/**" in EffectiveWatchPaths(project);
    }
  }

  /** And it asks for nothing needlessly: when the diff can be computed, a target whose last success
      agrees with the head on what it watches is left out. */
  lemma UpToDateIsLeftOut(f: Files, mirror: Option<Mirror>, targets: seq<Target>, head: string, seg: SegmentMatcher,
                          t: Target)
    requires mirror.Some? && Faithful(mirror.value) && UpToDate(f, mirror, t, head, seg)
    requires var base := LookupLatest(f, t.project.name, t.host.name).record.commitSha;
             base != "" && (base != head ==> mirror.value.diff(base, head).Some?)
    ensures t !in PendingOf(f, mirror, targets, head, seg)
  {
    InPending(f, mirror, targets, head, seg, t);
    var base := LookupLatest(f, t.project.name, t.host.name).record.commitSha;
    if base != head {
      var files := mirror.value.diff(base, head).value;
      forall file | file in files
        ensures !Watches(t.project, file, seg)
      {
        assert !SameFile(mirror.value.commits[base], mirror.value.commits[head], file);
      }
      if files != [] {
        assert files[0] in files;
      }
    }
  }

  // ---- Resume ----

  /** What resolveMirror and the fetch after it give for a repo: a mirror and a head. */
  datatype Resolved = Resolved(mirror: Option<Mirror>, head: string, ok: bool)

  datatype ResumeEvent = ResumeEvent(repoName: string, sha: string, forced: seq<Target>)

  /** The commit a repo is resumed to: the mirror's head, else the saved cursor. */
  function KnownSha(r: Resolved, cursor: string): string {
    if r.ok && r.head != "" then r.head else cursor
  }

  /** The head decides if the mirror has one, and the cursor otherwise. */
  predicate IsKnown(sha: string, t: Target, resolve: Repo -> Resolved, cursors: (string, string) -> string) {
    var r := resolve(t.repo);
    if r.ok && r.head != "" then sha == r.head else sha == cursors(t.repo.name, t.repo.branch)
  }

  function ShaFor(t: Target, resolve: Repo -> Resolved, cursors: (string, string) -> string): string {
    KnownSha(resolve(t.repo), cursors(t.repo.name, t.repo.branch))
  }

  /** The target's repo has a known commit and the target is behind it. */
  ghost predicate Behind(f: Files, t: Target, resolve: Repo -> Resolved, cursors: (string, string) -> string,
                         seg: SegmentMatcher) {
    var sha := ShaFor(t, resolve, cursors);
    sha != "" && IsPending(f, resolve(t.repo).mirror, t, sha, seg)
  }

  ghost predicate ForcedIn(events: seq<ResumeEvent>, t: Target, sha: string) {
    exists e :: e in events && e.repoName == t.repo.name && e.sha == sha && t in e.forced
  }

  method GroupByRepo(all: seq<Target>) returns (byRepo: map<string, seq<Target>>)
    ensures forall t :: t in all <==> t.repo.name in byRepo && t in byRepo[t.repo.name]
    ensures forall r :: r in byRepo ==> byRepo[r] != [] && forall t :: t in byRepo[r] ==> t.repo.name == r
  {
    byRepo := map[];
    for i := 0 to |all|
      invariant forall t :: t in all[..i] <==> t.repo.name in byRepo && t in byRepo[t.repo.name]
      invariant forall r :: r in byRepo ==> byRepo[r] != [] && forall t :: t in byRepo[r] ==> t.repo.name == r
    {
      var r := all[i].repo.name;
      byRepo := byRepo[r := (if r in byRepo then byRepo[r] else []) + [all[i]]];
      assert all[..i + 1] == all[..i] + [all[i]];
    }
    assert all[..|all|] == all;
  }

  /** The events for one repo: none, or one. */
  method ResumeRepo(f: Files, name: string, targets: seq<Target>, repo: Repo, resolve: Repo -> Resolved,
                    cursors: (string, string) -> string, seg: SegmentMatcher)
    returns (events: seq<ResumeEvent>)
    requires forall t :: t in targets ==> t.repo == repo && repo.name == name
    ensures forall e, t :: e in events && t in e.forced ==>
      t in targets && e.repoName == name && e.sha == ShaFor(t, resolve, cursors) && Behind(f, t, resolve, cursors, seg)
    ensures forall t :: t in targets && Behind(f, t, resolve, cursors, seg) ==>
      ForcedIn(events, t, ShaFor(t, resolve, cursors))
  {
    events := [];
    var r := resolve(repo);
    var sha := KnownSha(r, cursors(name, repo.branch));
    if sha == "" {
      return;
    }
    var pending := PendingTargetsForHead(f, targets, sha, r.mirror, seg);
    forall t
      ensures t in pending <==> t in targets && IsPending(f, r.mirror, t, sha, seg)
    {
      InPending(f, r.mirror, targets, sha, seg, t);
    }
    if |pending| == 0 {
      return;
    }
    events := [ResumeEvent(name, sha, pending)];
    assert events[0] in events;
  }

  /** Exactly the configured targets that are behind the known commit of their repo are forced, each
      in an event of its repo for that commit. */
  method ResumeIncompleteDeploys(c: Config, f: Files, resolve: Repo -> Resolved, cursors: (string, string) -> string,
                                 seg: SegmentMatcher)
    returns (events: seq<ResumeEvent>)
    ensures forall e, t :: e in events && t in e.forced ==>
      t in AllTargetsOf(c) && e.repoName == t.repo.name && e.sha == ShaFor(t, resolve, cursors)
        && Behind(f, t, resolve, cursors, seg)
    ensures forall e, t :: e in events && t in e.forced ==>
      e.sha != "" && IsKnown(e.sha, t, resolve, cursors)
    ensures forall t :: t in AllTargetsOf(c) && Behind(f, t, resolve, cursors, seg) ==>
      ForcedIn(events, t, ShaFor(t, resolve, cursors))
  {
    var all := AllTargets(c);
    var byRepo := GroupByRepo(all);
    SameRepoEntry(c);
    events := [];
    var names := byRepo.Keys;
    while names != {}
      invariant names <= byRepo.Keys
      invariant forall e, t :: e in events && t in e.forced ==>
        t in all && e.repoName == t.repo.name && e.sha == ShaFor(t, resolve, cursors)
          && Behind(f, t, resolve, cursors, seg)
      invariant forall t :: t in all && t.repo.name !in names && Behind(f, t, resolve, cursors, seg)
                  ==> ForcedIn(events, t, ShaFor(t, resolve, cursors))
      decreases |names|
    {
      var name :| name in names;
      var targets := byRepo[name];
      var first := targets[0];
      assert first in targets && first in all;
      var found := ResumeRepo(f, name, targets, first.repo, resolve, cursors, seg);
      forall t, sha | ForcedIn(events, t, sha) || ForcedIn(found, t, sha)
        ensures ForcedIn(events + found, t, sha)
      {
        if ForcedIn(events, t, sha) {
          var e :| e in events && e.repoName == t.repo.name && e.sha == sha && t in e.forced;
          assert e in events + found;
        } else {
          var e :| e in found && e.repoName == t.repo.name && e.sha == sha && t in e.forced;
          assert e in events + found;
        }
      }
      events := events + found;
      names := names - {name};
    }
    forall e, t | e in events && t in e.forced
      ensures e.sha != "" && IsKnown(e.sha, t, resolve, cursors)
    {
      assert e.sha == ShaFor(t, resolve, cursors) && Behind(f, t, resolve, cursors, seg);
    }
  }

  /** Targets with one repo name have one repo: both come from the index. */
  lemma SameRepoEntry(c: Config)
    ensures forall a, b :: a in AllTargetsOf(c) && b in AllTargetsOf(c) && a.repo.name == b.repo.name ==>
      a.repo == b.repo
  {
    forall t | t in AllTargetsOf(c)
      ensures t.repo.name in IndexOf(c.repos, RepoName) && IndexOf(c.repos, RepoName)[t.repo.name] == t.repo
    {
      InTargetsUpTo(c, |c.projects|, t);
      var i :| i < |c.projects| && Listed(c, i, t);
      var p := c.projects[i];
      InProjectTargets(p, IndexOf(c.repos, RepoName)[p.repo], IndexOf(c.hosts, HostName), p.targets, t);
      IndexedIsNamed(c.repos, RepoName, p.repo);
    }
  }
}
