/** The jobs handed to the runner: a deploy of one commit to one (project, host) pair, or the
    teardown of one. `work` stands for the DeployFunc closure. */
module Jobs {
  datatype Work =
    | Deploy(sha: string, redeploy: bool)
    | Teardown(dir: string, removeState: bool)

  datatype Job = Job(id: string, project: string, host: string, work: Work)

  /** The key under which the runner serialises jobs: project and host joined by a NUL. */
  function LockKey(job: Job): string {
    job.project + ['\0'] + job.host
  }

  predicate SamePair(a: Job, b: Job) {
    a.project == b.project && a.host == b.host
  }

  ghost predicate NulFree(s: string) {
    forall i :: 0 <= i < |s| ==> s[i] != '\0'
  }

  lemma LockKeySplits(p1: string, h1: string, p2: string, h2: string)
    requires p1 + ['\0'] + h1 == p2 + ['\0'] + h2 && NulFree(p1) && NulFree(p2)
    ensures p1 == p2 && h1 == h2
  {
    var k1, k2 := p1 + ['\0'] + h1, p2 + ['\0'] + h2;
    assert k1[|p1|] == '\0' && k2[|p2|] == '\0';
    assert forall i :: 0 <= i < |p2| ==> k2[i] == p2[i];
    assert forall i :: 0 <= i < |p1| ==> k1[i] == p1[i];
    assert p1 == k1[..|p1|] && p2 == k2[..|p2|];
    assert h1 == k1[|p1| + 1..] && h2 == k2[|p2| + 1..];
  }

  /** For project names without NUL, two jobs share a lock exactly when they name the same pair. */
  lemma LockKeyIsPair(a: Job, b: Job)
    requires NulFree(a.project) && NulFree(b.project)
    ensures LockKey(a) == LockKey(b) <==> SamePair(a, b)
  {
    if LockKey(a) == LockKey(b) {
      LockKeySplits(a.project, a.host, b.project, b.host);
    }
  }
}
