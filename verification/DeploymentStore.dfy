/** The deployment records of internal/state/filestore.go: one run record per deployment ID and an
    index from "host/project" to the latest one. A JSON file write is one map update. */
module DeploymentStore {
  import opened Base

  datatype Status = StatusPending | StatusRunning | StatusSuccess | StatusFailed

  datatype Deployment = Deployment(
    id: string,
    project: string,
    host: string,
    commitSha: string,
    status: Status,
    startedAt: int,
    completedAt: Option<int>,
    error: string)

  function IndexKey(project: string, host: string): string {
    host + "/" + project
  }

  ghost predicate SlashFree(s: string) {
    forall i :: 0 <= i < |s| ==> s[i] != '/'
  }

  /** Distinct pairs have distinct index keys as long as no host name contains a slash. */
  lemma IndexKeySplits(p1: string, h1: string, p2: string, h2: string)
    requires IndexKey(p1, h1) == IndexKey(p2, h2) && SlashFree(h1) && SlashFree(h2)
    ensures p1 == p2 && h1 == h2
  {
    var k1, k2 := IndexKey(p1, h1), IndexKey(p2, h2);
    assert k1[|h1|] == '/' && k2[|h2|] == '/';
    assert forall i :: 0 <= i < |h1| ==> k1[i] == h1[i];
    assert forall i :: 0 <= i < |h2| ==> k2[i] == h2[i];
    assert h1 == k1[..|h1|] && h2 == k2[..|h2|];
    assert p1 == k1[|h1| + 1..] && p2 == k2[|h2| + 1..];
  }

  /** The second host's name goes on below the first one's. */
  predicate Below(h1: string, h2: string) {
    h1 + "/" <= h2
  }

  /** Two different pairs share an index entry exactly when the longer host name goes on below the
      shorter one and the project of the shorter one makes up for the difference. */
  lemma IndexKeysCollide(p1: string, h1: string, p2: string, h2: string)
    requires |h1| <= |h2|
    ensures IndexKey(p1, h1) == IndexKey(p2, h2) && (p1, h1) != (p2, h2)
       <==> exists s :: h2 == h1 + "/" + s && p1 == s + "/" + p2
  {
    var k1, k2 := IndexKey(p1, h1), IndexKey(p2, h2);
    if s :| h2 == h1 + "/" + s && p1 == s + "/" + p2 {
      assert k1 == h1 + "/" + (s + "/" + p2) == (h1 + "/" + s) + "/" + p2 == k2;
    }
    if k1 == k2 && (p1, h1) != (p2, h2) {
      assert h1 == k1[..|h1|] && p1 == k1[|h1| + 1..] && h2 == k2[..|h2|] && p2 == k2[|h2| + 1..];
      assert |h1| < |h2| && k2[|h1|] == '/' && h2[..|h1|] == h1;
      var s := h2[|h1| + 1..];
      assert h2 == h1 + "/" + s;
      assert p1 == s + "/" + p2;
    }
  }

  /** So every pair on these hosts has an entry of its own, whatever the projects are called, exactly
      when no host's name goes on below another's. */
  lemma HostsKeepApart(hosts: set<string>)
    ensures (forall p1, h1, p2, h2 :: h1 in hosts && h2 in hosts && IndexKey(p1, h1) == IndexKey(p2, h2) ==>
             p1 == p2 && h1 == h2)
       <==> (forall h1, h2 :: h1 in hosts && h2 in hosts ==> !Below(h1, h2))
  {
    forall h1, h2 | h1 in hosts && h2 in hosts && Below(h1, h2)
      ensures exists p1, p2 :: IndexKey(p1, h1) == IndexKey(p2, h2) && h1 != h2
    {
      var s := h2[|h1| + 1..];
      assert h2 == h1 + "/" + s;
      IndexKeysCollide(s + "/" + "p", h1, "p", h2);
      assert IndexKey(s + "/" + "p", h1) == IndexKey("p", h2);
    }
    if forall h1, h2 :: h1 in hosts && h2 in hosts ==> !Below(h1, h2) {
      forall p1, h1, p2, h2 | h1 in hosts && h2 in hosts && IndexKey(p1, h1) == IndexKey(p2, h2)
        ensures p1 == p2 && h1 == h2
      {
        if |h1| <= |h2| {
          IndexKeysCollide(p1, h1, p2, h2);
        } else {
          IndexKeysCollide(p2, h2, p1, h1);
        }
      }
    }
  }

  function KeyOf(d: Deployment): string {
    IndexKey(d.project, d.host)
  }

  predicate ValidId(id: string) {
    '/' !in id && '\\' !in id
  }

  predicate ValidRecord(d: Deployment) {
    d.id != "" && d.project != "" && d.host != ""
  }

  datatype ReadError = InvalidRecord
  datatype Lookup = Absent | Found(record: Deployment) | Unreadable(error: ReadError)

  const INTERRUPTED := "interrupted: daemon shutdown while deploy was in progress"

  datatype Files = Files(runs: map<string, Deployment>, latest: map<string, Deployment>)

  /** Whether a save of d becomes its pair's latest record. */
  predicate Replaces(latest: map<string, Deployment>, d: Deployment) {
    var key := KeyOf(d);
    key !in latest || latest[key].id == d.id || latest[key].startedAt <= d.startedAt
  }

  function SavedFiles(f: Files, d: Deployment): Files {
    Files(f.runs[d.id := d], if Replaces(f.latest, d) then f.latest[KeyOf(d) := d] else f.latest)
  }

  function LookupLatest(f: Files, project: string, host: string): Lookup {
    var key := IndexKey(project, host);
    if key !in f.latest then Absent
    else if ValidRecord(f.latest[key]) then Found(f.latest[key])
    else Unreadable(InvalidRecord)
  }

  function DeletedFiles(f: Files, project: string, host: string): Files {
    f.(latest := f.latest - {IndexKey(project, host)})
  }

  function Interrupt(d: Deployment, now: int): Deployment {
    d.(status := StatusFailed, error := INTERRUPTED, completedAt := Some(now))
  }

  function StaleKeys(f: Files): set<string> {
    set key | key in f.latest && f.latest[key].status == StatusRunning
  }

  predicate RunIsStale(f: Files, todo: set<string>, id: string) {
    exists key :: key in StaleKeys(f) && key !in todo && f.latest[key].id == id
  }

  /** The files when only the index keys in `todo` are still to be looked at. */
  function MarkedFiles(f: Files, now: int, todo: set<string>): Files {
    Files(map id | id in f.runs :: if RunIsStale(f, todo, id) then Interrupt(f.runs[id], now) else f.runs[id],
          map key | key in f.latest ::
            if key in StaleKeys(f) && key !in todo then Interrupt(f.latest[key], now) else f.latest[key])
  }

  /** ShouldSkipDeploy of internal/engine/deploy.go. */
  predicate ShouldSkip(f: Files, project: string, host: string, sha: string) {
    match LookupLatest(f, project, host)
    case Found(d) => d.commitSha == sha && (d.status == StatusRunning || d.status == StatusSuccess)
    case _ => false
  }

  // ---- The history the index stands for ----

  datatype Op = Save(d: Deployment) | Delete(project: string, host: string) | MarkStale(now: int)

  /** Every record written for each index key since that key was last deleted, oldest first. */
  type Writes = map<string, seq<Deployment>>

  function WritesOf(w: Writes, key: string): seq<Deployment> {
    if key in w then w[key] else []
  }

  ghost predicate IsLatest(written: seq<Deployment>, d: Deployment) {
    exists i :: LatestAt(written, i) && written[i] == d
  }

  /** Entry i is the last written among those with the greatest StartedAt. */
  ghost predicate LatestAt(written: seq<Deployment>, i: int) {
    && 0 <= i < |written|
    && (forall j :: 0 <= j < |written| ==> written[j].startedAt <= written[i].startedAt)
    && (forall j :: i < j < |written| ==> written[j].startedAt < written[i].startedAt)
  }

  datatype Store = Store(files: Files, writes: Writes)

  /** What is assumed of callers: an ID keeps its project, host and start time. */
  predicate SameRun(a: Deployment, b: Deployment) {
    a.id == b.id ==> a.project == b.project && a.host == b.host && a.startedAt == b.startedAt
  }

  ghost predicate KeepsIdentity(f: Files, d: Deployment) {
    d.id in f.runs ==> SameRun(f.runs[d.id], d)
  }

  ghost predicate StoreOk(s: Store) {
    && (forall id :: id in s.files.runs ==> s.files.runs[id].id == id)
    && (forall key :: key in s.files.latest ==> EntryOk(s, key))
    && (forall key :: key !in s.files.latest ==> WritesOf(s.writes, key) == [])
  }

  ghost predicate EntryOk(s: Store, key: string)
    requires key in s.files.latest
  {
    var d := s.files.latest[key];
    && KeyOf(d) == key
    && d.id in s.files.runs && s.files.runs[d.id] == d
    && IsLatest(WritesOf(s.writes, key), d)
  }

  function Wrote(w: Writes, d: Deployment): Writes {
    w[KeyOf(d) := WritesOf(w, KeyOf(d)) + [d]]
  }

  ghost predicate Allowed(s: Store, op: Op) {
    op.Save? ==> KeepsIdentity(s.files, op.d)
  }

  function Apply(s: Store, op: Op): Store {
    match op
    case Save(d) => if ValidId(d.id) then Store(SavedFiles(s.files, d), Wrote(s.writes, d)) else s
    case Delete(project, host) => Store(DeletedFiles(s.files, project, host), s.writes - {IndexKey(project, host)})
    case MarkStale(now) =>
      Store(MarkedFiles(s.files, now, {}),
            map key | key in s.writes ::
              if key in StaleKeys(s.files) then s.writes[key] + [Interrupt(s.files.latest[key], now)]
                else s.writes[key])
  }

  lemma LatestAfterWrite(written: seq<Deployment>, i: int, d: Deployment)
    requires LatestAt(written, i)
    ensures written[i].startedAt <= d.startedAt ==> LatestAt(written + [d], |written|)
    ensures d.startedAt < written[i].startedAt ==> LatestAt(written + [d], i)
  {
  }

  /** The entry of the pair that is written. */
  lemma SavedEntryOk(s: Store, d: Deployment)
    requires StoreOk(s) && KeepsIdentity(s.files, d) && ValidId(d.id)
    ensures EntryOk(Apply(s, Save(d)), KeyOf(d))
  {
    var s' := Apply(s, Save(d));
    var key := KeyOf(d);
    var w := WritesOf(s.writes, key);
    assert WritesOf(s'.writes, key) == w + [d];
    if key in s.files.latest {
      assert EntryOk(s, key);
      var i :| LatestAt(w, i) && w[i] == s.files.latest[key];
      LatestAfterWrite(w, i, d);
      assert (w + [d])[|w|] == d && (w + [d])[i] == w[i];
    } else {
      assert LatestAt(w + [d], 0);
    }
  }

  lemma SaveKeepsStoreOk(s: Store, d: Deployment)
    requires StoreOk(s) && KeepsIdentity(s.files, d) && ValidId(d.id)
    ensures StoreOk(Apply(s, Save(d)))
  {
    var s' := Apply(s, Save(d));
    SavedEntryOk(s, d);
    forall key | key in s'.files.latest && key != KeyOf(d)
      ensures EntryOk(s', key)
    {
      assert EntryOk(s, key);
      assert WritesOf(s'.writes, key) == WritesOf(s.writes, key);
    }
  }

  lemma MarkKeepsStoreOk(s: Store, now: int)
    requires StoreOk(s)
    ensures StoreOk(Apply(s, MarkStale(now)))
  {
    var s' := Apply(s, MarkStale(now));
    forall key | key in s'.files.latest
      ensures EntryOk(s', key)
    {
      assert EntryOk(s, key);
      var d := s.files.latest[key];
      if key in StaleKeys(s.files) {
        assert RunIsStale(s.files, {}, d.id);
        var w := WritesOf(s.writes, key);
        var i :| LatestAt(w, i) && w[i] == d;
        LatestAfterWrite(w, i, Interrupt(d, now));
        assert WritesOf(s'.writes, key) == w + [Interrupt(d, now)];
      } else {
        assert forall other :: other in StaleKeys(s.files) ==> EntryOk(s, other);
        assert WritesOf(s'.writes, key) == WritesOf(s.writes, key);
      }
    }
  }

  lemma MarkNothing(f: Files, now: int)
    ensures MarkedFiles(f, now, f.latest.Keys) == f
  {
    assert MarkedFiles(f, now, f.latest.Keys).runs == f.runs;
    assert MarkedFiles(f, now, f.latest.Keys).latest == f.latest;
  }

  ghost predicate MarksOne(s: Store, now: int, todo: set<string>, key: string)
    requires key in s.files.latest
  {
    var d := s.files.latest[key];
    var f, f' := MarkedFiles(s.files, now, todo), MarkedFiles(s.files, now, todo - {key});
    && f.latest[key] == d
    && f' == if d.status == StatusRunning
             then Files(f.runs[d.id := Interrupt(d, now)], f.latest[key := Interrupt(d, now)]) else f
  }

  /** Looking at one more index key interrupts its run if that was running, and nothing else. */
  lemma MarkOne(s: Store, now: int, todo: set<string>, key: string)
    requires StoreOk(s) && key in s.files.latest && key in todo
    ensures MarksOne(s, now, todo, key)
  {
    var d := s.files.latest[key];
    assert EntryOk(s, key);
    forall id
      ensures RunIsStale(s.files, todo - {key}, id)
         <==> RunIsStale(s.files, todo, id) || (d.status == StatusRunning && id == d.id)
    {
      if d.status == StatusRunning {
        assert key in StaleKeys(s.files) && key !in todo - {key};
      }
    }
    MarkOneRuns(s, now, todo, key);
    MarkOneLatest(s, now, todo, key);
  }

  lemma MarkOneRuns(s: Store, now: int, todo: set<string>, key: string)
    requires key in s.files.latest && EntryOk(s, key)
    requires var d := s.files.latest[key];
             forall id :: RunIsStale(s.files, todo - {key}, id)
                     <==> RunIsStale(s.files, todo, id) || (d.status == StatusRunning && id == d.id)
    ensures var d := s.files.latest[key];
            var f, f' := MarkedFiles(s.files, now, todo), MarkedFiles(s.files, now, todo - {key});
            f'.runs == if d.status == StatusRunning then f.runs[d.id := Interrupt(d, now)] else f.runs
  {
  }

  lemma MarkOneLatest(s: Store, now: int, todo: set<string>, key: string)
    requires key in s.files.latest && key in todo
    ensures var d := s.files.latest[key];
            var f, f' := MarkedFiles(s.files, now, todo), MarkedFiles(s.files, now, todo - {key});
            && f.latest[key] == d
            && f'.latest == if d.status == StatusRunning then f.latest[key := Interrupt(d, now)] else f.latest
  {
  }

  lemma StaleCount(stale: set<string>, todo: set<string>, key: string)
    requires key in todo
    ensures |stale * todo| == |stale * (todo - {key})| + (if key in stale then 1 else 0)
  {
    assert stale * todo == stale * (todo - {key}) + (if key in stale then {key} else {});
  }

  /** Of the entries of f only those in `todo` are still to be looked at, and `updated` were interrupted. */
  ghost predicate Marking(f: Files, f': Files, now: int, todo: set<string>, updated: nat) {
    && todo <= f.latest.Keys
    && updated + |StaleKeys(f) * todo| == |StaleKeys(f)|
    && f' == MarkedFiles(f, now, todo)
  }

  lemma MarkingStarts(f: Files, now: int)
    ensures Marking(f, f, now, f.latest.Keys, 0)
  {
    MarkNothing(f, now);
    assert StaleKeys(f) * f.latest.Keys == StaleKeys(f);
  }

  lemma MarkingEnds(f: Files, f': Files, now: int, updated: nat)
    requires Marking(f, f', now, {}, updated)
    ensures updated == |StaleKeys(f)| && f' == MarkedFiles(f, now, {})
  {
    assert StaleKeys(f) * {} == {};
  }

  lemma StepKeepsStoreOk(s: Store, op: Op)
    requires StoreOk(s) && Allowed(s, op)
    ensures StoreOk(Apply(s, op))
  {
    match op
    case Save(d) => if ValidId(d.id) { SaveKeepsStoreOk(s, d); }
    case Delete(project, host) =>
      var s' := Apply(s, op);
      forall key | key in s'.files.latest
        ensures EntryOk(s', key)
      {
        assert EntryOk(s, key);
        assert WritesOf(s'.writes, key) == WritesOf(s.writes, key);
      }
    case MarkStale(now) => MarkKeepsStoreOk(s, now);
  }

  ghost predicate AllAllowed(s: Store, ops: seq<Op>)
    decreases |ops|
  {
    ops == [] || (Allowed(s, ops[0]) && AllAllowed(Apply(s, ops[0]), ops[1..]))
  }

  function Replay(s: Store, ops: seq<Op>): Store
    decreases |ops|
  {
    if ops == [] then s else Replay(Apply(s, ops[0]), ops[1..])
  }

  const EMPTY := Store(Files(map[], map[]), map[])

  /** After any history, a pair's entry is the last record written for it among those with the
      greatest StartedAt since it was last deleted, and the run file of its ID says the same; a pair
      has no entry exactly when nothing was written for it since. */
  lemma IndexAgreesWithHistory(ops: seq<Op>, project: string, host: string)
    requires AllAllowed(EMPTY, ops)
    ensures var s := Replay(EMPTY, ops); var key := IndexKey(project, host);
            if key in s.files.latest then
              IsLatest(WritesOf(s.writes, key), s.files.latest[key])
              && s.files.latest[key].id in s.files.runs && s.files.runs[s.files.latest[key].id] == s.files.latest[key]
            else WritesOf(s.writes, key) == []
  {
    ReplayKeepsStoreOk(EMPTY, ops);
    var s := Replay(EMPTY, ops);
    var key := IndexKey(project, host);
    if key in s.files.latest {
      assert EntryOk(s, key);
    }
  }

  lemma {:induction false} ReplayKeepsStoreOk(s: Store, ops: seq<Op>)
    requires StoreOk(s) && AllAllowed(s, ops)
    ensures StoreOk(Replay(s, ops))
    decreases |ops|
  {
    if ops != [] {
      StepKeepsStoreOk(s, ops[0]);
      ReplayKeepsStoreOk(Apply(s, ops[0]), ops[1..]);
    }
  }

  /** Marking at startup leaves no entry running, touches no other entry, and adds or removes none. */
  lemma MarkedNoneRunning(s: Store, now: int)
    ensures var f, f' := s.files, Apply(s, MarkStale(now)).files;
      && f'.latest.Keys == f.latest.Keys
      && forall key :: key in f.latest ==>
        var d, d' := f.latest[key], f'.latest[key];
        && d'.status != StatusRunning
        && (d.status != StatusRunning ==> d' == d)
        && (d.status == StatusRunning ==>
              d' == Deployment(d.id, d.project, d.host, d.commitSha, StatusFailed, d.startedAt, Some(now), INTERRUPTED))
  {
  }

  class FileStore {
    var runs: map<string, Deployment>
    var latest: map<string, Deployment>
    ghost var writes: Writes

    ghost function State(): Store
      reads this
    {
      Store(Files(runs, latest), writes)
    }

    ghost predicate Valid()
      reads this
    {
      StoreOk(State())
    }

    constructor ()
      ensures Valid() && State() == EMPTY
    {
      runs, latest, writes := map[], map[], map[];
    }

    method SaveDeployment(d: Deployment) returns (ok: bool)
      requires Valid() && KeepsIdentity(State().files, d)
      modifies this
      ensures Valid() && ok == ValidId(d.id) && State() == Apply(old(State()), Save(d))
      ensures ok <==> '/' !in d.id && '\\' !in d.id
      ensures if ok then runs == old(runs)[d.id := d] else runs == old(runs) && latest == old(latest)
    {
      if '/' in d.id || '\\' in d.id {
        return false;
      }
      StepKeepsStoreOk(State(), Save(d));
      runs := runs[d.id := d];
      UpdateProjectsIndex(d);
      writes := Wrote(writes, d);
      ok := true;
    }

    method UpdateProjectsIndex(d: Deployment)
      modifies this`latest
      ensures latest == if Replaces(old(latest), d) then old(latest)[KeyOf(d) := d] else old(latest)
    {
      var key := IndexKey(d.project, d.host);
      var exists_ := key in latest;
      if !exists_ || latest[key].id == d.id || !(d.startedAt < latest[key].startedAt) {
        latest := latest[key := d];
      }
    }

    method GetLatestDeployment(project: string, host: string) returns (r: Lookup)
      ensures r == LookupLatest(State().files, project, host)
      ensures r.Absent? <==> host + "/" + project !in latest
      ensures r.Found? <==>
        && host + "/" + project in latest
        && var d := latest[host + "/" + project];
        d.id != "" && d.project != "" && d.host != "" && r == Found(d)
    {
      var key := IndexKey(project, host);
      if key !in latest {
        return Absent;
      }
      if !ValidRecord(latest[key]) {
        return Unreadable(InvalidRecord);
      }
      return Found(latest[key]);
    }

    method DeleteLatestDeployment(project: string, host: string) returns (deleted: bool)
      requires Valid()
      modifies this
      ensures Valid() && deleted == (IndexKey(project, host) in old(latest))
      ensures State().files == Apply(old(State()), Delete(project, host)).files
      ensures deleted ==> State() == Apply(old(State()), Delete(project, host))
    {
      var key := IndexKey(project, host);
      if key !in latest {
        assert latest - {key} == latest;
        return false;
      }
      StepKeepsStoreOk(State(), Delete(project, host));
      latest := latest - {key};
      writes := writes - {key};
      deleted := true;
    }

    method MarkStaleRunningDeploymentsFailed(now: int) returns (updated: nat)
      requires Valid()
      modifies this
      ensures Valid() && updated == |StaleKeys(old(State()).files)|
      ensures State() == Apply(old(State()), MarkStale(now))
    {
      ghost var before := State();
      StepKeepsStoreOk(before, MarkStale(now));
      updated := MarkEntries(now);
      writes := Apply(before, MarkStale(now)).writes;
    }

    /** The loop over the index. */
    method MarkEntries(now: int) returns (updated: nat)
      requires Valid()
      modifies this`runs, this`latest
      ensures updated == |StaleKeys(old(State()).files)|
      ensures State().files == MarkedFiles(old(State()).files, now, {})
    {
      ghost var before := State();
      var todo := latest.Keys;
      updated := 0;
      MarkingStarts(before.files, now);
      while todo != {}
        invariant Marking(before.files, State().files, now, todo, updated)
        decreases |todo|
      {
        var key :| key in todo;
        var interrupted := MarkNext(before, now, todo, key, updated);
        updated := if interrupted then updated + 1 else updated;
        todo := todo - {key};
      }
      MarkingEnds(before.files, State().files, now, updated);
    }

    /** One turn of the loop. */
    method MarkNext(ghost before: Store, now: int, ghost todo: set<string>, key: string, ghost updated: nat)
      returns (interrupted: bool)
      requires StoreOk(before) && key in todo && Marking(before.files, State().files, now, todo, updated)
      modifies this`runs, this`latest
      ensures Marking(before.files, State().files, now, todo - {key}, if interrupted then updated + 1 else updated)
    {
      MarkOne(before, now, todo, key);
      StaleCount(StaleKeys(before.files), todo, key);
      interrupted := MarkEntry(key, now);
    }

    method MarkEntry(key: string, now: int) returns (interrupted: bool)
      requires key in latest
      modifies this`runs, this`latest
      ensures var d := old(latest)[key];
              && interrupted == (d.status == StatusRunning)
              && State().files == if interrupted then Files(old(runs)[d.id := Interrupt(d, now)],
                                                            old(latest)[key := Interrupt(d, now)])
                                  else old(State()).files
    {
      var d := latest[key];
      if d.status != StatusRunning {
        return false;
      }
      latest := latest[key := Interrupt(d, now)];
      runs := runs[d.id := Interrupt(d, now)];
      return true;
    }

    method ShouldSkipDeploy(project: string, host: string, sha: string) returns (skip: bool)
      ensures skip == ShouldSkip(State().files, project, host, sha)
      ensures skip <==>
        && host + "/" + project in latest
        && var d := latest[host + "/" + project];
        && d.id != "" && d.project != "" && d.host != "" && d.commitSha == sha
        && (d.status == StatusRunning || d.status == StatusSuccess)
    {
      var found := GetLatestDeployment(project, host);
      if !found.Found? {
        return false;
      }
      var d := found.record;
      if d.commitSha != sha {
        return false;
      }
      return d.status == StatusRunning || d.status == StatusSuccess;
    }
  }
}
