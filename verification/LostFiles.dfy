/** Two deploys in a row that between them lose an uncommitted persist file, run on the executor: the
    project has one compose file, committed, and keeps one file that is only on the host. */
module LostFiles {
  import opened Base
  import opened Deploys = Executor

  const COMPOSE: Name := ["compose.yml"]
  const DB: Name := ["db"]

  const LIVE: Tree := map[COMPOSE := "v1", DB := "data"]
  const EMPTY: Tree := map[]
  const UPLOADED: Tree := map[COMPOSE := "v2"]
  const COPIED: Tree := map[COMPOSE := "v2", DB := "data"]
  const TORN: Tree := map[COMPOSE := "v2", DB := "da"]

  const BEFORE := Fs(Some(LIVE), None, None)
  const FILE := File(COMPOSE, "v2")

  const LOCAL := map["/tmp/bundle/compose.yml" := "v2"]
  const BUNDLE := [BundleFile("/tmp/bundle/compose.yml", "compose.yml")]
  const OPTIONS := Options(["compose.yml"], ["db"])

  /** A scripted remote side: the k-th command, and what it does. */
  datatype Script = Script(commands: seq<Command>, replies: nat -> Reply)

  function StateBefore(replies: nat -> Reply, k: nat): Fs {
    if k == 0 then BEFORE else replies(k - 1).fs
  }

  /** What the script says about its k-th command is possible. */
  predicate Plays(s: Script, k: nat)
    requires k < |s.commands|
  {
    Effect(StateBefore(s.replies, k), s.commands[k], s.replies(k).fs, s.replies(k).ok)
  }

  predicate PlaysAll(s: Script) {
    forall k :: 0 <= k < |s.commands| ==> Plays(s, k)
  }

  function At(s: Script, k: nat): Remote
    requires k <= |s.commands|
  {
    Remote(StateBefore(s.replies, k), seq(k, j requires 0 <= j < k => (s.commands[j], s.replies(j).ok)))
  }

  lemma Next(s: Script, k: nat)
    requires PlaysAll(s) && k < |s.commands|
    ensures Sent(At(s, k), s.commands[k], s.replies) == At(s, k + 1)
    ensures Answer(At(s, k), s.commands[k], s.replies).ok == s.replies(k).ok
  {
    assert Plays(s, k);
  }

  lemma SendOne(r: Remote, c: Command, replies: nat -> Reply)
    ensures SendAll(r, [c], replies) ==
      var next := Sent(r, c, replies);
      if Answer(r, c, replies).ok then (next, true) else (Sent(next, RemoveStaging, replies), false)
  {
    assert [c][1..] == [];
    assert SendAll(Sent(r, c, replies), [], replies) == (Sent(r, c, replies), true);
  }

  /** The commands of a deploy up to the copy. */
  predicate BeginsDeploy(s: Script, k: nat) {
    && k + 4 <= |s.commands| && s.commands[k] == RemoveStaging && s.commands[k + 1] == MakeStaging
    && s.commands[k + 2] == Upload(COMPOSE, "v2") && s.commands[k + 3] == CopyPersist(DB)
    && s.replies(k + 1).ok && s.replies(k + 2).ok
  }

  lemma UpToCopy(s: Script, k: nat)
    requires PlaysAll(s) && BeginsDeploy(s, k)
    ensures Sent(At(s, k), RemoveStaging, s.replies) == At(s, k + 1)
    ensures Sent(At(s, k + 1), MakeStaging, s.replies) == At(s, k + 2)
    ensures Answer(At(s, k + 1), MakeStaging, s.replies).ok
    ensures SendAll(At(s, k + 2), Uploads([FILE]), s.replies) == (At(s, k + 3), true)
  {
    Next(s, k);
    Next(s, k + 1);
    Next(s, k + 2);
    assert Uploads([FILE]) == [Upload(COMPOSE, "v2")];
    SendOne(At(s, k + 2), Upload(COMPOSE, "v2"), s.replies);
  }

  /** A deploy whose copy fails, as does the cleanup after it or not. */
  lemma CopyFails(s: Script, k: nat, services: seq<Service>)
    requires PlaysAll(s) && BeginsDeploy(s, k) && !s.replies(k + 3).ok
    requires k + 5 <= |s.commands| && s.commands[k + 4] == RemoveStaging
    ensures DeployRun(At(s, k), [FILE], [DB], Some(services), s.replies) == (At(s, k + 5), Some(PersistFailed))
  {
    UpToCopy(s, k);
    Next(s, k + 3);
    Next(s, k + 4);
    assert PersistCopies([DB]) == [CopyPersist(DB)];
    SendOne(At(s, k + 3), CopyPersist(DB), s.replies);
  }

  predicate Stages(s: Script, k: nat) {
    BeginsDeploy(s, k) && k + 5 <= |s.commands| && s.commands[k + 4] == Preflight && s.replies(k + 3).ok
      && s.replies(k + 4).ok
  }

  lemma StagingSucceeds(s: Script, k: nat)
    requires PlaysAll(s) && Stages(s, k)
    ensures StageRun(At(s, k), [FILE], [DB], s.replies) == (At(s, k + 5), None)
  {
    UpToCopy(s, k);
    Next(s, k + 3);
    Next(s, k + 4);
    assert PersistCopies([DB]) == [CopyPersist(DB)];
    SendOne(At(s, k + 3), CopyPersist(DB), s.replies);
    SendOne(At(s, k + 4), Preflight, s.replies);
  }

  /** A deploy whose swap fails. */
  lemma SwapFails(s: Script, k: nat, services: seq<Service>)
    requires PlaysAll(s) && Stages(s, k)
    requires k + 6 <= |s.commands| && s.commands[k + 5] == Swap && !s.replies(k + 5).ok
    ensures DeployRun(At(s, k), [FILE], [DB], Some(services), s.replies) == (At(s, k + 6), Some(SwapFailed))
  {
    StagingSucceeds(s, k);
    Next(s, k + 5);
  }

  /** A deploy that succeeds. */
  lemma DeploySucceeds(s: Script, k: nat, services: seq<Service>)
    requires PlaysAll(s) && Stages(s, k) && forall service :: service in services ==> IsRunning(service)
    requires k + 8 <= |s.commands| && s.commands[k + 5] == Swap && s.commands[k + 6] == RemoveOld
    requires s.commands[k + 7] == Up
    requires s.replies(k + 5).ok && s.replies(k + 7).ok
    ensures DeployRun(At(s, k), [FILE], [DB], Some(services), s.replies) == (At(s, k + 8), None)
  {
    StagingSucceeds(s, k);
    Next(s, k + 5);
    Next(s, k + 6);
    Next(s, k + 7);
    NobodyStopped(services);
  }

  lemma {:induction false} NobodyStopped(services: seq<Service>)
    requires forall service :: service in services ==> IsRunning(service)
    ensures Verdict(services) == None
  {
    if services != [] {
      NobodyStopped(services[1..]);
    }
  }

  // ---- A leftover takes the file's place ----

  /** The copy breaks off half-way, then the cleanup after it and the one before the next deploy fail. */
  function LeftoverReply(k: nat): Reply {
    var state :=
      if k == 0 then BEFORE
      else if k == 1 then BEFORE.(staging := Some(EMPTY))
      else if k == 2 then BEFORE.(staging := Some(UPLOADED))
      else if k < 10 then BEFORE.(staging := Some(TORN))
      else if k == 10 then Fs(Some(TORN), None, Some(LIVE))
      else Fs(Some(TORN), None, None);
    Reply(k !in {3, 4, 5}, state)
  }

  const LEFTOVER := Script(
    [RemoveStaging, MakeStaging, Upload(COMPOSE, "v2"), CopyPersist(DB), RemoveStaging,
     RemoveStaging, MakeStaging, Upload(COMPOSE, "v2"), CopyPersist(DB), Preflight, Swap, RemoveOld, Up],
    LeftoverReply)

  lemma Names()
    ensures COMPOSE != DB && !(COMPOSE <= DB) && !(DB <= COMPOSE)
    ensures CanWrite(EMPTY, COMPOSE) && CanWrite(UPLOADED, DB) && CanWrite(TORN, COMPOSE)
    ensures !Exists(UPLOADED, DB) && Exists(TORN, DB)
  {
    assert COMPOSE[0] != DB[0];
    assert DB in TORN && DB <= DB;
    assert forall m :: m in UPLOADED ==> m == COMPOSE;
    assert forall m :: m in TORN ==> m == COMPOSE || m == DB;
  }

  lemma LeftoverCopy()
    ensures Plays(LEFTOVER, 3) && Plays(LEFTOVER, 7) && Plays(LEFTOVER, 8)
  {
    Names();
    assert TORN - {DB} == UPLOADED - {DB};
    assert TORN[COMPOSE := "v2"] == TORN;
  }

  lemma LeftoverPlays()
    ensures PlaysAll(LEFTOVER)
  {
    Names();
    LeftoverCopy();
    assert EMPTY[COMPOSE := "v2"] == UPLOADED;
    assert SwapAt(BEFORE.(staging := Some(TORN)), InPlace, Fs(Some(TORN), None, Some(LIVE)));
    forall k | 0 <= k < |LEFTOVER.commands|
      ensures Plays(LEFTOVER, k)
    {
    }
  }

  // ---- The only copy is removed ----

  /** The swap breaks off with the live directory set aside. */
  function AsideReply(k: nat): Reply {
    var state :=
      if k == 0 then BEFORE
      else if k == 1 then BEFORE.(staging := Some(EMPTY))
      else if k == 2 then BEFORE.(staging := Some(UPLOADED))
      else if k < 5 then BEFORE.(staging := Some(COPIED))
      else if k == 5 then Fs(None, Some(COPIED), Some(LIVE))
      else if k == 6 then Fs(None, None, Some(LIVE))
      else if k == 7 then Fs(None, Some(EMPTY), Some(LIVE))
      else if k < 11 then Fs(None, Some(UPLOADED), Some(LIVE))
      else Fs(Some(UPLOADED), None, None);
    Reply(k != 5, state)
  }

  const ASIDE := Script(
    [RemoveStaging, MakeStaging, Upload(COMPOSE, "v2"), CopyPersist(DB), Preflight, Swap,
     RemoveStaging, MakeStaging, Upload(COMPOSE, "v2"), CopyPersist(DB), Preflight, Swap, RemoveOld, Up],
    AsideReply)

  lemma AsidePlays()
    ensures PlaysAll(ASIDE)
  {
    Names();
    assert EMPTY[COMPOSE := "v2"] == UPLOADED;
    assert UPLOADED[DB := "data"] == COPIED;
    assert SwapAt(BEFORE.(staging := Some(COPIED)), SetAside, Fs(None, Some(COPIED), Some(LIVE)));
    assert SwapAt(Fs(None, Some(UPLOADED), Some(LIVE)), InPlace, Fs(Some(UPLOADED), None, None));
    forall k | 0 <= k < |ASIDE.commands|
      ensures Plays(ASIDE, k)
    {
    }
  }

  // ---- The runs ----

  lemma GivenBundle()
    ensures BundleOk(LOCAL, BUNDLE) && FilesOf(LOCAL, BUNDLE) == [FILE]
  {
    OneSegment("compose.yml");
    var only := BUNDLE[0];
    assert BUNDLE == [only] && FileOk(LOCAL, only);
    FilesOfOne(LOCAL, only);
  }

  lemma FilesOfOne(local: map<string, string>, f: BundleFile)
    requires FileOk(local, f)
    ensures FilesOf(local, [f]) == [File(NameOf(f.remoteName), local[f.localPath])]
  {
    assert [f][1..] == [];
    assert FilesOf(local, []) == [];
  }

  lemma GivenOptions()
    ensures NamesOf(OPTIONS.persistFiles) == [DB]
  {
    OneSegment("db");
    assert ["db"][1..] == [];
  }

  lemma OneSegment(name: string)
    requires name != "" && name != "." && '/' !in name
    ensures NameOf(name) == [name]
  {
    SplitWhole(name, '/');
    var parts := [name];
    assert parts[1..] == [] && Segments(parts[1..]) == [];
    assert Segments(parts) == [parts[0]] + Segments(parts[1..]);
  }

  /** The file is on the machine with its content, in some directory. */
  predicate Somewhere(fs: Fs, content: string) {
    HasFile(fs.live, DB, content) || HasFile(fs.staging, DB, content) || HasFile(fs.old_, DB, content)
  }

  lemma LeftoverFirst(services: seq<Service>)
    ensures DeployRun(At(LEFTOVER, 0), [FILE], [DB], Some(services), LeftoverReply)
      == (At(LEFTOVER, 5), Some(PersistFailed))
  {
    LeftoverPlays();
    CopyFails(LEFTOVER, 0, services);
  }

  lemma LeftoverSecond(services: seq<Service>)
    requires forall service :: service in services ==> IsRunning(service)
    ensures DeployRun(At(LEFTOVER, 5), [FILE], [DB], Some(services), LeftoverReply) == (At(LEFTOVER, 13), None)
  {
    LeftoverPlays();
    DeploySucceeds(LEFTOVER, 5, services);
  }

  lemma LeftoverEnds()
    ensures ProperFs(BEFORE) && HasFile(BEFORE.live, DB, "data")
    ensures var after := At(LEFTOVER, 13).fs; HasFile(after.live, DB, "da") && !Somewhere(after, "data")
  {
    Names();
  }

  lemma AsideFirst(services: seq<Service>)
    ensures DeployRun(At(ASIDE, 0), [FILE], [DB], Some(services), AsideReply) == (At(ASIDE, 6), Some(SwapFailed))
  {
    AsidePlays();
    SwapFails(ASIDE, 0, services);
  }

  lemma AsideSecond(services: seq<Service>)
    requires forall service :: service in services ==> IsRunning(service)
    ensures DeployRun(At(ASIDE, 6), [FILE], [DB], Some(services), AsideReply) == (At(ASIDE, 14), None)
  {
    AsidePlays();
    DeploySucceeds(ASIDE, 6, services);
  }

  lemma AsideEnds()
    ensures ProperFs(BEFORE) && HasFile(BEFORE.live, DB, "data")
    ensures var after := At(ASIDE, 14).fs; after.live.Some? && !Somewhere(after, "data")
  {
    Names();
  }

  /** Two deploys of the bundle in a row, on a remote side that answers with `replies`. */
  predicate TwoDeploys(before: Fs, services: seq<Service>, replies: nat -> Reply, first: Option<Failure>,
                       second: Option<Failure>, after: Fs) {
    var one := DeployRun(Remote(before, []), [FILE], [DB], Some(services), replies);
    var two := DeployRun(one.0, [FILE], [DB], Some(services), replies);
    first == one.1 && second == two.1 && after == two.0.fs
  }

  /** The executor run twice on a fresh connection. */
  method DeployTwice(before: Fs, replies: nat -> Reply, services: seq<Service>)
    returns (first: Option<Failure>, second: Option<Failure>, after: Fs)
    requires ProperFs(before)
    ensures TwoDeploys(before, services, replies, first, second, after)
  {
    GivenBundle();
    GivenOptions();
    var connection := new Connection(before, replies);
    var executor := new Executor(connection);
    ghost var attempt;
    first, attempt := executor.Deploy(LOCAL, BUNDLE, OPTIONS, Some(services));
    second, attempt := executor.Deploy(LOCAL, BUNDLE, OPTIONS, Some(services));
    after := connection.fs;
  }

  /** A deploy fails at the copy; the next one takes the half-written copy for a committed version,
      reports success, and the file is nowhere. */
  method LeftoverReplacesFile(services: seq<Service>)
    returns (first: Option<Failure>, second: Option<Failure>, before: Fs, after: Fs)
    requires forall service :: service in services ==> IsRunning(service)
    ensures HasFile(before.live, DB, "data") && HasFile(after.live, DB, "da") && !Somewhere(after, "data")
    ensures first == Some(PersistFailed) && second == None
    ensures TwoDeploys(before, services, LeftoverReply, first, second, after)
  {
    LeftoverFirst(services);
    LeftoverSecond(services);
    LeftoverEnds();
    before := BEFORE;
    first, second, after := DeployTwice(before, LeftoverReply, services);
  }

  /** A swap stops with the live directory set aside; the next deploy reports success and removes the
      only copy of the file. */
  method SetAsideIsRemoved(services: seq<Service>)
    returns (first: Option<Failure>, second: Option<Failure>, before: Fs, after: Fs)
    requires forall service :: service in services ==> IsRunning(service)
    ensures HasFile(before.live, DB, "data") && after.live.Some? && !Somewhere(after, "data")
    ensures first == Some(SwapFailed) && second == None
    ensures TwoDeploys(before, services, AsideReply, first, second, after)
  {
    AsideFirst(services);
    AsideSecond(services);
    AsideEnds();
    before := BEFORE;
    first, second, after := DeployTwice(before, AsideReply, services);
  }
}
