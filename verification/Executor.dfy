/** The staged deploy of one project on one machine (Deploy of internal/compose/executor.go), over a
    remote file system on which any command can fail half-way. */
module Executor {
  import opened Base

  // ---- The remote directories ----

  /** A path below a directory, by segments. */
  type Name = seq<string>

  /** The regular files of a directory. */
  type Tree = map<Name, string>

  /** remoteDir, remoteDir.staging and remoteDir.old. */
  datatype Fs = Fs(live: Option<Tree>, staging: Option<Tree>, old_: Option<Tree>)

  function TreeOf(d: Option<Tree>): Tree {
    if d.None? then map[] else d.value
  }

  predicate HasFile(d: Option<Tree>, n: Name, content: string) {
    d.Some? && n in d.value && d.value[n] == content
  }

  predicate IsFile(d: Option<Tree>, n: Name) {
    d.Some? && n in d.value
  }

  /** `[ -e n ]`: a file of that name, or a directory with something in it. */
  predicate Exists(t: Tree, n: Name) {
    exists m :: m in t && n <= m
  }

  /** No parent of n is a file and n is not a directory. */
  predicate CanWrite(t: Tree, n: Name) {
    n != [] && forall m :: m in t ==> (m <= n || n <= m ==> m == n)
  }

  /** No file is also a directory. */
  ghost predicate Proper(t: Tree) {
    [] !in t && forall a, b :: a in t && b in t && a <= b ==> a == b
  }

  ghost predicate ProperFs(fs: Fs) {
    Proper(TreeOf(fs.live)) && Proper(TreeOf(fs.staging)) && Proper(TreeOf(fs.old_))
  }

  // ---- Remote commands ----

  datatype Command =
    | RemoveStaging
    | MakeStaging
    | Upload(name: Name, content: string)
    | CopyPersist(name: Name)
    | Preflight
    | Swap
    | RemoveOld
    | Up

  /** What an `rm -rf` of a leaves when it does not finish. */
  predicate Remains(a: Option<Tree>, b: Option<Tree>) {
    b.Some? ==> a.Some? && forall n :: n in b.value ==> n in a.value && b.value[n] == a.value[n]
  }

  /** What a write to n leaves when it does not finish: anything at n, the rest as it was. */
  predicate HalfWritten(a: Option<Tree>, b: Option<Tree>, n: Name) {
    b == a || (b.Some? && CanWrite(TreeOf(a), n) && b.value - {n} == TreeOf(a) - {n})
  }

  /** Where the swap command can be interrupted: while the previous .old goes away, with the live
      directory set aside, or at its end. */
  datatype SwapPoint = Clearing | SetAside | InPlace

  predicate SwapAt(fs: Fs, p: SwapPoint, fs': Fs) {
    match p
    case Clearing => fs' == fs.(old_ := fs'.old_) && Remains(fs.old_, fs'.old_)
    case SetAside => fs' == Fs(None, fs.staging, fs.live)
    case InPlace => fs' == Fs(fs.staging, None, fs.live)
  }

  predicate Copies(fs: Fs, n: Name) {
    IsFile(fs.live, n) && !Exists(TreeOf(fs.staging), n)
  }

  predicate Done(fs: Fs, c: Command, fs': Fs) {
    match c
    case RemoveStaging => fs' == fs.(staging := None)
    case MakeStaging => fs' == fs.(staging := Some(TreeOf(fs.staging)))
    case Upload(n, content) =>
      CanWrite(TreeOf(fs.staging), n) && fs' == fs.(staging := Some(TreeOf(fs.staging)[n := content]))
    case CopyPersist(n) =>
      if Copies(fs, n) then
        && CanWrite(TreeOf(fs.staging), n)
        && fs' == fs.(staging := Some(TreeOf(fs.staging)[n := fs.live.value[n]]))
      else fs' == fs
    case Swap => fs.staging.Some? && SwapAt(fs, InPlace, fs')
    case RemoveOld => fs' == fs.(old_ := None)
    case _ => fs' == fs
  }

  predicate Broke(fs: Fs, c: Command, fs': Fs) {
    match c
    case RemoveStaging => fs' == fs.(staging := fs'.staging) && Remains(fs.staging, fs'.staging)
    case MakeStaging => fs' == fs || fs' == fs.(staging := Some(TreeOf(fs.staging)))
    case Upload(n, _) => fs' == fs.(staging := fs'.staging) && HalfWritten(fs.staging, fs'.staging, n)
    case CopyPersist(n) =>
      if Copies(fs, n) then fs' == fs.(staging := fs'.staging) && HalfWritten(fs.staging, fs'.staging, n) else fs' == fs
    case Swap => exists p :: SwapAt(fs, p, fs') && (p.InPlace? ==> fs.staging.Some?)
    case RemoveOld => fs' == fs.(old_ := fs'.old_) && Remains(fs.old_, fs'.old_)
    case _ => fs' == fs
  }

  predicate Effect(fs: Fs, c: Command, fs': Fs, ok: bool) {
    if ok then Done(fs, c, fs') else Broke(fs, c, fs')
  }

  lemma WriteKeepsProper(a: Tree, b: Tree, n: Name)
    requires Proper(a) && CanWrite(a, n) && b - {n} == a - {n}
    ensures Proper(b)
  {
    forall m | m in b && m != n
      ensures m in a
    {
      assert m in b - {n};
    }
  }

  lemma RemainsProper(a: Option<Tree>, b: Option<Tree>)
    requires Proper(TreeOf(a)) && Remains(a, b)
    ensures Proper(TreeOf(b))
  {
  }

  lemma CommandKeepsProper(fs: Fs, c: Command, fs': Fs, ok: bool)
    requires ProperFs(fs) && Effect(fs, c, fs', ok)
    ensures ProperFs(fs')
  {
    var staging, staging' := TreeOf(fs.staging), TreeOf(fs'.staging);
    if (c.Upload? || c.CopyPersist?) && fs' != fs {
      if ok || staging' != staging {
        assert staging' - {c.name} == staging - {c.name};
        WriteKeepsProper(staging, staging', c.name);
      }
    } else if c.RemoveStaging? && !ok {
      RemainsProper(fs.staging, fs'.staging);
    } else if c.RemoveOld? && !ok {
      RemainsProper(fs.old_, fs'.old_);
    } else if c.Swap? && !ok {
      var p :| SwapAt(fs, p, fs');
      if p.Clearing? {
        RemainsProper(fs.old_, fs'.old_);
      }
    }
  }

  // ---- What ends up in the staging directory ----

  datatype File = File(name: Name, content: string)

  function Uploaded(files: seq<File>): Tree {
    if files == [] then map[]
    else Uploaded(files[..|files| - 1])[files[|files| - 1].name := files[|files| - 1].content]
  }

  lemma UploadedStep(base: Tree, files: seq<File>, i: nat)
    requires i < |files|
    ensures (base + Uploaded(files[..i]))[files[i].name := files[i].content] == base + Uploaded(files[..i + 1])
  {
    assert files[..i + 1][..i] == files[..i];
  }

  /** Persist files are taken from the live directory unless staging has something of that name. */
  function WithPersisted(staging: Tree, persist: seq<Name>, live: Option<Tree>): Tree {
    if persist == [] then staging
    else
      var t, n := WithPersisted(staging, persist[..|persist| - 1], live), persist[|persist| - 1];
      if IsFile(live, n) && !Exists(t, n) then t[n := live.value[n]] else t
  }

  /** `base` is what staging held when the upload began. */
  function Staged(base: Tree, files: seq<File>, persist: seq<Name>, live: Option<Tree>): Tree {
    WithPersisted(base + Uploaded(files), persist, live)
  }

  /** The last file of a name wins. */
  ghost predicate LastFile(files: seq<File>, i: int, n: Name) {
    0 <= i < |files| && files[i].name == n && forall j :: i < j < |files| ==> files[j].name != n
  }

  lemma {:induction false} UploadedMeans(files: seq<File>, n: Name)
    ensures n in Uploaded(files) <==> exists i :: LastFile(files, i, n)
    ensures forall i :: LastFile(files, i, n) ==> Uploaded(files)[n] == files[i].content
    decreases |files|
  {
    if files != [] {
      var k := |files| - 1;
      UploadedMeans(files[..k], n);
      if files[k].name == n {
        assert LastFile(files, k, n);
      } else {
        forall i
          ensures LastFile(files, i, n) <==> LastFile(files[..k], i, n)
        {
          assert LastFile(files[..k], i, n) ==> forall j :: i < j < k ==> files[..k][j].name != n;
        }
      }
    }
  }

  /** Persisting adds exactly the listed live files whose name was free. */
  lemma {:induction false} PersistedMeans(staging: Tree, persist: seq<Name>, live: Option<Tree>, n: Name)
    requires Proper(TreeOf(live))
    ensures var t := WithPersisted(staging, persist, live);
      && (n in t <==> n in staging || (n in persist && IsFile(live, n) && !Exists(staging, n)))
      && (n in staging ==> n in t && t[n] == staging[n])
      && (n in t && n !in staging ==> t[n] == live.value[n])
    decreases |persist|, 0
  {
    if persist != [] {
      var k := |persist| - 1;
      var before, last := persist[..k], persist[k];
      assert persist == before + [last];
      PersistedMeans(staging, before, live, n);
      PersistedMeans(staging, before, live, last);
      var t := WithPersisted(staging, before, live);
      if n == last && IsFile(live, n) && n !in t {
        ExistsAfterPersist(staging, before, live, n);
      }
      if n == last && n in staging {
        assert n in t && n <= n;
        assert Exists(t, n);
      }
    }
  }

  /** For a live file that was not copied yet, the copies made so far do not get in the way. */
  lemma ExistsAfterPersist(staging: Tree, persist: seq<Name>, live: Option<Tree>, n: Name)
    requires Proper(TreeOf(live)) && IsFile(live, n)
    requires n in WithPersisted(staging, persist, live) ==> n in staging
    ensures Exists(WithPersisted(staging, persist, live), n) <==> Exists(staging, n)
    decreases |persist|, 1
  {
    var t := WithPersisted(staging, persist, live);
    if m :| m in t && n <= m {
      PersistedMeans(staging, persist, live, m);
    }
    if m :| m in staging && n <= m {
      PersistedMeans(staging, persist, live, m);
    }
  }

  // ---- The promise about the live directory ----

  /** The live directory a deploy is meant to leave: the bundle over the kept persist files. */
  function Promised(files: seq<File>, persist: seq<Name>, live: Option<Tree>): Tree {
    Staged(map[], files, persist, live)
  }

  /** Every leftover is overwritten, or is what would be there anyway. */
  ghost predicate Harmless(base: Tree, files: seq<File>, persist: seq<Name>, live: Option<Tree>) {
    forall n :: n in base && n !in Uploaded(files) ==> HasFile(Some(Promised(files, persist, live)), n, base[n])
  }

  lemma ExistsAnd(a: Tree, b: Tree, n: Name)
    ensures Exists(a + b, n) <==> Exists(a, n) || Exists(b, n)
  {
    if m :| m in a && n <= m {
      assert m in a + b;
    }
    if m :| m in b && n <= m {
      assert m in a + b;
    }
  }

  /** A leftover does no harm to a name that is not its own: a kept file is never also a directory. */
  lemma HarmlessElsewhere(base: Tree, files: seq<File>, persist: seq<Name>, live: Option<Tree>, n: Name)
    requires Proper(TreeOf(live)) && Harmless(base, files, persist, live) && n !in base && IsFile(live, n)
    ensures Exists(base, n) ==> Exists(Uploaded(files), n)
  {
    if m :| m in base && n <= m {
      if m !in Uploaded(files) {
        PersistedMeans(map[] + Uploaded(files), persist, live, m);
        assert false;
      }
    }
  }

  lemma StagedAt(base: Tree, files: seq<File>, persist: seq<Name>, live: Option<Tree>, n: Name)
    requires Proper(TreeOf(live)) && Harmless(base, files, persist, live)
    ensures var s, p := Staged(base, files, persist, live), Promised(files, persist, live);
      (n in s <==> n in p) && (n in s ==> s[n] == p[n])
  {
    var uploaded := Uploaded(files);
    PersistedMeans(base + uploaded, persist, live, n);
    PersistedMeans(map[] + uploaded, persist, live, n);
    assert map[] + uploaded == uploaded;
    ExistsAnd(base, uploaded, n);
    if n !in base && IsFile(live, n) {
      HarmlessElsewhere(base, files, persist, live, n);
    }
  }

  /** What is staged is what was promised exactly when the leftovers are harmless; in particular
      when there are none. */
  lemma StagedAsPromised(base: Tree, files: seq<File>, persist: seq<Name>, live: Option<Tree>)
    requires Proper(TreeOf(live))
    ensures Staged(base, files, persist, live) == Promised(files, persist, live) <==>
      Harmless(base, files, persist, live)
  {
    var s, p := Staged(base, files, persist, live), Promised(files, persist, live);
    if s == p {
      forall n | n in base && n !in Uploaded(files)
        ensures HasFile(Some(p), n, base[n])
      {
        PersistedMeans(base + Uploaded(files), persist, live, n);
      }
    }
    if Harmless(base, files, persist, live) {
      forall n
        ensures (n in s <==> n in p) && (n in s ==> s[n] == p[n])
      {
        StagedAt(base, files, persist, live, n);
      }
    }
  }

  /** The promise, file by file: the last bundle file of a name, else a listed live file under whose
      name the bundle has nothing. */
  lemma PromisedMeans(files: seq<File>, persist: seq<Name>, live: Option<Tree>, n: Name, content: string)
    requires Proper(TreeOf(live))
    ensures HasFile(Some(Promised(files, persist, live)), n, content) <==>
      || (exists i :: LastFile(files, i, n) && files[i].content == content)
      || (n in persist && HasFile(live, n, content) && forall i :: 0 <= i < |files| ==> !(n <= files[i].name))
  {
    var uploaded := Uploaded(files);
    assert map[] + uploaded == uploaded;
    PersistedMeans(uploaded, persist, live, n);
    UploadedMeans(files, n);
    UploadedExists(files, n);
  }

  lemma UploadedExists(files: seq<File>, n: Name)
    ensures Exists(Uploaded(files), n) <==> exists i :: 0 <= i < |files| && n <= files[i].name
  {
    if m :| m in Uploaded(files) && n <= m {
      UploadedMeans(files, m);
      var i :| LastFile(files, i, m);
    }
    if i :| 0 <= i < |files| && n <= files[i].name {
      NamedIsUploaded(files, i);
    }
  }

  lemma {:induction false} NamedIsUploaded(files: seq<File>, i: nat)
    requires i < |files|
    ensures files[i].name in Uploaded(files)
    decreases |files|
  {
    if i < |files| - 1 {
      assert files[..|files| - 1][i] == files[i];
      NamedIsUploaded(files[..|files| - 1], i);
    }
  }

  // ---- One deploy, seen from outside ----

  datatype Plan = Plan(files: seq<File>, persist: seq<Name>)

  /** How far a deploy got with the directories: it ended before the swap, the swap was interrupted,
      or the swap was done. */
  datatype Reach = BeforeSwap | Interrupted(point: SwapPoint) | Swapped

  datatype Attempt = Attempt(plan: Plan, base: Tree, reach: Reach)

  function StagedFor(a: Attempt, live: Option<Tree>): Tree {
    Staged(a.base, a.plan.files, a.plan.persist, live)
  }

  /** Wherever a deploy is observed, the previous contents are at the live directory or at .old, or
      the new contents are live already. */
  ghost predicate NothingLost(before: Fs, staged: Tree, s: Fs) {
    s.live == before.live || s.old_ == before.live || s.live == Some(staged)
  }

  ghost predicate LiveUntouched(before: Fs, s: Fs) {
    s.live == before.live && s.old_ == before.old_
  }

  /** What an attempt can do to the three directories. */
  ghost predicate Attempted(fs: Fs, a: Attempt, fs': Fs) {
    && (forall n :: n in a.base ==> HasFile(fs.staging, n, a.base[n]))
    && ProperFs(fs')
    && match a.reach
       case BeforeSwap => LiveUntouched(fs, fs')
       case _ => SwappedTo(fs, StagedFor(a, fs.live), a.reach, fs')
  }

  /** What the swap of a staged directory can do. */
  ghost predicate SwappedTo(fs: Fs, staged: Tree, reach: Reach, fs': Fs) {
    match reach
    case BeforeSwap => false
    case Interrupted(p) => SwapAt(fs.(staging := Some(staged)), p, fs')
    case Swapped => fs'.live == Some(staged) && fs'.staging == None && Remains(fs.live, fs'.old_)
  }

  /** The file is lost: the attempt stopped with the live directory set aside, or put a leftover in
      the place of the file. */
  predicate Loses(a: Attempt, n: Name, content: string) {
    match a.reach
    case BeforeSwap => false
    case Interrupted(Clearing) => false
    case Interrupted(SetAside) => true
    case _ => Shadowed(a.base, n, content)
  }

  /** A leftover makes the test for a free name fail, and is not the file itself. */
  predicate Shadowed(base: Tree, n: Name, content: string) {
    Exists(base, n) && !HasFile(Some(base), n, content)
  }

  /** The plan keeps n and the bundle has nothing under that name. */
  predicate Keeps(plan: Plan, n: Name) {
    n in plan.persist && !Exists(Uploaded(plan.files), n)
  }

  lemma PersistedUnlessShadowed(a: Attempt, live: Option<Tree>, n: Name, content: string)
    requires Proper(TreeOf(live)) && Keeps(a.plan, n) && HasFile(live, n, content)
    ensures HasFile(Some(StagedFor(a, live)), n, content) <==> !Shadowed(a.base, n, content)
  {
    var uploaded := Uploaded(a.plan.files);
    PersistedMeans(a.base + uploaded, a.plan.persist, live, n);
    ExistsAnd(a.base, uploaded, n);
    assert n in uploaded ==> Exists(uploaded, n);
    assert n in a.base ==> Exists(a.base, n);
  }

  /** An uncommitted persist file outlives an attempt unless that attempt loses it. */
  lemma AttemptKeepsFile(fs: Fs, a: Attempt, fs': Fs, n: Name, content: string)
    requires ProperFs(fs) && Attempted(fs, a, fs') && Keeps(a.plan, n) && HasFile(fs.live, n, content)
    ensures HasFile(fs'.live, n, content) <==> !Loses(a, n, content)
  {
    PersistedUnlessShadowed(a, fs.live, n, content);
  }

  /** Attempts one after the other, each with the state it started from and the one it ended in. */
  ghost predicate Attempts(starts: seq<Fs>, attempts: seq<Attempt>, ends: seq<Fs>) {
    && |starts| == |attempts| == |ends|
    && forall k :: 0 <= k < |attempts| ==> ProperFs(starts[k]) && Attempted(starts[k], attempts[k], ends[k])
  }

  /** Between attempts the host may write whatever it likes, but n is not taken away. */
  ghost predicate HostKeeps(starts: seq<Fs>, ends: seq<Fs>, n: Name)
    requires |starts| == |ends|
  {
    forall k :: 0 < k < |starts| && IsFile(ends[k - 1].live, n) ==> IsFile(starts[k].live, n)
  }

  /** What is in n when an attempt starts. */
  function ContentOf(fs: Fs, n: Name): string {
    if IsFile(fs.live, n) then fs.live.value[n] else ""
  }

  /** n is there when the attempt starts, and is the same when it ends. */
  predicate Kept(start: Fs, end: Fs, n: Name) {
    IsFile(start.live, n) && HasFile(end.live, n, ContentOf(start, n))
  }

  /** Attempts on a host that has an uncommitted persist file n to begin with, and goes on using it. */
  ghost predicate InUse(starts: seq<Fs>, attempts: seq<Attempt>, ends: seq<Fs>, n: Name) {
    && Attempts(starts, attempts, ends) && HostKeeps(starts, ends, n)
    && (forall a :: a in attempts ==> Keeps(a.plan, n))
    && (starts != [] ==> IsFile(starts[0].live, n))
  }

  /** The attempt loses what n held when it started. */
  predicate LosesAt(start: Fs, a: Attempt, n: Name) {
    Loses(a, n, ContentOf(start, n))
  }

  lemma OneAttempt(starts: seq<Fs>, attempts: seq<Attempt>, ends: seq<Fs>, n: Name, k: nat)
    requires InUse(starts, attempts, ends, n) && k < |attempts| && IsFile(starts[k].live, n)
    ensures Kept(starts[k], ends[k], n) <==> !LosesAt(starts[k], attempts[k], n)
  {
    assert attempts[k] in attempts;
    AttemptKeepsFile(starts[k], attempts[k], ends[k], n, ContentOf(starts[k], n));
  }

  lemma ThereAgain(starts: seq<Fs>, ends: seq<Fs>, n: Name, k: nat)
    requires |starts| == |ends| && HostKeeps(starts, ends, n) && 0 < k < |starts| && Kept(starts[k - 1], ends[k - 1], n)
    ensures IsFile(starts[k].live, n)
  {
  }

  lemma {:induction false} ThereSoFar(starts: seq<Fs>, attempts: seq<Attempt>, ends: seq<Fs>, n: Name, k: nat)
    requires InUse(starts, attempts, ends, n) && k < |attempts|
    requires forall i :: 0 <= i < k ==> !LosesAt(starts[i], attempts[i], n)
    ensures IsFile(starts[k].live, n)
  {
    if k > 0 {
      assert Kept(starts[k - 1], ends[k - 1], n) by {
        ThereSoFar(starts, attempts, ends, n, k - 1);
        OneAttempt(starts, attempts, ends, n, k - 1);
      }
      ThereAgain(starts, ends, n, k);
    }
  }

  /** Over any sequence of deploys, however they fail and whatever the host writes in between: each of
      them keeps an uncommitted persist file with the content it finds exactly if none of them loses it. */
  lemma PersistFileSurvives(starts: seq<Fs>, attempts: seq<Attempt>, ends: seq<Fs>, n: Name)
    requires InUse(starts, attempts, ends, n)
    ensures (forall k :: 0 <= k < |attempts| ==> Kept(starts[k], ends[k], n))
       <==> (forall k :: 0 <= k < |attempts| ==> !LosesAt(starts[k], attempts[k], n))
  {
    forall k | 0 <= k < |attempts| && Kept(starts[k], ends[k], n)
      ensures !LosesAt(starts[k], attempts[k], n)
    {
      OneAttempt(starts, attempts, ends, n, k);
    }
    if forall k :: 0 <= k < |attempts| ==> !LosesAt(starts[k], attempts[k], n) {
      forall k | 0 <= k < |attempts|
        ensures Kept(starts[k], ends[k], n)
      {
        ThereSoFar(starts, attempts, ends, n, k);
        OneAttempt(starts, attempts, ends, n, k);
      }
    }
  }

  /** The attempt replaced the live directory, and had found a leftover in the place of n. */
  predicate ShadowedAt(start: Fs, a: Attempt, n: Name) {
    (a.reach == Swapped || a.reach == Interrupted(InPlace)) && Shadowed(a.base, n, ContentOf(start, n))
  }

  lemma AtomicLoses(start: Fs, a: Attempt, n: Name)
    requires a.reach != Interrupted(SetAside)
    ensures LosesAt(start, a, n) <==> ShadowedAt(start, a, n)
  {
  }

  /** With the swap taken as atomic: an uncommitted persist file survives a sequence of deploys exactly
      if no deploy that replaced the live directory had found a leftover in its place. */
  lemma AtomicSwapKeepsFile(starts: seq<Fs>, attempts: seq<Attempt>, ends: seq<Fs>, n: Name)
    requires InUse(starts, attempts, ends, n)
    requires forall a :: a in attempts ==> a.reach != Interrupted(SetAside)
    ensures (forall k :: 0 <= k < |attempts| ==> Kept(starts[k], ends[k], n))
       <==> (forall k :: 0 <= k < |attempts| ==> !ShadowedAt(starts[k], attempts[k], n))
  {
    PersistFileSurvives(starts, attempts, ends, n);
    forall k | 0 <= k < |attempts|
      ensures LosesAt(starts[k], attempts[k], n) <==> ShadowedAt(starts[k], attempts[k], n)
    {
      assert attempts[k] in attempts;
      AtomicLoses(starts[k], attempts[k], n);
    }
  }

  /** And with every staging directory cleared first it survives them all. */
  lemma CleanAtomicLosesNothing(starts: seq<Fs>, attempts: seq<Attempt>, ends: seq<Fs>, n: Name)
    requires InUse(starts, attempts, ends, n)
    requires forall a :: a in attempts ==> a.base == map[] && a.reach != Interrupted(SetAside)
    ensures forall k :: 0 <= k < |attempts| ==> Kept(starts[k], ends[k], n)
  {
    AtomicSwapKeepsFile(starts, attempts, ends, n);
    forall k | 0 <= k < |attempts|
      ensures !ShadowedAt(starts[k], attempts[k], n)
    {
      assert attempts[k] in attempts;
    }
  }

  // ---- The executor ----

  /** What the remote side will have done with a command: succeeded or not, and the files after it. */
  datatype Reply = Reply(ok: bool, fs: Fs)

  /** A command and whether it was answered with success. */
  type Sending = (Command, bool)

  /** The remote side: its files, and what it was sent. */
  datatype Remote = Remote(fs: Fs, trace: seq<Sending>)

  /** What comes of a command: what the remote side decided, or nothing if that is not possible. */
  function Answer(r: Remote, c: Command, replies: nat -> Reply): Reply {
    var reply := replies(|r.trace|);
    if Effect(r.fs, c, reply.fs, reply.ok) then reply else Reply(false, r.fs)
  }

  function Sent(r: Remote, c: Command, replies: nat -> Reply): Remote {
    Remote(Answer(r, c, replies).fs, r.trace + [(c, Answer(r, c, replies).ok)])
  }

  /** Every state that a command which leaves fs' may have gone through: any it could have broken
      off in. */
  ghost function Passed(fs: Fs, c: Command, fs': Fs): iset<Fs> {
    iset s | s == fs' || Broke(fs, c, s)
  }

  /** At every point of the swap, finished or not, the previous contents are at the live directory
      or at .old. */
  lemma SwapLosesNothing(fs: Fs, fs': Fs, staged: Tree, ok: bool, s: Fs)
    requires Effect(fs, Swap, fs', ok) && s in Passed(fs, Swap, fs')
    ensures NothingLost(fs, staged, s) && (s.live == fs.live || s.old_ == fs.live)
  {
    if Broke(fs, Swap, s) {
      var p :| SwapAt(fs, p, s);
    }
  }

  /** The remote side as the executor's connection. `seen` has the states each command may have gone
      through. */
  class Connection {
    const replies: nat -> Reply
    var fs: Fs
    var trace: seq<Sending>
    ghost var seen: seq<iset<Fs>>

    function State(): Remote
      reads this
    {
      Remote(fs, trace)
    }

    constructor (fs: Fs, replies: nat -> Reply)
      ensures this.fs == fs && trace == [] && this.replies == replies && seen == [iset{fs}]
    {
      this.fs, this.replies, trace, seen := fs, replies, [], [iset{fs}];
    }

    method Run(c: Command) returns (ok: bool)
      requires ProperFs(fs)
      modifies this
      ensures Effect(old(fs), c, fs, ok) && ProperFs(fs)
      ensures State() == Sent(old(State()), c, replies) && ok == Answer(old(State()), c, replies).ok
      ensures trace == old(trace) + [(c, ok)]
      ensures seen == old(seen) + [Passed(old(fs), c, fs)]
    {
      var reply := replies(|trace|);
      if !Effect(fs, c, reply.fs, reply.ok) {
        reply := Reply(false, fs);
        assert c.Swap? ==> SwapAt(fs, Clearing, fs);
      }
      CommandKeepsProper(fs, c, reply.fs, reply.ok);
      seen := seen + [Passed(fs, c, reply.fs)];
      fs, trace, ok := reply.fs, trace + [(c, reply.ok)], reply.ok;
    }

    /** Since the state was fs0 and `seen` was seen0, nothing but the staging directory was touched. */
    ghost predicate OnlyStaging(fs0: Fs, seen0: seq<iset<Fs>>)
      reads this
    {
      && ProperFs(fs) && LiveUntouched(fs0, fs) && seen0 <= seen
      && forall k, s :: |seen0| <= k < |seen| && s in seen[k] ==> LiveUntouched(fs0, s)
    }

    /** Nor was anything lost, at whatever point of whatever command. */
    ghost predicate LostNothing(fs0: Fs, seen0: seq<iset<Fs>>, staged: Tree)
      reads this
    {
      && seen0 <= seen
      && forall k, s :: |seen0| <= k < |seen| && s in seen[k] ==> NothingLost(fs0, staged, s)
    }

    lemma StagingLosesNothing(fs0: Fs, seen0: seq<iset<Fs>>, staged: Tree)
      requires OnlyStaging(fs0, seen0)
      ensures LostNothing(fs0, seen0, staged)
    {
      forall k, s | |seen0| <= k < |seen| && s in seen[k]
        ensures NothingLost(fs0, staged, s)
      {
        assert LiveUntouched(fs0, s);
      }
    }

    method RunInStaging(c: Command, ghost fs0: Fs, ghost seen0: seq<iset<Fs>>) returns (ok: bool)
      requires OnlyStaging(fs0, seen0) && !c.Swap? && !c.RemoveOld?
      modifies this
      ensures OnlyStaging(fs0, seen0) && Effect(old(fs), c, fs, ok)
      ensures State() == Sent(old(State()), c, replies) && ok == Answer(old(State()), c, replies).ok
    {
      ok := Run(c);
    }
  }

  datatype Service = Service(name: string, state: string)

  function Lower(s: string): string {
    if s == "" then "" else [if 'A' <= s[0] <= 'Z' then s[0] - 'A' + 'a' else s[0]] + Lower(s[1..])
  }

  /** strings.EqualFold with "running". */
  predicate IsRunning(s: Service) {
    Lower(s.state) == "running"
  }

  lemma {:induction false} LowerAt(s: string)
    ensures |Lower(s)| == |s|
    ensures forall i :: 0 <= i < |s| ==>
      Lower(s)[i] == if 'A' <= s[i] <= 'Z' then s[i] - 'A' + 'a' else s[i]
  {
    if s != "" {
      LowerAt(s[1..]);
    }
  }

  /** A service is running exactly if its state is "running", each letter in either case. */
  lemma RunningMeans(s: Service)
    ensures IsRunning(s) <==>
      |s.state| == 7 && forall i :: 0 <= i < 7 ==> s.state[i] == "running"[i] || s.state[i] == "RUNNING"[i]
  {
    LowerAt(s.state);
    var lower, upper := "running", "RUNNING";
    forall i | 0 <= i < 7 && |s.state| == 7
      ensures Lower(s.state)[i] == lower[i] <==> s.state[i] == lower[i] || s.state[i] == upper[i]
    {
    }
    if |s.state| == 7 && forall i :: 0 <= i < 7 ==> Lower(s.state)[i] == lower[i] {
      assert Lower(s.state) == lower;
    }
  }

  datatype BundleFile = BundleFile(localPath: string, remoteName: string)

  datatype Failure =
    | BadBundle
    | NoComposeFiles
    | MakeStagingFailed
    | UploadFailed
    | PersistFailed
    | PreflightFailed
    | SwapFailed
    | UpFailed
    | PsFailed
    | NotRunning(service: string)

  datatype Options = Options(composeFiles: seq<string>, persistFiles: seq<string>)

  /** path.Join of a directory and a name below it, by segments. */
  function Segments(parts: seq<string>): Name {
    if parts == [] then []
    else if parts[0] == "" || parts[0] == "." then Segments(parts[1..])
    else [parts[0]] + Segments(parts[1..])
  }

  function NameOf(path: string): Name {
    Segments(Split(path, '/'))
  }

  predicate FileOk(local: map<string, string>, f: BundleFile) {
    f.remoteName != "" && f.localPath != "" && f.localPath in local
  }

  ghost predicate BundleOk(local: map<string, string>, bundle: seq<BundleFile>) {
    forall f :: f in bundle ==> FileOk(local, f)
  }

  method ValidateBundle(local: map<string, string>, bundle: seq<BundleFile>) returns (ok: bool)
    ensures ok <==> BundleOk(local, bundle)
  {
    for i := 0 to |bundle|
      invariant forall f :: f in bundle[..i] ==> FileOk(local, f)
    {
      if !FileOk(local, bundle[i]) {
        return false;
      }
    }
    assert bundle[..|bundle|] == bundle;
    return true;
  }

  function FilesOf(local: map<string, string>, bundle: seq<BundleFile>): seq<File>
    requires forall f :: f in bundle ==> FileOk(local, f)
  {
    if bundle == [] then []
    else
      assert FileOk(local, bundle[0]);
      [File(NameOf(bundle[0].remoteName), local[bundle[0].localPath])] + FilesOf(local, bundle[1..])
  }

  /** The files to upload are the bundle's, in order, each under its remote name with its local content. */
  lemma {:induction false} FilesOfMeans(local: map<string, string>, bundle: seq<BundleFile>)
    requires BundleOk(local, bundle)
    ensures |FilesOf(local, bundle)| == |bundle|
    ensures forall i :: 0 <= i < |bundle| ==>
      && bundle[i].localPath in local
      && FilesOf(local, bundle)[i] == File(NameOf(bundle[i].remoteName), local[bundle[i].localPath])
  {
    if bundle != [] {
      assert FileOk(local, bundle[0]);
      assert forall f :: f in bundle[1..] ==> f in bundle && FileOk(local, f);
      FilesOfMeans(local, bundle[1..]);
    }
  }

  /** A path of proper segments has them as its name. */
  lemma {:induction false} NameOfJoin(parts: seq<string>)
    requires parts != [] && forall part :: part in parts ==> part != "" && part != "." && '/' !in part
    ensures NameOf(Join(parts, "/")) == parts
  {
    SplitJoin(parts, '/');
    SegmentsKeep(parts);
  }

  lemma {:induction false} SegmentsKeep(parts: seq<string>)
    requires forall part :: part in parts ==> part != "" && part != "."
    ensures Segments(parts) == parts
  {
    if parts != [] {
      assert parts[0] in parts && forall part :: part in parts[1..] ==> part in parts;
      SegmentsKeep(parts[1..]);
    }
  }

  function NamesOf(names: seq<string>): seq<Name> {
    if names == [] then [] else [NameOf(names[0])] + NamesOf(names[1..])
  }

  // ---- The course of a deploy ----

  function Uploads(files: seq<File>): seq<Command> {
    seq(|files|, i requires 0 <= i < |files| => Upload(files[i].name, files[i].content))
  }

  function PersistCopies(persist: seq<Name>): seq<Command> {
    seq(|persist|, i requires 0 <= i < |persist| => CopyPersist(persist[i]))
  }

  /** Commands up to the first that fails; after that one the staging directory is cleaned up. */
  function SendAll(r: Remote, commands: seq<Command>, replies: nat -> Reply): (Remote, bool)
    decreases |commands|
  {
    if commands == [] then (r, true)
    else
      var next := Sent(r, commands[0], replies);
      if Answer(r, commands[0], replies).ok then SendAll(next, commands[1..], replies)
      else (Sent(next, RemoveStaging, replies), false)
  }

  /** From the made staging directory to the preflight. */
  function FillRun(r: Remote, files: seq<File>, persist: seq<Name>, replies: nat -> Reply): (Remote, Option<Failure>) {
    var uploaded := SendAll(r, Uploads(files), replies);
    if !uploaded.1 then (uploaded.0, Some(UploadFailed))
    else
      var copied := SendAll(uploaded.0, PersistCopies(persist), replies);
      if !copied.1 then (copied.0, Some(PersistFailed))
      else
        var accepted := SendAll(copied.0, [Preflight], replies);
        (accepted.0, if accepted.1 then None else Some(PreflightFailed))
  }

  function StageRun(r: Remote, files: seq<File>, persist: seq<Name>, replies: nat -> Reply): (Remote, Option<Failure>) {
    var cleared := Sent(r, RemoveStaging, replies);
    var made := Sent(cleared, MakeStaging, replies);
    if !Answer(cleared, MakeStaging, replies).ok then (made, Some(MakeStagingFailed))
    else FillRun(made, files, persist, replies)
  }

  function SwapRun(r: Remote, replies: nat -> Reply): (Remote, Option<Failure>) {
    var swapped := Sent(r, Swap, replies);
    if Answer(r, Swap, replies).ok then (Sent(swapped, RemoveOld, replies), None) else (swapped, Some(SwapFailed))
  }

  /** The first service that is not running decides. */
  function Verdict(services: seq<Service>): Option<Failure> {
    if services == [] then None
    else if IsRunning(services[0]) then Verdict(services[1..])
    else Some(NotRunning(services[0].name))
  }

  function StartRun(r: Remote, services: Option<seq<Service>>, replies: nat -> Reply): (Remote, Option<Failure>) {
    (Sent(r, Up, replies),
     if !Answer(r, Up, replies).ok then Some(UpFailed)
     else if services.None? then Some(PsFailed)
     else Verdict(services.value))
  }

  function DeployRun(r: Remote, files: seq<File>, persist: seq<Name>, services: Option<seq<Service>>,
                     replies: nat -> Reply)
    : (Remote, Option<Failure>)
  {
    var staged := StageRun(r, files, persist, replies);
    if staged.1.Some? then staged
    else
      var swapped := SwapRun(staged.0, replies);
      if swapped.1.Some? then swapped else StartRun(swapped.0, services, replies)
  }

  // ---- What is sent, in which order, and what ends it ----

  /** The commands of a deploy that nothing stops. */
  function AllCommands(files: seq<File>, persist: seq<Name>): seq<Command> {
    [RemoveStaging, MakeStaging] + Uploads(files) + PersistCopies(persist) + [Preflight, Swap, RemoveOld, Up]
  }

  /** Commands whose failure does not matter. */
  predicate BestEffort(c: Command) {
    c == RemoveStaging || c == RemoveOld
  }

  /** Commands after whose failure the staging directory is cleaned up. */
  predicate CleansUp(c: Command) {
    c.Upload? || c.CopyPersist? || c == Preflight
  }

  /** The commands were sent one after the other, and each that matters succeeded. */
  predicate Followed(sent: seq<Sending>, commands: seq<Command>) {
    && |sent| == |commands|
    && forall k :: 0 <= k < |sent| ==> sent[k].0 == commands[k] && (sent[k].1 || BestEffort(commands[k]))
  }

  /** The n-th command was the first that matters to fail, and the last to be sent but for its cleanup. */
  predicate BrokeOff(sent: seq<Sending>, commands: seq<Command>, n: nat) {
    && n < |commands| && n < |sent| && !BestEffort(commands[n])
    && Followed(sent[..n], commands[..n]) && sent[n] == (commands[n], false)
    && if CleansUp(commands[n]) then |sent| == n + 2 && sent[n + 1].0 == RemoveStaging else |sent| == n + 1
  }

  function FailureOf(c: Command): Failure
    requires !BestEffort(c)
  {
    match c
    case MakeStaging => MakeStagingFailed
    case Upload(_, _) => UploadFailed
    case CopyPersist(_) => PersistFailed
    case Preflight => PreflightFailed
    case Swap => SwapFailed
    case Up => UpFailed
  }

  /** What was sent, and the error it ends in. */
  ghost predicate Course(sent: seq<Sending>, commands: seq<Command>, error: Option<Failure>) {
    || (Followed(sent, commands) && (error.None? || error == Some(PsFailed) || error.value.NotRunning?))
    || exists n: nat :: BrokeOff(sent, commands, n) && error == Some(FailureOf(commands[n]))
  }

  lemma BrokeOffLater(a: seq<Sending>, b: seq<Sending>, c: seq<Command>, d: seq<Command>, n: nat)
    requires Followed(a, c) && BrokeOff(b, d, n)
    ensures BrokeOff(a + b, c + d, |c| + n) && (c + d)[|c| + n] == d[n]
  {
    assert (a + b)[..|c| + n] == a + b[..n];
    assert (c + d)[..|c| + n] == c + d[..n];
  }

  lemma BrokeOffEarlier(a: seq<Sending>, c: seq<Command>, d: seq<Command>, n: nat)
    requires BrokeOff(a, c, n)
    ensures BrokeOff(a, c + d, n) && (c + d)[n] == c[n]
  {
    assert (c + d)[..n] == c[..n];
  }

  lemma FollowedThenCourse(a: seq<Sending>, b: seq<Sending>, c: seq<Command>, d: seq<Command>, error: Option<Failure>)
    requires Followed(a, c) && Course(b, d, error)
    ensures Course(a + b, c + d, error)
  {
    if n: nat :| BrokeOff(b, d, n) && error == Some(FailureOf(d[n])) {
      BrokeOffLater(a, b, c, d, n);
    } else {
      assert Followed(a + b, c + d);
    }
  }

  lemma BrokenCourse(a: seq<Sending>, c: seq<Command>, d: seq<Command>, n: nat)
    requires BrokeOff(a, c, n)
    ensures Course(a, c + d, Some(FailureOf(c[n])))
  {
    BrokeOffEarlier(a, c, d, n);
  }

  /** What sending the commands appended to the trace. */
  function NewSince(r: Remote, r': Remote): seq<Sending>
    requires r.trace <= r'.trace
  {
    r'.trace[|r.trace|..]
  }

  lemma NewSinceJoins(a: Remote, b: Remote, c: Remote)
    requires a.trace <= b.trace <= c.trace
    ensures a.trace <= c.trace && NewSince(a, c) == NewSince(a, b) + NewSince(b, c)
  {
    assert c.trace == b.trace + NewSince(b, c);
    assert b.trace == a.trace + NewSince(a, b);
  }

  /** One command more in front. */
  lemma SentFirst(r: Remote, c: Command, next: Remote, end: Remote, later: seq<Command>, n: nat)
    requires next.trace == r.trace + [(c, true)] && next.trace <= end.trace
    ensures r.trace <= end.trace
    ensures Followed(NewSince(next, end), later) ==> Followed(NewSince(r, end), [c] + later)
    ensures BrokeOff(NewSince(next, end), later, n) ==> BrokeOff(NewSince(r, end), [c] + later, n + 1)
  {
    NewSinceJoins(r, next, end);
    var sent := NewSince(next, end);
    assert NewSince(r, end) == [(c, true)] + sent;
    assert Followed([(c, true)], [c]);
    if Followed(sent, later) {
      FollowedBoth([(c, true)], sent, [c], later);
    }
    if BrokeOff(sent, later, n) {
      BrokeOffLater([(c, true)], sent, [c], later, n);
    }
  }

  lemma FollowedBoth(a: seq<Sending>, b: seq<Sending>, c: seq<Command>, d: seq<Command>)
    requires Followed(a, c) && Followed(b, d)
    ensures Followed(a + b, c + d)
  {
  }

  lemma {:induction false} SendAllCourse(r: Remote, commands: seq<Command>, replies: nat -> Reply) returns (n: nat)
    requires forall c :: c in commands ==> CleansUp(c)
    ensures var end := SendAll(r, commands, replies);
      && r.trace <= end.0.trace
      && (end.1 ==> Followed(NewSince(r, end.0), commands))
      && (!end.1 ==> BrokeOff(NewSince(r, end.0), commands, n))
    decreases |commands|
  {
    n := 0;
    if commands != [] {
      var next, later := Sent(r, commands[0], replies), commands[1..];
      assert commands[0] in commands;
      assert [commands[0]] + later == commands;
      if Answer(r, commands[0], replies).ok {
        n := SendAllCourse(next, later, replies);
        SentFirst(r, commands[0], next, SendAll(next, later, replies).0, later, n);
        n := n + 1;
      } else {
        var sent := NewSince(r, SendAll(r, commands, replies).0);
        assert sent[0] == (commands[0], false) && |sent| == 2 && sent[1].0 == RemoveStaging;
      }
    }
  }

  /** What follows the uploads and copies, from a staged bundle on. */
  lemma SwapCourse(r: Remote, services: Option<seq<Service>>, replies: nat -> Reply)
    ensures var swapped := SwapRun(r, replies);
      var end := if swapped.1.Some? then swapped else StartRun(swapped.0, services, replies);
      r.trace <= end.0.trace && Course(NewSince(r, end.0), [Swap, RemoveOld, Up], end.1)
  {
    var swapped := SwapRun(r, replies);
    var end := if swapped.1.Some? then swapped else StartRun(swapped.0, services, replies);
    var sent := NewSince(r, end.0);
    if swapped.1.Some? {
      assert end.0.trace == r.trace + [(Swap, false)];
      assert sent == [(Swap, false)];
      assert BrokeOff(sent, [Swap, RemoveOld, Up], 0);
    } else {
      var mid := Sent(r, Swap, replies);
      var old_, up := Answer(mid, RemoveOld, replies).ok, Answer(swapped.0, Up, replies).ok;
      assert end.0.trace == r.trace + [(Swap, true), (RemoveOld, old_), (Up, up)];
      assert sent == [(Swap, true), (RemoveOld, old_), (Up, up)];
      if up {
        VerdictKinds(services);
        assert Followed(sent, [Swap, RemoveOld, Up]);
      } else {
        assert sent[..2] == [(Swap, true), (RemoveOld, old_)];
        assert BrokeOff(sent, [Swap, RemoveOld, Up], 2);
      }
    }
  }

  lemma VerdictKinds(services: Option<seq<Service>>)
    ensures services.Some? && Verdict(services.value).Some? ==> Verdict(services.value).value.NotRunning?
    decreases if services.Some? then |services.value| else 0
  {
    if services.Some? && services.value != [] {
      VerdictKinds(Some(services.value[1..]));
    }
  }

  /** From a staging directory that was made to its preflight and beyond. */
  lemma PreflightCourse(r: Remote, services: Option<seq<Service>>, replies: nat -> Reply)
    ensures var p := SendAll(r, [Preflight], replies);
      var swapped := SwapRun(p.0, replies);
      var end := if !p.1 then (p.0, Some(PreflightFailed))
                 else if swapped.1.Some? then swapped else StartRun(swapped.0, services, replies);
      r.trace <= end.0.trace && Course(NewSince(r, end.0), [Preflight] + [Swap, RemoveOld, Up], end.1)
  {
    var p := SendAll(r, [Preflight], replies);
    var n := SendAllCourse(r, [Preflight], replies);
    if p.1 {
      SwapCourse(p.0, services, replies);
      var swapped := SwapRun(p.0, replies);
      var end := if swapped.1.Some? then swapped else StartRun(swapped.0, services, replies);
      NewSinceJoins(r, p.0, end.0);
      FollowedThenCourse(NewSince(r, p.0), NewSince(p.0, end.0), [Preflight], [Swap, RemoveOld, Up], end.1);
    } else {
      BrokenCourse(NewSince(r, p.0), [Preflight], [Swap, RemoveOld, Up], n);
    }
  }

  /** Commands that clean up, and then the rest. */
  lemma AllThenCourse(r: Remote, commands: seq<Command>, later: seq<Command>, failure: Failure,
                      rest: (Remote, Option<Failure>), replies: nat -> Reply)
    returns (end: (Remote, Option<Failure>))
    requires forall c :: c in commands ==> CleansUp(c) && FailureOf(c) == failure
    requires var all := SendAll(r, commands, replies);
      all.1 ==> all.0.trace <= rest.0.trace && Course(NewSince(all.0, rest.0), later, rest.1)
    ensures var all := SendAll(r, commands, replies); end == if all.1 then rest else (all.0, Some(failure))
    ensures r.trace <= end.0.trace && Course(NewSince(r, end.0), commands + later, end.1)
  {
    var all := SendAll(r, commands, replies);
    var n := SendAllCourse(r, commands, replies);
    if all.1 {
      end := rest;
      NewSinceJoins(r, all.0, rest.0);
      FollowedThenCourse(NewSince(r, all.0), NewSince(all.0, rest.0), commands, later, rest.1);
    } else {
      end := (all.0, Some(failure));
      assert commands[n] in commands;
      BrokenCourse(NewSince(r, all.0), commands, later, n);
    }
  }

  /** What is left of a deploy once the staging directory was made. */
  function AfterMade(r: Remote, files: seq<File>, persist: seq<Name>, services: Option<seq<Service>>,
                     replies: nat -> Reply): (Remote, Option<Failure>) {
    var filled := FillRun(r, files, persist, replies);
    if filled.1.Some? then filled
    else
      var swapped := SwapRun(filled.0, replies);
      if swapped.1.Some? then swapped else StartRun(swapped.0, services, replies)
  }

  const LAST_COMMANDS := [Preflight] + [Swap, RemoveOld, Up]

  lemma AfterMadeCourse(r: Remote, files: seq<File>, persist: seq<Name>, services: Option<seq<Service>>,
                        replies: nat -> Reply)
    ensures var end := AfterMade(r, files, persist, services, replies);
      && r.trace <= end.0.trace
      && Course(NewSince(r, end.0), Uploads(files) + (PersistCopies(persist) + LAST_COMMANDS), end.1)
  {
    var uploaded := SendAll(r, Uploads(files), replies);
    var copied := SendAll(uploaded.0, PersistCopies(persist), replies);
    var p := SendAll(copied.0, [Preflight], replies);
    var swapped := SwapRun(p.0, replies);
    var third := if !p.1 then (p.0, Some(PreflightFailed))
                 else if swapped.1.Some? then swapped else StartRun(swapped.0, services, replies);
    PreflightCourse(copied.0, services, replies);
    var second := AllThenCourse(uploaded.0, PersistCopies(persist), LAST_COMMANDS, PersistFailed, third, replies);
    var later := PersistCopies(persist) + LAST_COMMANDS;
    var first := AllThenCourse(r, Uploads(files), later, UploadFailed, second, replies);
    assert first == AfterMade(r, files, persist, services, replies);
  }

  lemma DeployRunAfterMade(r: Remote, files: seq<File>, persist: seq<Name>, services: Option<seq<Service>>,
                           replies: nat -> Reply)
    ensures var cleared := Sent(r, RemoveStaging, replies);
      var made := Sent(cleared, MakeStaging, replies);
      DeployRun(r, files, persist, services, replies)
      == if Answer(cleared, MakeStaging, replies).ok then AfterMade(made, files, persist, services, replies)
         else (made, Some(MakeStagingFailed))
  {
  }

  lemma MadeOrNot(sent: seq<Sending>, cleared: bool, middle: seq<Command>)
    requires sent == [(RemoveStaging, cleared), (MakeStaging, false)]
    ensures Course(sent, [RemoveStaging, MakeStaging] + middle, Some(MakeStagingFailed))
  {
    assert sent[..1] == [(RemoveStaging, cleared)] && [RemoveStaging, MakeStaging][..1] == [RemoveStaging];
    assert BrokeOff(sent, [RemoveStaging, MakeStaging], 1);
    BrokenCourse(sent, [RemoveStaging, MakeStaging], middle, 1);
  }

  /** Whatever the answers, a deploy sends its commands in order up to the first that matters to fail, and
      ends in the error of that one, or in the verdict on the services. */
  lemma DeployCourse(r: Remote, files: seq<File>, persist: seq<Name>, services: Option<seq<Service>>,
                     replies: nat -> Reply)
    ensures var end := DeployRun(r, files, persist, services, replies);
      r.trace <= end.0.trace && Course(NewSince(r, end.0), AllCommands(files, persist), end.1)
  {
    var cleared := Sent(r, RemoveStaging, replies);
    var made := Sent(cleared, MakeStaging, replies);
    var end := DeployRun(r, files, persist, services, replies);
    var middle := Uploads(files) + (PersistCopies(persist) + LAST_COMMANDS);
    assert AllCommands(files, persist) == [RemoveStaging, MakeStaging] + middle;
    DeployRunAfterMade(r, files, persist, services, replies);
    var first, second := Answer(r, RemoveStaging, replies).ok, Answer(cleared, MakeStaging, replies).ok;
    assert made.trace == r.trace + [(RemoveStaging, first), (MakeStaging, second)];
    assert NewSince(r, made) == [(RemoveStaging, first), (MakeStaging, second)];
    if second {
      AfterMadeCourse(made, files, persist, services, replies);
      NewSinceJoins(r, made, end.0);
      FollowedThenCourse(NewSince(r, made), NewSince(made, end.0), [RemoveStaging, MakeStaging], middle, end.1);
    } else {
      MadeOrNot(NewSince(r, made), first, middle);
    }
  }

  // ---- What that promises ----

  predicate Succeeded(sent: seq<Sending>, c: Command) {
    (c, true) in sent
  }

  /** The swap is sent only after a preflight that succeeded. */
  predicate SwapsAfterPreflight(sent: seq<Sending>) {
    forall k :: 0 <= k < |sent| && sent[k].0 == Swap ==> exists j :: 0 <= j < k && sent[j] == (Preflight, true)
  }

  /** A preflight that fails ends the deploy. */
  predicate PreflightDecides(sent: seq<Sending>, error: Option<Failure>) {
    (Preflight, false) in sent ==> error == Some(PreflightFailed) && (Swap, true) !in sent && (Swap, false) !in sent
  }

  /** Every bundle file was uploaded, every persist file looked at, and preflight, swap and up done. */
  predicate AllDone(sent: seq<Sending>, files: seq<File>, persist: seq<Name>) {
    && Succeeded(sent, MakeStaging) && Succeeded(sent, Preflight) && Succeeded(sent, Swap) && Succeeded(sent, Up)
    && (forall i :: 0 <= i < |files| ==> Succeeded(sent, Upload(files[i].name, files[i].content)))
    && (forall i :: 0 <= i < |persist| ==> Succeeded(sent, CopyPersist(persist[i])))
  }

  /** The error names the one command that failed, if its failure matters; and without such a command all
      was done, whatever the services turn out to be. */
  predicate ErrorTells(sent: seq<Sending>, files: seq<File>, persist: seq<Name>, error: Option<Failure>) {
    && (forall k :: 0 <= k < |sent| && !sent[k].1 && !BestEffort(sent[k].0) ==> error == Some(FailureOf(sent[k].0)))
    && (error.None? || error == Some(PsFailed) || error.value.NotRunning? ==> AllDone(sent, files, persist))
  }

  /** The staging directory is cleared first, and again after a failure in it; the directory set aside is
      removed once the swap is done. */
  predicate CleansBehind(sent: seq<Sending>) {
    && sent != [] && sent[0].0 == RemoveStaging
    && (forall k :: 0 <= k < |sent| && !sent[k].1
                    && (sent[k].0.Upload? || sent[k].0.CopyPersist? || sent[k].0 == Preflight) ==>
          k + 1 < |sent| && sent[k + 1].0 == RemoveStaging)
    && (forall k :: 0 <= k < |sent| && sent[k] == (Swap, true) ==> k + 1 < |sent| && sent[k + 1].0 == RemoveOld)
  }

  ghost predicate Promises(sent: seq<Sending>, files: seq<File>, persist: seq<Name>, error: Option<Failure>) {
    && SwapsAfterPreflight(sent) && PreflightDecides(sent, error) && ErrorTells(sent, files, persist, error)
    && CleansBehind(sent)
  }

  lemma CommandPlaces(files: seq<File>, persist: seq<Name>)
    ensures var all, p := AllCommands(files, persist), 2 + |files| + |persist|;
      && |all| == p + 4 && all[0] == RemoveStaging && all[1] == MakeStaging
      && all[p] == Preflight && all[p + 1] == Swap && all[p + 2] == RemoveOld && all[p + 3] == Up
      && (forall k :: 2 <= k < p ==> all[k].Upload? || all[k].CopyPersist?)
      && (forall i :: 0 <= i < |files| ==> all[2 + i] == Upload(files[i].name, files[i].content))
      && (forall i :: 0 <= i < |persist| ==> all[2 + |files| + i] == CopyPersist(persist[i]))
  {
  }

  lemma FollowedPromises(sent: seq<Sending>, files: seq<File>, persist: seq<Name>, error: Option<Failure>)
    requires Followed(sent, AllCommands(files, persist))
    requires error.None? || error == Some(PsFailed) || error.value.NotRunning?
    ensures Promises(sent, files, persist, error)
  {
    CommandPlaces(files, persist);
    var p := 2 + |files| + |persist|;
    assert sent[p] == (Preflight, true) && sent[p + 1] == (Swap, true) && sent[p + 3] == (Up, true);
    assert sent[1] == (MakeStaging, true);
    forall i | 0 <= i < |files|
      ensures Succeeded(sent, Upload(files[i].name, files[i].content))
    {
      assert sent[2 + i] == (Upload(files[i].name, files[i].content), true);
    }
    forall i | 0 <= i < |persist|
      ensures Succeeded(sent, CopyPersist(persist[i]))
    {
      assert sent[2 + |files| + i] == (CopyPersist(persist[i]), true);
    }
  }

  /** What was sent up to the failure, place by place. */
  lemma BrokeOffPlaces(sent: seq<Sending>, files: seq<File>, persist: seq<Name>, n: nat)
    requires BrokeOff(sent, AllCommands(files, persist), n)
    ensures var all := AllCommands(files, persist);
      && n < |all| && n < |sent| <= n + 2
      && (forall k :: 0 <= k <= n ==> sent[k].0 == all[k])
      && (forall k :: 0 <= k < n ==> sent[k].1 || BestEffort(all[k]))
      && (|sent| == n + 2 ==> sent[n + 1].0 == RemoveStaging)
  {
    var all := AllCommands(files, persist);
    forall k | 0 <= k < n
      ensures sent[k].0 == all[k] && (sent[k].1 || BestEffort(all[k]))
    {
      assert sent[k] == sent[..n][k] && all[..n][k] == all[k];
    }
  }

  lemma BrokeOffOrder(sent: seq<Sending>, files: seq<File>, persist: seq<Name>, n: nat)
    requires BrokeOff(sent, AllCommands(files, persist), n)
    ensures SwapsAfterPreflight(sent)
  {
    BrokeOffPlaces(sent, files, persist, n);
    CommandPlaces(files, persist);
    var p := 2 + |files| + |persist|;
    forall k | 0 <= k < |sent| && sent[k].0 == Swap
      ensures p < k && sent[p] == (Preflight, true)
    {
      assert k <= n && AllCommands(files, persist)[k] == Swap;
    }
  }

  lemma BrokeOffAtPreflight(sent: seq<Sending>, files: seq<File>, persist: seq<Name>, n: nat)
    requires BrokeOff(sent, AllCommands(files, persist), n)
    ensures PreflightDecides(sent, Some(FailureOf(AllCommands(files, persist)[n])))
  {
    BrokeOffPlaces(sent, files, persist, n);
    CommandPlaces(files, persist);
  }

  lemma BrokeOffTells(sent: seq<Sending>, files: seq<File>, persist: seq<Name>, n: nat)
    requires BrokeOff(sent, AllCommands(files, persist), n)
    ensures ErrorTells(sent, files, persist, Some(FailureOf(AllCommands(files, persist)[n])))
    ensures CleansBehind(sent)
  {
    BrokeOffPlaces(sent, files, persist, n);
    CommandPlaces(files, persist);
  }

  lemma BrokeOffPromises(sent: seq<Sending>, files: seq<File>, persist: seq<Name>, n: nat)
    requires BrokeOff(sent, AllCommands(files, persist), n)
    ensures Promises(sent, files, persist, Some(FailureOf(AllCommands(files, persist)[n])))
  {
    BrokeOffOrder(sent, files, persist, n);
    BrokeOffAtPreflight(sent, files, persist, n);
    BrokeOffTells(sent, files, persist, n);
  }

  lemma CoursePromises(sent: seq<Sending>, files: seq<File>, persist: seq<Name>, error: Option<Failure>)
    requires Course(sent, AllCommands(files, persist), error)
    ensures Promises(sent, files, persist, error)
  {
    var all := AllCommands(files, persist);
    if n: nat :| BrokeOff(sent, all, n) && error == Some(FailureOf(all[n])) {
      BrokeOffPromises(sent, files, persist, n);
    } else {
      FollowedPromises(sent, files, persist, error);
    }
  }

  lemma DeployPromises(r: Remote, files: seq<File>, persist: seq<Name>, services: Option<seq<Service>>,
                       replies: nat -> Reply)
    ensures var end := DeployRun(r, files, persist, services, replies);
      r.trace <= end.0.trace && Promises(NewSince(r, end.0), files, persist, end.1)
  {
    DeployCourse(r, files, persist, services, replies);
    var end := DeployRun(r, files, persist, services, replies);
    CoursePromises(NewSince(r, end.0), files, persist, end.1);
  }

  /** Which errors come before, in and after the swap. */
  predicate ReachFits(error: Option<Failure>, reach: Reach) {
    match error
    case None => reach == Swapped
    case Some(SwapFailed) => reach.Interrupted?
    case Some(f) => reach == if f.UpFailed? || f.PsFailed? || f.NotRunning? then Swapped else BeforeSwap
  }

  /** Success means that every service runs, and the other verdict names one that does not. */
  predicate ServicesFit(error: Option<Failure>, services: Option<seq<Service>>) {
    && (error.None? ==> services.Some? && forall s :: s in services.value ==> IsRunning(s))
    && (error.Some? && error.value.NotRunning? ==>
          services.Some? && exists s :: s in services.value && !IsRunning(s) && s.name == error.value.service)
  }

  class Executor {
    const connection: Connection

    constructor (connection: Connection)
      ensures this.connection == connection
    {
      this.connection := connection;
    }

    method UploadBundle(files: seq<File>, ghost base: Tree, ghost fs0: Fs, ghost seen0: seq<iset<Fs>>)
      returns (ok: bool)
      requires connection.OnlyStaging(fs0, seen0) && connection.fs.staging == Some(base)
      modifies connection
      ensures connection.OnlyStaging(fs0, seen0)
      ensures ok ==> connection.fs.staging == Some(base + Uploaded(files))
      ensures (connection.State(), ok) == SendAll(old(connection.State()), Uploads(files), connection.replies)
    {
      var commands := Uploads(files);
      assert base + Uploaded(files[..0]) == base;
      for i := 0 to |files|
        invariant connection.OnlyStaging(fs0, seen0)
        invariant connection.fs.staging == Some(base + Uploaded(files[..i]))
        invariant SendAll(connection.State(), commands[i..], connection.replies)
          == SendAll(old(connection.State()), commands, connection.replies)
      {
        assert commands[i..][1..] == commands[i + 1..];
        ok := connection.RunInStaging(Upload(files[i].name, files[i].content), fs0, seen0);
        UploadedStep(base, files, i);
        if !ok {
          var _ := connection.RunInStaging(RemoveStaging, fs0, seen0);
          return false;
        }
      }
      assert files[..|files|] == files;
      return true;
    }

    method CopyPersistFiles(persist: seq<Name>, ghost staged: Tree, ghost fs0: Fs, ghost seen0: seq<iset<Fs>>)
      returns (ok: bool)
      requires connection.OnlyStaging(fs0, seen0) && connection.fs.staging == Some(staged)
      modifies connection
      ensures connection.OnlyStaging(fs0, seen0)
      ensures ok ==> connection.fs.staging == Some(WithPersisted(staged, persist, fs0.live))
      ensures (connection.State(), ok) == SendAll(old(connection.State()), PersistCopies(persist), connection.replies)
    {
      var commands := PersistCopies(persist);
      for i := 0 to |persist|
        invariant connection.OnlyStaging(fs0, seen0)
        invariant connection.fs.staging == Some(WithPersisted(staged, persist[..i], fs0.live))
        invariant SendAll(connection.State(), commands[i..], connection.replies)
          == SendAll(old(connection.State()), commands, connection.replies)
      {
        assert persist[..i + 1][..i] == persist[..i];
        assert commands[i..][1..] == commands[i + 1..];
        ok := connection.RunInStaging(CopyPersist(persist[i]), fs0, seen0);
        if !ok {
          var _ := connection.RunInStaging(RemoveStaging, fs0, seen0);
          return false;
        }
      }
      assert persist[..|persist|] == persist;
      return true;
    }

    /** From clearing the staging directory to the preflight. */
    method Stage(files: seq<File>, persist: seq<Name>) returns (error: Option<Failure>, ghost base: Tree)
      requires ProperFs(connection.fs)
      modifies connection
      ensures connection.OnlyStaging(old(connection.fs), old(connection.seen))
      ensures forall n :: n in base ==> HasFile(old(connection.fs).staging, n, base[n])
      ensures error.None? ==> connection.fs.staging == Some(Staged(base, files, persist, old(connection.fs).live))
      ensures error.Some? ==> error.value in {MakeStagingFailed, UploadFailed, PersistFailed, PreflightFailed}
      ensures (connection.State(), error) == StageRun(old(connection.State()), files, persist, connection.replies)
    {
      ghost var fs0, seen0 := connection.fs, connection.seen;
      base := map[];
      var _ := connection.RunInStaging(RemoveStaging, fs0, seen0);
      var made := connection.RunInStaging(MakeStaging, fs0, seen0);
      if !made {
        return Some(MakeStagingFailed), base;
      }
      base := connection.fs.staging.value;
      error := Fill(files, persist, base, fs0, seen0);
    }

    /** Filling the staging directory, and the preflight. */
    method Fill(files: seq<File>, persist: seq<Name>, ghost base: Tree, ghost fs0: Fs, ghost seen0: seq<iset<Fs>>)
      returns (error: Option<Failure>)
      requires connection.OnlyStaging(fs0, seen0) && connection.fs.staging == Some(base)
      modifies connection
      ensures connection.OnlyStaging(fs0, seen0)
      ensures error.None? ==> connection.fs.staging == Some(Staged(base, files, persist, fs0.live))
      ensures error.Some? ==> error.value in {UploadFailed, PersistFailed, PreflightFailed}
      ensures (connection.State(), error) == FillRun(old(connection.State()), files, persist, connection.replies)
    {
      var uploaded := UploadBundle(files, base, fs0, seen0);
      if !uploaded {
        return Some(UploadFailed);
      }
      var copied := CopyPersistFiles(persist, base + Uploaded(files), fs0, seen0);
      if !copied {
        return Some(PersistFailed);
      }
      var accepted := connection.RunInStaging(Preflight, fs0, seen0);
      if !accepted {
        var _ := connection.RunInStaging(RemoveStaging, fs0, seen0);
        return Some(PreflightFailed);
      }
      return None;
    }

    /** The whole deploy. `services` is what `docker compose ps` reports, None when that fails or
        cannot be parsed. */
    method Deploy(local: map<string, string>, bundle: seq<BundleFile>, options: Options, services: Option<seq<Service>>)
      returns (error: Option<Failure>, ghost attempt: Attempt)
      requires ProperFs(connection.fs)
      modifies connection
      ensures Attempted(old(connection.fs), attempt, connection.fs)
      ensures attempt.plan.persist == NamesOf(options.persistFiles)
      ensures BundleOk(local, bundle) ==> attempt.plan.files == FilesOf(local, bundle)
      ensures error == Some(BadBundle) <==> !BundleOk(local, bundle)
      ensures error == Some(BadBundle) <==>
        exists f :: f in bundle && (f.remoteName == "" || f.localPath == "" || f.localPath !in local)
      ensures error == Some(NoComposeFiles) <==> BundleOk(local, bundle) && options.composeFiles == []
      ensures ReachFits(error, attempt.reach) && ServicesFit(error, services)
      ensures connection.LostNothing(old(connection.fs), old(connection.seen),
                                     StagedFor(attempt, old(connection.fs).live))
      ensures error == Some(BadBundle) || error == Some(NoComposeFiles) ==> connection.trace == old(connection.trace)
      ensures error == Some(PreflightFailed) ==> LiveUntouched(old(connection.fs), connection.fs)
      ensures BundleOk(local, bundle) && options.composeFiles != [] ==>
        && old(connection.trace) <= connection.trace
        && Promises(connection.trace[|old(connection.trace)|..], FilesOf(local, bundle),
                    NamesOf(options.persistFiles), error)
      ensures BundleOk(local, bundle) && options.composeFiles != [] ==>
        (connection.State(), error)
        == DeployRun(old(connection.State()), FilesOf(local, bundle), NamesOf(options.persistFiles), services,
                     connection.replies)
    {
      attempt := Attempt(Plan([], NamesOf(options.persistFiles)), map[], BeforeSwap);
      var valid := ValidateBundle(local, bundle);
      if !valid {
        return Some(BadBundle), attempt;
      }
      var files := FilesOf(local, bundle);
      attempt := attempt.(plan := Plan(files, NamesOf(options.persistFiles)));
      if |options.composeFiles| == 0 {
        return Some(NoComposeFiles), attempt;
      }
      error, attempt := DeployFiles(files, NamesOf(options.persistFiles), services);
      DeployPromises(old(connection.State()), files, NamesOf(options.persistFiles), services, connection.replies);
    }

    /** Stage, swap, up and the look at the services. */
    method DeployFiles(files: seq<File>, persist: seq<Name>, services: Option<seq<Service>>)
      returns (error: Option<Failure>, ghost attempt: Attempt)
      requires ProperFs(connection.fs)
      modifies connection
      ensures Attempted(old(connection.fs), attempt, connection.fs) && attempt.plan == Plan(files, persist)
      ensures error != Some(BadBundle) && error != Some(NoComposeFiles)
      ensures ReachFits(error, attempt.reach) && ServicesFit(error, services)
      ensures connection.LostNothing(old(connection.fs), old(connection.seen),
                                     StagedFor(attempt, old(connection.fs).live))
      ensures (connection.State(), error)
        == DeployRun(old(connection.State()), files, persist, services, connection.replies)
    {
      ghost var fs0, seen0 := connection.fs, connection.seen;
      ghost var base, reach;
      error, base := Stage(files, persist);
      attempt := Attempt(Plan(files, persist), base, BeforeSwap);
      connection.StagingLosesNothing(fs0, seen0, StagedFor(attempt, fs0.live));
      if error.Some? {
        return error, attempt;
      }
      error, reach := SwapIn(StagedFor(attempt, fs0.live), fs0, seen0);
      attempt := attempt.(reach := reach);
      if error.Some? {
        return error, attempt;
      }
      error := Start(services, StagedFor(attempt, fs0.live), fs0, seen0);
    }

    /** The swap itself and the removal of the directory it set aside. */
    method SwapIn(ghost staged: Tree, ghost fs0: Fs, ghost seen0: seq<iset<Fs>>)
      returns (error: Option<Failure>, ghost reach: Reach)
      requires connection.OnlyStaging(fs0, seen0) && connection.fs.staging == Some(staged)
      modifies connection
      ensures ProperFs(connection.fs) && SwappedTo(fs0, staged, reach, connection.fs)
      ensures if error == None then reach == Swapped else error == Some(SwapFailed) && reach.Interrupted?
      ensures connection.LostNothing(fs0, seen0, staged)
      ensures (connection.State(), error) == SwapRun(old(connection.State()), connection.replies)
    {
      ghost var before := connection.fs;
      connection.StagingLosesNothing(fs0, seen0, staged);
      var swapped := connection.Run(Swap);
      forall s | s in Passed(before, Swap, connection.fs)
        ensures NothingLost(fs0, staged, s)
      {
        SwapLosesNothing(before, connection.fs, staged, swapped, s);
      }
      if !swapped {
        ghost var point :| SwapAt(before, point, connection.fs);
        return Some(SwapFailed), Interrupted(point);
      }
      var _ := connection.Run(RemoveOld);
      return None, Swapped;
    }

    /** Bringing the services up and looking at them. */
    method Start(services: Option<seq<Service>>, ghost staged: Tree, ghost fs0: Fs, ghost seen0: seq<iset<Fs>>)
      returns (error: Option<Failure>)
      requires ProperFs(connection.fs) && connection.LostNothing(fs0, seen0, staged)
      requires connection.fs.live == Some(staged)
      modifies connection
      ensures connection.fs == old(connection.fs) && connection.LostNothing(fs0, seen0, staged)
      ensures error.Some? ==> error.value == UpFailed || error.value == PsFailed || error.value.NotRunning?
      ensures ServicesFit(error, services)
      ensures (connection.State(), error) == StartRun(old(connection.State()), services, connection.replies)
    {
      var up := connection.Run(Up);
      if !up {
        return Some(UpFailed);
      }
      error := Verify(services);
    }

    /** The look at the running services. */
    method Verify(services: Option<seq<Service>>) returns (error: Option<Failure>)
      ensures error.None? <==> services.Some? && forall s :: s in services.value ==> IsRunning(s)
      ensures error.Some? ==> error.value == PsFailed || error.value.NotRunning?
      ensures error == Some(PsFailed) <==> services.None?
      ensures ServicesFit(error, services)
      ensures error == if services.None? then Some(PsFailed) else Verdict(services.value)
    {
      if services.None? {
        return Some(PsFailed);
      }
      for i := 0 to |services.value|
        invariant forall s :: s in services.value[..i] ==> IsRunning(s)
        invariant Verdict(services.value[i..]) == Verdict(services.value)
      {
        assert services.value[i..][1..] == services.value[i + 1..];
        if !IsRunning(services.value[i]) {
          return Some(NotRunning(services.value[i].name));
        }
      }
      assert services.value[..|services.value|] == services.value;
      return None;
    }
  }
}
