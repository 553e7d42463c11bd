/** The per-repo deploy cursor: moved by polls (HandleSHA of internal/poller/poller.go) and by
    webhook pushes (MakeWebhookPushHandler of internal/engine/handler.go). */
module Poller {
  import opened Base
  import opened DeployConfig
  import opened Glob
  import opened Planner
  import opened DeploymentStore
  import opened Resume

  datatype RepoState = RepoState(lastSeen: string, lastDeployed: string, triggerSource: string)

  /** Everything HandleSHA learns from outside during one poll. `deployMirror` is what findRepo
      returns; `configMirror` what the config-mirror finder does, if there is one; `fetched` is the
      deploy mirror after EnsureCommit, None when that failed. */
  datatype Poll = Poll(
    sha: string,
    readable: bool,
    deployMirror: Option<Mirror>,
    configMirror: Option<Mirror>,
    reloads: bool,
    fetched: Option<Mirror>,
    config: Config,
    records: Files,
    saves: bool)

  /** A webhook push, and what it learns: `repo` is the one configured under its full name, if there is
      one. */
  datatype Push = Push(
    sha: string,
    changedFiles: Option<seq<string>>,
    repo: Option<Repo>,
    branch: string,
    reloads: bool,
    readable: bool,
    saves: bool)

  datatype Dispatch = Dispatch(sha: string, changedFiles: Option<seq<string>>, forced: seq<Target>)

  const UNSEEN := RepoState("", "", "")

  function Current(saved: Option<RepoState>): RepoState {
    if saved.None? then UNSEEN else saved.value
  }

  function Cursor(saved: Option<RepoState>): string {
    Current(saved).lastDeployed
  }

  predicate HoldsBoth(m: Option<Mirror>, a: string, b: string) {
    m.Some? && a in m.value.commits && b in m.value.commits
  }

  /** isStalePoll: the first mirror that holds both commits decides. */
  function StalePoll(p: Poll, deployed: string): bool {
    if HoldsBoth(p.deployMirror, p.sha, deployed) then p.deployMirror.value.isAncestor(p.sha, deployed)
    else if HoldsBoth(p.configMirror, p.sha, deployed) then p.configMirror.value.isAncestor(p.sha, deployed)
    else false
  }

  method IsStalePoll(p: Poll, deployed: string) returns (stale: bool)
    ensures stale == StalePoll(p, deployed)
  {
    var finders := [p.deployMirror, p.configMirror];
    for i := 0 to |finders|
      invariant i == 1 ==>
        StalePoll(p, deployed) ==
        (HoldsBoth(p.configMirror, p.sha, deployed) && p.configMirror.value.isAncestor(p.sha, deployed))
      invariant i == 2 ==> !StalePoll(p, deployed)
    {
      var found := finders[i];
      if found.Some? {
        if p.sha in found.value.commits && deployed in found.value.commits {
          return found.value.isAncestor(p.sha, deployed);
        }
      }
    }
    return false;
  }

  /** The mirror the diff is taken in, or None when the new commit could not be fetched. */
  function DiffMirror(p: Poll): Option<Option<Mirror>> {
    if p.deployMirror.None? then Some(None)
    else if p.sha in p.deployMirror.value.commits then Some(p.deployMirror)
    else if p.fetched.Some? then Some(p.fetched)
    else None
  }

  /** The poll gets as far as moving the cursor. */
  predicate Advances(saved: Option<RepoState>, p: Poll) {
    && p.readable
    && p.sha != Cursor(saved)
    && !(Cursor(saved) != "" && StalePoll(p, Cursor(saved)))
    && p.reloads
    && DiffMirror(p).Some?
  }

  ghost function PendingFor(p: Poll, repo: Repo, seg: SegmentMatcher): seq<Target>
    requires DiffMirror(p).Some?
  {
    PendingOf(p.records, DiffMirror(p).value, OfRepo(AllTargetsOf(p.config), repo.name), p.sha, seg)
  }

  predicate WebhookEnabled(repo: Repo) {
    repo.triggerMode == "webhook" || repo.triggerMode == "hybrid"
  }

  predicate PushAccepted(p: Push) {
    p.repo.Some? && p.branch == p.repo.value.branch && WebhookEnabled(p.repo.value) && p.reloads
  }

  /** The saved state after a poll. */
  function PolledState(saved: Option<RepoState>, p: Poll): Option<RepoState> {
    if !p.readable || !p.saves then saved
    else
      var s := Current(saved).(lastSeen := p.sha);
      Some(if Advances(saved, p) then s.(lastDeployed := p.sha, triggerSource := "poll") else s)
  }

  /** The saved state `now` after the save of a poll that had read `read`. */
  function PollSaved(read: Option<RepoState>, now: Option<RepoState>, p: Poll): Option<RepoState> {
    if p.readable && p.saves then PolledState(read, p) else now
  }

  function PushedState(saved: Option<RepoState>, p: Push): Option<RepoState> {
    if PushAccepted(p) && p.readable && p.saves then Some(RepoState(p.sha, p.sha, "webhook")) else saved
  }

  ghost function PollDispatch(saved: Option<RepoState>, p: Poll, repo: Repo, seg: SegmentMatcher): Option<Dispatch> {
    if Advances(saved, p) && PendingFor(p, repo, seg) != []
    then Some(Dispatch(p.sha, None, PendingFor(p, repo, seg))) else None
  }

  function PushDispatch(saved: Option<RepoState>, p: Push): Option<Dispatch> {
    if !PushAccepted(p) then None
    else Some(Dispatch(p.sha, if p.readable && Cursor(saved) == "" then None else p.changedFiles, []))
  }

  // ---- Field by field ----

  /** Reasons for a poll not to go on: the state cannot be read, the commit is the cursor, the first mirror
      with both commits calls it an ancestor of the cursor, the config repo cannot be reloaded, or the
      commit can neither be found in the deploy mirror nor fetched. */
  predicate PollStays(saved: Option<RepoState>, p: Poll) {
    var cursor := if saved.Some? then saved.value.lastDeployed else "";
    || !p.readable
    || p.sha == cursor
    || (cursor != "" && HoldsBoth(p.deployMirror, p.sha, cursor) && p.deployMirror.value.isAncestor(p.sha, cursor))
    || (cursor != "" && !HoldsBoth(p.deployMirror, p.sha, cursor) && HoldsBoth(p.configMirror, p.sha, cursor)
        && p.configMirror.value.isAncestor(p.sha, cursor))
    || !p.reloads
    || (p.deployMirror.Some? && p.sha !in p.deployMirror.value.commits && p.fetched.None?)
  }

  /** What a poll leaves and dispatches. A poll that stays notes the commit it has seen and dispatches
      nothing; one that goes on moves the cursor, and forces what is pending by the mirror the commit is
      in: the deploy mirror, after a fetch if need be, or none if there is none. */
  ghost predicate PollSpelledOut(saved: Option<RepoState>, p: Poll, repo: Repo, seg: SegmentMatcher,
                                 saved': Option<RepoState>, dispatch: Option<Dispatch>) {
    && (!p.readable || !p.saves ==> saved' == saved)
    && (p.readable && p.saves ==>
          && saved'.Some? && saved'.value.lastSeen == p.sha
          && (PollStays(saved, p) ==>
                && saved'.value.lastDeployed == (if saved.Some? then saved.value.lastDeployed else "")
                && saved'.value.triggerSource == (if saved.Some? then saved.value.triggerSource else ""))
          && (!PollStays(saved, p) ==> saved'.value.lastDeployed == p.sha && saved'.value.triggerSource == "poll"))
    && (PollStays(saved, p) ==> dispatch.None?)
    && (!PollStays(saved, p) ==>
          var found := p.deployMirror.Some? && p.sha in p.deployMirror.value.commits;
          var mirror := if p.deployMirror.None? || found then p.deployMirror else p.fetched;
          var pending := PendingOf(p.records, mirror, OfRepo(AllTargetsOf(p.config), repo.name), p.sha, seg);
          dispatch == if pending == [] then None else Some(Dispatch(p.sha, None, pending)))
  }

  lemma PollMeans(saved: Option<RepoState>, p: Poll, repo: Repo, seg: SegmentMatcher)
    ensures PollSpelledOut(saved, p, repo, seg, PolledState(saved, p), PollDispatch(saved, p, repo, seg))
  {
    assert Advances(saved, p) <==> !PollStays(saved, p);
  }

  /** What a push leaves and dispatches. Of an unknown repo, on another branch, not enabled, or with a
      config repo that cannot be reloaded it does nothing. Else it is handed on at its commit, with its
      files unless it has none or nothing was deployed before; and it moves the cursor if the state can be
      read and saved. */
  predicate PushSpelledOut(saved: Option<RepoState>, p: Push, saved': Option<RepoState>, dispatch: Option<Dispatch>) {
    && (p.repo.None? ==> saved' == saved && dispatch.None?)
    && (p.repo.Some? && p.branch != p.repo.value.branch ==> saved' == saved && dispatch.None?)
    && (p.repo.Some? && p.repo.value.triggerMode != "webhook" && p.repo.value.triggerMode != "hybrid" ==>
          saved' == saved && dispatch.None?)
    && (!p.reloads ==> saved' == saved && dispatch.None?)
    && (p.repo.Some? && p.branch == p.repo.value.branch && p.reloads
        && (p.repo.value.triggerMode == "webhook" || p.repo.value.triggerMode == "hybrid") ==>
          && saved' == (if p.readable && p.saves then Some(RepoState(p.sha, p.sha, "webhook")) else saved)
          && dispatch.Some? && dispatch.value.sha == p.sha && dispatch.value.forced == []
          && (var first := p.readable && (saved.None? || saved.value.lastDeployed == "");
              dispatch.value.changedFiles == if first then None else p.changedFiles))
  }

  lemma PushMeans(saved: Option<RepoState>, p: Push)
    ensures PushSpelledOut(saved, p, PushedState(saved, p), PushDispatch(saved, p))
  {
  }

  // ---- Steps of a run ----

  /** What others can come between: a poll's read and its save of the repo state. A push saves the same
      whatever it has read, so it is one step. After a restart of the watcher polls of the old and the
      new one can overlap; `id` tells them apart. */
  datatype Event = PollReads(id: nat) | PollSaves(id: nat, poll: Poll) | Pushed(push: Push)

  /** The saved state, and what each poll under way has read. */
  datatype RunState = RunState(saved: Option<RepoState>, underWay: map<nat, Option<RepoState>>)

  /** The save of a poll that is not under way does nothing. */
  function After(s: RunState, e: Event): RunState {
    match e
    case PollReads(id) => s.(underWay := s.underWay[id := s.saved])
    case PollSaves(id, p) =>
      if id in s.underWay then RunState(PollSaved(s.underWay[id], s.saved, p), s.underWay - {id}) else s
    case Pushed(p) => s.(saved := PushedState(s.saved, p))
  }

  /** The state after the first k events. */
  function StateAt(start: RunState, events: seq<Event>, k: nat): RunState
    requires k <= |events|
  {
    if k == 0 then start else After(StateAt(start, events, k - 1), events[k - 1])
  }

  class RepoCursor {
    const repo: Repo
    const seg: SegmentMatcher
    var saved: Option<RepoState>               // the repo state file
    var underWay: map<nat, Option<RepoState>>     // the local copies of the polls under way

    function State(): RunState
      reads this
    {
      RunState(saved, underWay)
    }

    constructor (repo: Repo, saved: Option<RepoState>, seg: SegmentMatcher)
      ensures this.repo == repo && this.seg == seg && State() == RunState(saved, map[])
    {
      this.repo, this.saved, this.seg, underWay := repo, saved, seg, map[];
    }

    method Save(s: RepoState, ok: bool)
      modifies this`saved
      ensures saved == if ok then Some(s) else old(saved)
    {
      if ok {
        saved := Some(s);
      }
    }

    /** Detects a new commit and dispatches the targets behind it. */
    method HandleSHA(p: Poll) returns (dispatch: Option<Dispatch>)
      modifies this`saved
      ensures saved == PolledState(old(saved), p)
      ensures dispatch == PollDispatch(old(saved), p, repo, seg)
      ensures PollSpelledOut(old(saved), p, repo, seg, saved, dispatch)
    {
      PollMeans(saved, p, repo, seg);
      dispatch := FinishSHA(p, saved);
    }

    /** The rest of HandleSHA, after it has read the repo state. */
    method FinishSHA(p: Poll, read: Option<RepoState>) returns (dispatch: Option<Dispatch>)
      modifies this`saved
      ensures saved == PollSaved(read, old(saved), p)
      ensures dispatch == PollDispatch(read, p, repo, seg)
    {
      if !p.readable {
        return None;
      }
      var s := Current(read).(lastSeen := p.sha);
      if p.sha == s.lastDeployed {
        Save(s, p.saves);
        return None;
      }
      if s.lastDeployed != "" {
        var stale := IsStalePoll(p, s.lastDeployed);
        if stale {
          Save(s, p.saves);
          return None;
        }
      }
      if !p.reloads {
        Save(s, p.saves);
        return None;
      }
      var mirror: Option<Mirror> := None;
      if p.deployMirror.Some? {
        mirror := p.deployMirror;
        if p.sha !in p.deployMirror.value.commits {
          if p.fetched.None? {
            Save(s, p.saves);
            return None;
          }
          mirror := p.fetched;
        }
      }
      var targets := TargetsForRepo(p.config, repo.name);
      var pending := PendingTargetsForHead(p.records, targets, p.sha, mirror, seg);
      s := s.(lastDeployed := p.sha, triggerSource := "poll");
      Save(s, p.saves);
      if |pending| == 0 {
        return None;
      }
      return Some(Dispatch(p.sha, None, pending));
    }

    /** A webhook push moves the cursor to its commit and hands the event on. */
    method HandlePush(p: Push) returns (dispatch: Option<Dispatch>)
      modifies this`saved
      ensures saved == PushedState(old(saved), p)
      ensures dispatch == PushDispatch(old(saved), p)
      ensures PushSpelledOut(old(saved), p, saved, dispatch)
    {
      if p.repo.None? {
        return None;
      }
      if p.branch != p.repo.value.branch {
        return None;
      }
      if p.repo.value.triggerMode != "webhook" && p.repo.value.triggerMode != "hybrid" {
        return None;
      }
      if !p.reloads {
        return None;
      }
      var changedFiles := p.changedFiles;
      if p.readable {
        var s := Current(saved);
        var firstSeen := s.lastDeployed == "";
        Save(RepoState(p.sha, p.sha, "webhook"), p.saves);
        if firstSeen {
          changedFiles := None;
        }
      }
      return Some(Dispatch(p.sha, changedFiles, []));
    }

    method Perform(e: Event)
      modifies this
      ensures State() == After(old(State()), e)
    {
      match e
      case PollReads(id) => underWay := underWay[id := saved];
      case PollSaves(id, p) =>
        if id in underWay {
          var _ := FinishSHA(p, underWay[id]);
          underWay := underWay - {id};
        }
      case Pushed(p) => var _ := HandlePush(p);
    }

    /** However polls and pushes interleave, the object ends as the runs below say. */
    method Run(events: seq<Event>)
      modifies this
      ensures State() == StateAt(old(State()), events, |events|)
    {
      for k := 0 to |events|
        invariant State() == StateAt(old(State()), events, k)
      {
        Perform(events[k]);
      }
    }
  }

  // ---- Where polls move the cursor ----

  /** Some mirror that holds both commits calls the polled one an ancestor of the cursor. */
  predicate CalledAncestor(p: Poll, deployed: string) {
    || (HoldsBoth(p.deployMirror, p.sha, deployed) && p.deployMirror.value.isAncestor(p.sha, deployed))
    || (HoldsBoth(p.configMirror, p.sha, deployed) && p.configMirror.value.isAncestor(p.sha, deployed))
  }

  /** Both mirrors hold both commits, and only the second one calls the polled one an ancestor. */
  predicate MirrorsDisagree(p: Poll, deployed: string) {
    && HoldsBoth(p.deployMirror, p.sha, deployed) && !p.deployMirror.value.isAncestor(p.sha, deployed)
    && HoldsBoth(p.configMirror, p.sha, deployed) && p.configMirror.value.isAncestor(p.sha, deployed)
  }

  /** A poll that would otherwise move the cursor does so to a commit that a mirror calls an ancestor
      of it exactly if the cursor is set and the mirrors disagree. */
  lemma RewindsOnlyOnDisagreement(saved: Option<RepoState>, p: Poll)
    requires p.readable && p.reloads && DiffMirror(p).Some? && p.sha != Cursor(saved)
    ensures Cursor(saved) != "" ==>
      (Advances(saved, p) && CalledAncestor(p, Cursor(saved)) <==> MirrorsDisagree(p, Cursor(saved)))
    ensures Cursor(saved) != "" && !CalledAncestor(p, Cursor(saved)) ==> Advances(saved, p)
    ensures Cursor(saved) == "" ==> Advances(saved, p)
  {
  }

  /** IsAncestor answers no also when git fails, so mirrors that both hold the commits can disagree. */
  lemma MirrorsCanDisagree()
    ensures exists saved, p :: Advances(saved, p) && Cursor(saved) != "" && CalledAncestor(p, Cursor(saved))
  {
    var deploy := Mirror(map["a" := map[], "b" := map[]], (x, y) => None, (x, y) => false);
    var config := deploy.(isAncestor := (x, y) => true);
    var saved := Some(RepoState("b", "b", "poll"));
    var p := Poll("a", true, Some(deploy), Some(config), true, None, Config([], [], []), Files(map[], map[]), true);
    assert HoldsBoth(p.deployMirror, "a", "b") && HoldsBoth(p.configMirror, "a", "b");
    assert Advances(saved, p) && Cursor(saved) != "" && CalledAncestor(p, Cursor(saved));
  }

  // ---- Where a run leaves the cursor ----

  function CursorAt(start: RunState, events: seq<Event>, k: nat): string
    requires k <= |events|
  {
    Cursor(StateAt(start, events, k).saved)
  }

  /** The event saves a repo state. */
  predicate Writes(s: RunState, e: Event) {
    match e
    case PollReads(_) => false
    case PollSaves(id, p) => id in s.underWay && p.readable && p.saves
    case Pushed(p) => PushAccepted(p) && p.readable && p.saves
  }

  /** The cursor in that state: the event's commit, or what a held back poll had read. */
  function Written(s: RunState, e: Event): string
    requires Writes(s, e)
  {
    match e
    case PollSaves(id, p) => if Advances(s.underWay[id], p) then p.sha else Cursor(s.underWay[id])
    case Pushed(p) => p.sha
  }

  predicate WritesAt(start: RunState, events: seq<Event>, k: nat)
    requires k < |events|
  {
    Writes(StateAt(start, events, k), events[k])
  }

  ghost predicate LastWrite(start: RunState, events: seq<Event>, k: nat) {
    k < |events| && WritesAt(start, events, k) && forall j :: k < j < |events| ==> !WritesAt(start, events, j)
  }

  lemma CursorAfter(s: RunState, e: Event)
    ensures Cursor(After(s, e).saved) == if Writes(s, e) then Written(s, e) else Cursor(s.saved)
  {
  }

  lemma {:induction false} CursorStays(start: RunState, events: seq<Event>, i: nat, j: nat)
    requires i <= j <= |events| && forall k :: i <= k < j ==> !WritesAt(start, events, k)
    ensures CursorAt(start, events, i) == CursorAt(start, events, j)
    decreases j - i
  {
    if i < j {
      CursorStays(start, events, i, j - 1);
      CursorAfter(StateAt(start, events, j - 1), events[j - 1]);
      assert !WritesAt(start, events, j - 1);
    }
  }

  /** The poll was not held back: not stale, and neither the reload nor the fetch failed. */
  predicate NotHeldBack(read: Option<RepoState>, p: Poll) {
    p.reloads && DiffMirror(p).Some? && (Cursor(read) != "" ==> !StalePoll(p, Cursor(read)))
  }

  /** After any run the cursor is what the last save wrote, or what it was at the start if nothing was
      saved: a push's commit; a poll's commit, if the poll was not held back; else the cursor that the
      poll had read. */
  lemma CursorIsLastMove(start: RunState, events: seq<Event>)
    ensures forall k: nat :: LastWrite(start, events, k) ==>
      CursorAt(start, events, |events|) == Written(StateAt(start, events, k), events[k])
    ensures (forall k: nat :: !LastWrite(start, events, k)) ==>
      CursorAt(start, events, |events|) == Cursor(start.saved)
    ensures forall k: nat :: LastWrite(start, events, k) && events[k].PollSaves? ==>
      var read := StateAt(start, events, k).underWay[events[k].id];
      Cursor(read) != CursorAt(start, events, |events|) ==>
        CursorAt(start, events, |events|) == events[k].poll.sha && NotHeldBack(read, events[k].poll)
  {
    forall k: nat | LastWrite(start, events, k)
      ensures CursorAt(start, events, |events|) == Written(StateAt(start, events, k), events[k])
    {
      CursorAfter(StateAt(start, events, k), events[k]);
      CursorStays(start, events, k + 1, |events|);
    }
    if forall k: nat :: !LastWrite(start, events, k) {
      forall k | 0 <= k < |events|
        ensures !WritesAt(start, events, k)
      {
        NoLastWrite(start, events, k);
      }
      CursorStays(start, events, 0, |events|);
    }
  }

  lemma {:induction false} NoLastWrite(start: RunState, events: seq<Event>, k: nat)
    requires k < |events| && forall j: nat :: !LastWrite(start, events, j)
    ensures !WritesAt(start, events, k)
    decreases |events| - k
  {
    assert !LastWrite(start, events, k);
    if j :| k < j < |events| && WritesAt(start, events, j) {
      NoLastWrite(start, events, j);
    }
  }

  // ---- When the cursor goes back ----

  /** The mirrors that hold both commits tell their order in one line of history. */
  ghost predicate Truthful(p: Poll, deployed: string, place: string -> int) {
    && (HoldsBoth(p.deployMirror, p.sha, deployed) ==>
          (p.deployMirror.value.isAncestor(p.sha, deployed) <==> place(p.sha) <= place(deployed)))
    && (HoldsBoth(p.configMirror, p.sha, deployed) ==>
          (p.configMirror.value.isAncestor(p.sha, deployed) <==> place(p.sha) <= place(deployed)))
  }

  ghost predicate OnLine(s: RunState, e: Event, place: string -> int) {
    match e
    case PollReads(_) => true
    case PollSaves(id, p) => p.sha != "" && (id in s.underWay ==> Truthful(p, Cursor(s.underWay[id]), place))
    case Pushed(p) => p.sha != ""
  }

  /** Polls and pushes along one line of history. */
  ghost predicate EventsOnLine(start: RunState, events: seq<Event>, place: string -> int) {
    forall k :: 0 <= k < |events| ==> OnLine(StateAt(start, events, k), events[k], place)
  }

  predicate Older(sha: string, deployed: string, place: string -> int) {
    sha != deployed && place(sha) <= place(deployed)
  }

  /** The poll brings an older commit, and no mirror can tell. */
  predicate Unseen(p: Poll, deployed: string, place: string -> int) {
    && Older(p.sha, deployed, place) && p.reloads && DiffMirror(p).Some?
    && !HoldsBoth(p.deployMirror, p.sha, deployed) && !HoldsBoth(p.configMirror, p.sha, deployed)
  }

  /** The cursor has moved on since the poll read it, to a commit the poll does not reach: the poll is
      held back, has nothing new, or brings a commit older than the cursor now. */
  predicate Overtaken(read: Option<RepoState>, p: Poll, deployed: string, place: string -> int) {
    Cursor(read) != deployed && (!Advances(read, p) || Older(p.sha, deployed, place))
  }

  /** A push or an unseen poll brings an older commit than the cursor, or the poll was overtaken. */
  predicate GoesBack(s: RunState, e: Event, place: string -> int) {
    var deployed := Cursor(s.saved);
    deployed != "" && Writes(s, e) &&
    match e
    case PollSaves(id, p) =>
      if Cursor(s.underWay[id]) == deployed then Unseen(p, deployed, place)
      else Overtaken(s.underWay[id], p, deployed, place)
    case Pushed(p) => Older(p.sha, deployed, place)
  }

  predicate Forward(a: string, b: string, place: string -> int) {
    b != "" && (a == b || place(a) < place(b))
  }

  /** No poll under way has read a later commit than the cursor is at. */
  ghost predicate ReadsBehind(s: RunState, place: string -> int) {
    forall id :: id in s.underWay ==>
      Cursor(s.underWay[id]) == "" || Forward(Cursor(s.underWay[id]), Cursor(s.saved), place)
  }

  lemma StepGoesForward(s: RunState, e: Event, place: string -> int)
    requires OnLine(s, e, place) && ReadsBehind(s, place) && Cursor(s.saved) != ""
    ensures Forward(Cursor(s.saved), Cursor(After(s, e).saved), place) <==> !GoesBack(s, e, place)
  {
    CursorAfter(s, e);
  }

  lemma ReadsStayBehind(s: RunState, e: Event, place: string -> int)
    requires OnLine(s, e, place) && ReadsBehind(s, place) && !GoesBack(s, e, place)
    ensures ReadsBehind(After(s, e), place)
  {
    if Cursor(s.saved) != "" {
      StepGoesForward(s, e, place);
    }
  }

  ghost predicate BackAt(start: RunState, events: seq<Event>, place: string -> int, k: nat) {
    k < |events| && GoesBack(StateAt(start, events, k), events[k], place)
  }

  lemma {:induction false} ReadsBehindAt(start: RunState, events: seq<Event>, place: string -> int, n: nat)
    requires EventsOnLine(start, events, place) && start.underWay == map[] && n <= |events|
    requires forall k :: 0 <= k < n ==> !BackAt(start, events, place, k)
    ensures ReadsBehind(StateAt(start, events, n), place)
  {
    if n > 0 {
      ReadsBehindAt(start, events, place, n - 1);
      assert !BackAt(start, events, place, n - 1);
      assert OnLine(StateAt(start, events, n - 1), events[n - 1], place);
      ReadsStayBehind(StateAt(start, events, n - 1), events[n - 1], place);
    }
  }

  lemma StepAtGoesForward(start: RunState, events: seq<Event>, place: string -> int, n: nat)
    requires EventsOnLine(start, events, place) && start.underWay == map[] && n < |events|
    requires forall k :: 0 <= k < n ==> !BackAt(start, events, place, k)
    requires CursorAt(start, events, n) != ""
    ensures Forward(CursorAt(start, events, n), CursorAt(start, events, n + 1), place)
       <==> !BackAt(start, events, place, n)
  {
    ReadsBehindAt(start, events, place, n);
    assert OnLine(StateAt(start, events, n), events[n], place);
    StepGoesForward(StateAt(start, events, n), events[n], place);
    assert StateAt(start, events, n + 1) == After(StateAt(start, events, n), events[n]);
  }

  /** The cursors of a run, from the start to the first n events. */
  function CursorsOf(start: RunState, events: seq<Event>, n: nat): (cursors: seq<string>)
    requires n <= |events|
    ensures |cursors| == n + 1
    ensures forall k :: 0 <= k <= n ==> cursors[k] == CursorAt(start, events, k)
  {
    (if n == 0 then [] else CursorsOf(start, events, n - 1)) + [CursorAt(start, events, n)]
  }

  ghost predicate NeverRewinds(cursors: seq<string>, place: string -> int) {
    forall i, j :: 0 <= i <= j < |cursors| && cursors[i] != "" ==> Forward(cursors[i], cursors[j], place)
  }

  ghost predicate StepsForward(cursors: seq<string>, place: string -> int) {
    forall a, b :: 0 <= a < |cursors| && b == a + 1 < |cursors| && cursors[a] != "" ==>
      Forward(cursors[a], cursors[b], place)
  }

  lemma {:induction false} ForwardOver(cursors: seq<string>, place: string -> int, i: nat, j: nat)
    requires StepsForward(cursors, place) && i <= j < |cursors| && cursors[i] != ""
    ensures Forward(cursors[i], cursors[j], place)
    decreases j - i
  {
    if i < j {
      ForwardOver(cursors, place, i, j - 1);
      assert Forward(cursors[j - 1], cursors[j], place);
    }
  }

  /** The first event that goes back. */
  lemma {:induction false} FirstBack(start: RunState, events: seq<Event>, place: string -> int, k: nat) returns (n: nat)
    requires BackAt(start, events, place, k)
    ensures BackAt(start, events, place, n) && forall j :: 0 <= j < n ==> !BackAt(start, events, place, j)
  {
    if j: nat :| j < k && BackAt(start, events, place, j) {
      n := FirstBack(start, events, place, j);
    } else {
      n := k;
    }
  }

  lemma BackRewinds(start: RunState, events: seq<Event>, place: string -> int, k: nat)
    requires EventsOnLine(start, events, place) && start.underWay == map[] && BackAt(start, events, place, k)
    ensures !NeverRewinds(CursorsOf(start, events, |events|), place)
  {
    var n := FirstBack(start, events, place, k);
    StepAtGoesForward(start, events, place, n);
    var cursors := CursorsOf(start, events, |events|);
    assert cursors[n] == CursorAt(start, events, n) && cursors[n + 1] == CursorAt(start, events, n + 1);
    assert !Forward(cursors[n], cursors[n + 1], place);
  }

  lemma NoBackNeverRewinds(start: RunState, events: seq<Event>, place: string -> int)
    requires EventsOnLine(start, events, place) && start.underWay == map[]
    requires forall k: nat :: !BackAt(start, events, place, k)
    ensures NeverRewinds(CursorsOf(start, events, |events|), place)
  {
    var cursors := CursorsOf(start, events, |events|);
    forall a, b | 0 <= a < |cursors| && b == a + 1 < |cursors| && cursors[a] != ""
      ensures Forward(cursors[a], cursors[b], place)
    {
      StepAtGoesForward(start, events, place, a);
    }
    forall i, j | 0 <= i <= j < |cursors| && cursors[i] != ""
      ensures Forward(cursors[i], cursors[j], place)
    {
      ForwardOver(cursors, place, i, j);
    }
  }

  /** On a branch that only grows the cursor never goes back, however polls and pushes interleave and
      whatever commits they bring, exactly if no event brings an older commit unnoticed and no poll is
      overtaken between its read and its save. */
  lemma CursorNeverRewinds(start: RunState, events: seq<Event>, place: string -> int)
    requires EventsOnLine(start, events, place) && start.underWay == map[]
    ensures NeverRewinds(CursorsOf(start, events, |events|), place)
       <==> forall k: nat :: !BackAt(start, events, place, k)
  {
    if k: nat :| BackAt(start, events, place, k) {
      BackRewinds(start, events, place, k);
    } else {
      NoBackNeverRewinds(start, events, place);
    }
  }

  /** The mirror holds the cursor and all that came before it, as a clone does. */
  ghost predicate HoldsPast(m: Option<Mirror>, deployed: string, place: string -> int) {
    m.Some? && deployed in m.value.commits && forall sha :: Older(sha, deployed, place) ==> sha in m.value.commits
  }

  /** So while some clone holds the cursor a poll that is not overtaken does not take it back, also not
      one whose commit, being new, has to be fetched first. */
  lemma CloneOfCursorSuffices(s: RunState, id: nat, p: Poll, place: string -> int)
    requires id in s.underWay && Cursor(s.underWay[id]) == Cursor(s.saved)
    requires HoldsPast(p.deployMirror, Cursor(s.saved), place) || HoldsPast(p.configMirror, Cursor(s.saved), place)
    ensures !GoesBack(s, PollSaves(id, p), place)
  {
  }

  // ---- Runs in which it does ----

  const EMPTY_CONFIG := Config([], [], [])
  const AT_OLD := RunState(Some(RepoState("a", "a", "poll")), map[])
  const AT_NEW := RunState(Some(RepoState("b", "b", "poll")), map[])

  function PushOf(sha: string): Push {
    Push(sha, None, Some(Repo("r", "url", "main", "webhook")), "main", true, true, true)
  }

  /** A poll with one mirror, in which "a" comes before "b". */
  function PollOf(sha: string, commits: map<string, Tree>): Poll {
    var mirror := Mirror(commits, (x, y) => None, (x, y) => x == "a" || x == y);
    Poll(sha, true, Some(mirror), None, true, None, EMPTY_CONFIG, Files(map[], map[]), true)
  }

  /** Pushes that are delivered out of order. */
  lemma LatePushRewinds()
    ensures CursorAt(AT_NEW, [Pushed(PushOf("a"))], 1) == "a" && CursorAt(AT_NEW, [Pushed(PushOf("a"))], 0) == "b"
  {
    assert StateAt(AT_NEW, [Pushed(PushOf("a"))], 0) == AT_NEW;
  }

  /** A poll of an older commit, with a mirror that has not got the cursor's commit. */
  lemma BlindPollRewinds()
    ensures var events := [PollReads(0), PollSaves(0, PollOf("a", map["a" := map[]]))];
      CursorAt(AT_NEW, events, 0) == "b" && CursorAt(AT_NEW, events, 2) == "a"
  {
    var p := PollOf("a", map["a" := map[]]);
    var events := [PollReads(0), PollSaves(0, p)];
    assert StateAt(AT_NEW, events, 1) == RunState(AT_NEW.saved, map[0 := AT_NEW.saved]);
    assert !HoldsBoth(p.deployMirror, "a", "b") && Advances(AT_NEW.saved, p);
    assert StateAt(AT_NEW, events, 2) == After(StateAt(AT_NEW, events, 1), events[1]);
  }

  /** A poll that found nothing new undoes a push that came between its read and its save, though its
      mirror holds both commits. */
  lemma OvertakenPollRewinds()
    ensures var p := PollOf("a", map["a" := map[], "b" := map[]]);
      var events := [PollReads(0), Pushed(PushOf("b")), PollSaves(0, p)];
      CursorAt(AT_OLD, events, 0) == "a" && CursorAt(AT_OLD, events, 2) == "b" && CursorAt(AT_OLD, events, 3) == "a"
  {
    var p := PollOf("a", map["a" := map[], "b" := map[]]);
    var events := [PollReads(0), Pushed(PushOf("b")), PollSaves(0, p)];
    assert StateAt(AT_OLD, events, 1) == RunState(AT_OLD.saved, map[0 := AT_OLD.saved]);
    assert StateAt(AT_OLD, events, 2) == RunState(Some(RepoState("b", "b", "webhook")), map[0 := AT_OLD.saved]);
    assert StateAt(AT_OLD, events, 3) == After(StateAt(AT_OLD, events, 2), events[2]);
  }

  // ---- What an advancing poll dispatches ----

  lemma {:induction false} InOfRepo(targets: seq<Target>, repoName: string, t: Target)
    ensures t in OfRepo(targets, repoName) <==> t in targets && t.repo.name == repoName
    decreases |targets|
  {
    if targets != [] {
      var n := |targets| - 1;
      InOfRepo(targets[..n], repoName, t);
      assert targets == targets[..n] + [targets[n]];
    }
  }

  ghost predicate DispatchedTo(d: Option<Dispatch>, t: Target) {
    d.Some? && t in d.value.forced
  }

  /** When a poll moves the cursor every target of the repo is dispatched, or is running or done at
      the head, or agrees with it on all it watches, whatever the cursor was before: drifted
      targets heal. And nothing else is dispatched. */
  lemma AdvanceDispatchesAllBehind(saved: Option<RepoState>, p: Poll, repo: Repo, seg: SegmentMatcher, t: Target)
    requires Advances(saved, p) && (DiffMirror(p).value.Some? ==> Faithful(DiffMirror(p).value.value))
    requires t in AllTargetsOf(p.config) && t.repo.name == repo.name
    ensures var d := PollDispatch(saved, p, repo, seg);
      && (DispatchedTo(d, t) || AtHead(p.records, t, p.sha) || UpToDate(p.records, DiffMirror(p).value, t, p.sha, seg))
      && (AtHead(p.records, t, p.sha) ==> !DispatchedTo(d, t))
      && (DispatchedTo(d, t) ==> d.value.sha == p.sha)
  {
    var targets := OfRepo(AllTargetsOf(p.config), repo.name);
    InOfRepo(AllTargetsOf(p.config), repo.name, t);
    if t !in PendingFor(p, repo, seg) {
      PendingDropsNothing(p.records, DiffMirror(p).value, targets, p.sha, seg, t);
    }
    InPending(p.records, DiffMirror(p).value, targets, p.sha, seg, t);
  }

  /** No target of the repo has to be deployed to reach the polled commit. */
  ghost predicate NothingBehind(p: Poll, repo: Repo, seg: SegmentMatcher)
    requires DiffMirror(p).Some?
  {
    forall t :: t in AllTargetsOf(p.config) && t.repo.name == repo.name ==>
      !IsPending(p.records, DiffMirror(p).value, t, p.sha, seg)
  }

  lemma NothingBehindIsEmpty(p: Poll, repo: Repo, seg: SegmentMatcher)
    requires DiffMirror(p).Some?
    ensures NothingBehind(p, repo, seg) <==> PendingFor(p, repo, seg) == []
  {
    var all := AllTargetsOf(p.config);
    var pending := PendingFor(p, repo, seg);
    forall t
      ensures t in pending <==>
        t in all && t.repo.name == repo.name && IsPending(p.records, DiffMirror(p).value, t, p.sha, seg)
    {
      InOfRepo(all, repo.name, t);
      InPending(p.records, DiffMirror(p).value, OfRepo(all, repo.name), p.sha, seg, t);
    }
    assert pending != [] ==> pending[0] in pending;
  }

  /** The poll moves the cursor that it has read to its commit. */
  predicate MovesCursor(read: Option<RepoState>, p: Poll) {
    Advances(read, p) && p.saves
  }

  /** A poll moves the cursor without dispatching exactly if it moves the cursor and no target of the
      repo is behind. */
  lemma MovesWithoutDispatch(saved: Option<RepoState>, p: Poll, repo: Repo, seg: SegmentMatcher)
    ensures MovesCursor(saved, p) && PollDispatch(saved, p, repo, seg).None?
       <==> MovesCursor(saved, p) && NothingBehind(p, repo, seg)
  {
    if Advances(saved, p) {
      NothingBehindIsEmpty(p, repo, seg);
    }
  }

  /** Then every target of the repo is at the head or up to date with it. */
  lemma NothingBehindMeans(p: Poll, repo: Repo, seg: SegmentMatcher, t: Target)
    requires DiffMirror(p).Some? && (DiffMirror(p).value.Some? ==> Faithful(DiffMirror(p).value.value))
    requires NothingBehind(p, repo, seg) && t in AllTargetsOf(p.config) && t.repo.name == repo.name
    ensures AtHead(p.records, t, p.sha) || UpToDate(p.records, DiffMirror(p).value, t, p.sha, seg)
  {
    var targets := OfRepo(AllTargetsOf(p.config), repo.name);
    InOfRepo(AllTargetsOf(p.config), repo.name, t);
    InPending(p.records, DiffMirror(p).value, targets, p.sha, seg, t);
    PendingDropsNothing(p.records, DiffMirror(p).value, targets, p.sha, seg, t);
  }

  /** A poll of a new commit at which the only target was already deployed. */
  lemma QuietPoll(seg: SegmentMatcher)
    ensures var repo := Repo("r", "url", "main", "poll");
      var host := Host("h", "10.0.0.1", "/srv", "", 0);
      var project := Project("p", "r", "", ["compose.yml"], ["h"], [], "p", [], []);
      var done := Deployment("1", "p", "h", "b", StatusSuccess, 0, Some(1), "");
      var p := Poll("b", true, None, None, true, None, Config([host], [repo], [project]),
                    Files(map["1" := done], map["h/p" := done]), true);
      var saved := Some(RepoState("a", "a", "poll"));
      && Target(project, host, repo) in AllTargetsOf(p.config)
      && MovesCursor(saved, p) && PollDispatch(saved, p, repo, seg).None?
  {
    var repo := Repo("r", "url", "main", "poll");
    var host := Host("h", "10.0.0.1", "/srv", "", 0);
    var project := Project("p", "r", "", ["compose.yml"], ["h"], [], "p", [], []);
    var done := Deployment("1", "p", "h", "b", StatusSuccess, 0, Some(1), "");
    var c := Config([host], [repo], [project]);
    var p := Poll("b", true, None, None, true, None, c, Files(map["1" := done], map["h/p" := done]), true);
    var saved := Some(RepoState("a", "a", "poll"));
    var target := Target(project, host, repo);
    forall t
      ensures t in AllTargetsOf(c) <==> t == target
    {
      OnlyTarget(c, t);
    }
    assert IndexKey("p", "h") == "h/p";
    assert !IsPending(p.records, None, target, "b", seg);
    MovesWithoutDispatch(saved, p, repo, seg);
  }

  /** A target whose latest deploy failed is dispatched exactly by the polls that move on to a new
      commit: not by one of the cursor's commit, nor by one that is stale or held back. */
  lemma FailedWaitsForNextCommit(saved: Option<RepoState>, p: Poll, repo: Repo, seg: SegmentMatcher, t: Target)
    requires t in AllTargetsOf(p.config) && t.repo.name == repo.name
    requires var latest := LookupLatest(p.records, t.project.name, t.host.name);
      latest.Found? && latest.record.status == StatusFailed
    ensures DispatchedTo(PollDispatch(saved, p, repo, seg), t) <==> Advances(saved, p)
  {
    if Advances(saved, p) {
      var targets := OfRepo(AllTargetsOf(p.config), repo.name);
      InOfRepo(AllTargetsOf(p.config), repo.name, t);
      InPending(p.records, DiffMirror(p).value, targets, p.sha, seg, t);
    }
  }
}
