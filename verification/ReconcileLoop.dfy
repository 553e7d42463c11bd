/** The coalescing reconcile loop (internal/daemon/reconcile_loop.go) and the config swap that feeds
    it (reloader.go, onConfigReload of daemon.go). `blocked` stands for "has blocking issues". */
module ReconcileLoop {
  import opened Base

  /** The worker goroutine: waiting, inside pass before and after the load, inside reconcile. */
  datatype Worker<C> = Idle | Took | Loaded(current: Option<C>) | Reconciling(target: C)

  datatype State<C> = State(
    config: Option<C>,        // the atomic config pointer
    swapping: bool,           // a reload holds applyMutex between Store and Trigger
    starting: bool,           // the daemon has not sent its first Trigger yet
    slot: bool,               // the one-slot trigger channel is full
    worker: Worker<C>,
    applied: Option<C>,
    first: Option<C>,         // the first baseline there was
    calls: seq<(C, C)>)       // the arguments of every call of reconcile

  datatype Action<C> =
    | Store(newConfig: C)
    | SwapTrigger
    | StartTrigger
    | Take
    | Load
    | Decide
    | ReconcileReturns

  ghost predicate Enabled<C>(s: State<C>, a: Action<C>, blocked: C -> bool) {
    match a
    case Store(c) => !s.swapping && s.config != Some(c) && !blocked(c)
    case SwapTrigger => s.swapping
    case StartTrigger => s.starting
    case Take => s.worker.Idle? && s.slot
    case Load => s.worker.Took?
    case Decide => s.worker.Loaded?
    case ReconcileReturns => s.worker.Reconciling?
  }

  ghost function Next<C>(s: State<C>, a: Action<C>, blocked: C -> bool): State<C>
    requires Enabled(s, a, blocked)
  {
    match a
    case Store(c) => s.(config := Some(c), swapping := true)
    case SwapTrigger => s.(slot := true, swapping := false)
    case StartTrigger => s.(slot := true, starting := false)
    case Take => s.(slot := false, worker := Took)
    case Load => s.(worker := Loaded(s.config))
    case Decide => Decided(s, s.worker.current, blocked)
    case ReconcileReturns => s.(applied := Some(s.worker.target), worker := Idle)
  }

  ghost function Decided<C>(s: State<C>, current: Option<C>, blocked: C -> bool): State<C> {
    if current.None? || blocked(current.value) then s.(worker := Idle)
    else if s.applied.None? then
      s.(worker := Idle, applied := current, first := current)
    else if s.applied == current then s.(worker := Idle)
    else s.(worker := Reconciling(current.value), calls := s.calls + [(s.applied.value, current.value)])
  }

  ghost predicate Quiet<C>(s: State<C>) {
    !s.slot && !s.swapping && !s.starting
  }

  ghost predicate Settled<C>(s: State<C>, c: Option<C>, blocked: C -> bool) {
    c.None? || blocked(c.value) || s.applied == c
  }

  /** With no trigger on its way, whatever the worker is looking at is the current config. */
  ghost predicate NothingLost<C>(s: State<C>, blocked: C -> bool) {
    Quiet(s) ==>
      match s.worker
      case Idle => Settled(s, s.config, blocked)
      case Took => true
      case Loaded(c) => c == s.config
      case Reconciling(c) => Some(c) == s.config
  }

  ghost predicate Chained<C>(s: State<C>, blocked: C -> bool) {
    && (s.applied.None? <==> s.first.None?)
    && (s.calls != [] ==> s.first == Some(s.calls[0].0))
    && (forall k :: 0 <= k < |s.calls| ==> !blocked(s.calls[k].1) && s.calls[k].0 != s.calls[k].1)
    && (forall k :: 0 < k < |s.calls| ==> s.calls[k].0 == s.calls[k - 1].1)
    && (if s.worker.Reconciling? then s.calls != [] && s.applied == Some(s.calls[|s.calls| - 1].0)
          && s.worker.target == s.calls[|s.calls| - 1].1
        else s.applied == if s.calls == [] then s.first else Some(s.calls[|s.calls| - 1].1))
  }

  ghost predicate Inv<C(!new)>(s: State<C>, blocked: C -> bool) {
    NothingLost(s, blocked) && Chained(s, blocked)
  }

  ghost function Init<C>(config: Option<C>, applied: Option<C>): State<C> {
    State(config, false, true, false, Idle, applied, applied, [])
  }

  lemma StepKeepsNothingLost<C(!new)>(s: State<C>, a: Action<C>, blocked: C -> bool)
    requires NothingLost(s, blocked) && Enabled(s, a, blocked)
    ensures NothingLost(Next(s, a, blocked), blocked)
  {
  }

  lemma DecideKeepsChained<C(!new)>(s: State<C>, blocked: C -> bool)
    requires Chained(s, blocked) && s.worker.Loaded?
    ensures Chained(Decided(s, s.worker.current, blocked), blocked)
  {
  }

  lemma StepKeepsInv<C(!new)>(s: State<C>, a: Action<C>, blocked: C -> bool)
    requires Inv(s, blocked) && Enabled(s, a, blocked)
    ensures Inv(Next(s, a, blocked), blocked)
  {
    StepKeepsNothingLost(s, a, blocked);
    if a.Decide? {
      DecideKeepsChained(s, blocked);
    } else {
      var s' := Next(s, a, blocked);
      assert s'.calls == s.calls && s'.first == s.first;
    }
  }

  ghost predicate Legal<C(!new)>(s: State<C>, schedule: seq<Action<C>>, blocked: C -> bool)
    decreases |schedule|
  {
    schedule == [] || (Enabled(s, schedule[0], blocked) && Legal(Next(s, schedule[0], blocked), schedule[1..], blocked))
  }

  ghost function After<C(!new)>(s: State<C>, schedule: seq<Action<C>>, blocked: C -> bool): State<C>
    requires Legal(s, schedule, blocked)
    decreases |schedule|
  {
    if schedule == [] then s else After(Next(s, schedule[0], blocked), schedule[1..], blocked)
  }

  lemma {:induction false} RunKeepsInv<C(!new)>(s: State<C>, schedule: seq<Action<C>>, blocked: C -> bool)
    requires Inv(s, blocked) && Legal(s, schedule, blocked)
    ensures Inv(After(s, schedule, blocked), blocked)
    decreases |schedule|
  {
    if schedule != [] {
      StepKeepsInv(s, schedule[0], blocked);
      RunKeepsInv(Next(s, schedule[0], blocked), schedule[1..], blocked);
    }
  }

  /** No update is lost: for every interleaving of swaps, triggers and passes, once the worker idles
      with nothing on its way the applied baseline is the current config, unless that one is blocked. */
  lemma NoLostUpdate<C(!new)>(config: Option<C>, applied: Option<C>, schedule: seq<Action<C>>, blocked: C -> bool)
    requires Legal(Init(config, applied), schedule, blocked)
    ensures var s := After(Init(config, applied), schedule, blocked);
      s.worker.Idle? && Quiet(s) ==> s.config.None? || blocked(s.config.value) || s.applied == s.config
  {
    RunKeepsInv(Init(config, applied), schedule, blocked);
  }

  /** Successive reconciliations form a chain: each starts from the config the one before applied,
      none is for a blocked config, none for an unchanged one. And once there is a baseline nothing but a
      reconciliation changes it. */
  lemma ReconcilesFormChain<C(!new)>(config: Option<C>, applied: Option<C>, schedule: seq<Action<C>>,
                                     blocked: C -> bool)
    requires Legal(Init(config, applied), schedule, blocked)
    ensures var calls := After(Init(config, applied), schedule, blocked).calls;
      && (forall k :: 0 <= k < |calls| ==> !blocked(calls[k].1) && calls[k].0 != calls[k].1)
      && (forall k :: 0 < k < |calls| ==> calls[k].0 == calls[k - 1].1)
      && (calls != [] && applied.Some? ==> calls[0].0 == applied.value)
    ensures var s := After(Init(config, applied), schedule, blocked);
      s.worker.Idle? ==>
        && (s.calls != [] ==> s.applied == Some(s.calls[|s.calls| - 1].1))
        && (s.calls == [] && applied.Some? ==> s.applied == applied)
  {
    RunKeepsInv(Init(config, applied), schedule, blocked);
    if applied.Some? {
      FirstStays(Init(config, applied), schedule, blocked);
    }
  }

  lemma {:induction false} FirstStays<C(!new)>(s: State<C>, schedule: seq<Action<C>>, blocked: C -> bool)
    requires Inv(s, blocked) && Legal(s, schedule, blocked) && s.first.Some?
    ensures After(s, schedule, blocked).first == s.first
    decreases |schedule|
  {
    if schedule != [] {
      StepKeepsInv(s, schedule[0], blocked);
      FirstStays(Next(s, schedule[0], blocked), schedule[1..], blocked);
    }
  }

  /** Without new swaps the loop comes to rest: at most two passes, whatever is on its way. */
  function Work<C>(s: State<C>): nat {
    (if s.swapping then 6 else 0) + (if s.starting then 6 else 0) + (if s.slot then 5 else 0)
    + (match s.worker case Idle => 0 case Took => 4 case Loaded(_) => 3 case Reconciling(_) => 2)
  }

  lemma StepWorks<C(!new)>(s: State<C>, a: Action<C>, blocked: C -> bool)
    requires Enabled(s, a, blocked)
    ensures if a.Store? then Work(Next(s, a, blocked)) == Work(s) + 6 else Work(Next(s, a, blocked)) < Work(s)
  {
  }

  lemma RestsOnlyWhenQuiet<C(!new)>(s: State<C>, blocked: C -> bool)
    ensures (forall a: Action<C> :: Enabled(s, a, blocked) ==> a.Store?) <==> s.worker.Idle? && Quiet(s)
  {
    if forall a: Action<C> :: Enabled(s, a, blocked) ==> a.Store? {
      assert !Enabled(s, SwapTrigger, blocked) && !Enabled(s, StartTrigger, blocked) && !Enabled(s, Take, blocked);
      assert !Enabled(s, Load, blocked) && !Enabled(s, Decide, blocked) && !Enabled(s, ReconcileReturns, blocked);
    }
  }

  class Loop<C(==, !new)> {
    const blocked: C -> bool
    var config: Option<C>
    var applyMutex: bool
    var started: bool
    var triggers: bool
    var worker: Worker<C>
    var applied: Option<C>
    var persisted: Option<C>
    ghost var first: Option<C>
    ghost var calls: seq<(C, C)>

    ghost function Model(): State<C>
      reads this
    {
      State(config, applyMutex, !started, triggers, worker, applied, first, calls)
    }

    ghost predicate Valid()
      reads this
    {
      Inv(Model(), blocked)
    }

    constructor (config: Option<C>, previous: Option<C>, blocked: C -> bool)
      ensures Valid() && this.blocked == blocked && Model() == Init(config, previous) && persisted == previous
    {
      this.blocked, this.config, applied, persisted, first := blocked, config, previous, previous, previous;
      applyMutex, started, triggers, worker, calls := false, false, false, Idle, [];
    }

    /** applyConfigChange up to the callback: refuse an unchanged or blocked config, else swap it in. */
    method ApplyConfigChange(newConfig: C) returns (swapped: bool)
      requires Valid() && !applyMutex
      modifies this
      ensures Valid()
      ensures swapped == Enabled(old(Model()), Store(newConfig), blocked)
      ensures swapped <==> old(config) != Some(newConfig) && !blocked(newConfig)
      ensures Model() == if swapped then Next(old(Model()), Store(newConfig), blocked) else old(Model())
    {
      if config == Some(newConfig) || blocked(newConfig) {
        return false;
      }
      StepKeepsInv(Model(), Store(newConfig), blocked);
      config, applyMutex := Some(newConfig), true;
      swapped := true;
    }

    /** The callback's Trigger, after which applyMutex is released. */
    method OnConfigReload()
      requires Valid() && applyMutex
      modifies this
      ensures Valid() && Model() == Next(old(Model()), SwapTrigger, blocked)
    {
      StepKeepsInv(Model(), SwapTrigger, blocked);
      Trigger();
      applyMutex := false;
    }

    method StartAndTrigger()
      requires Valid() && !started
      modifies this
      ensures Valid() && Model() == Next(old(Model()), StartTrigger, blocked)
    {
      StepKeepsInv(Model(), StartTrigger, blocked);
      Trigger();
      started := true;
    }

    /** A send that gives up when the slot is full. */
    method Trigger()
      modifies this`triggers
      ensures triggers
    {
      if !triggers {
        triggers := true;
      }
    }

    method TakeTrigger()
      requires Valid() && worker.Idle? && triggers
      modifies this
      ensures Valid() && Model() == Next(old(Model()), Take, blocked)
    {
      StepKeepsInv(Model(), Take, blocked);
      triggers, worker := false, Took;
    }

    method LoadConfig()
      requires Valid() && worker.Took?
      modifies this
      ensures Valid() && Model() == Next(old(Model()), Load, blocked)
    {
      StepKeepsInv(Model(), Load, blocked);
      worker := Loaded(config);
    }

    /** pass from the blocking check to the call of reconcile. */
    method PassDecides()
      requires Valid() && worker.Loaded?
      modifies this
      ensures Valid() && Model() == Next(old(Model()), Decide, blocked)
      ensures persisted == if old(applied).None? && applied.Some? then applied else old(persisted)
    {
      StepKeepsInv(Model(), Decide, blocked);
      var current := worker.current;
      worker := Idle;
      if current.None? || blocked(current.value) {
        return;
      }
      if applied.None? {
        applied, persisted := current, current;
        first := current;
      } else if applied != current {
        worker := Reconciling(current.value);
        calls := calls + [(applied.value, current.value)];
      }
    }

    method PassFinishes()
      requires Valid() && worker.Reconciling?
      modifies this
      ensures Valid() && Model() == Next(old(Model()), ReconcileReturns, blocked)
      ensures persisted == applied
    {
      StepKeepsInv(Model(), ReconcileReturns, blocked);
      applied, persisted := Some(worker.target), Some(worker.target);
      worker := Idle;
    }

    method Perform(a: Action<C>)
      requires Valid() && Enabled(Model(), a, blocked)
      modifies this
      ensures Valid() && Model() == Next(old(Model()), a, blocked)
    {
      match a
      case Store(newConfig) => var _ := ApplyConfigChange(newConfig);
      case SwapTrigger => OnConfigReload();
      case StartTrigger => StartAndTrigger();
      case Take => TakeTrigger();
      case Load => LoadConfig();
      case Decide => PassDecides();
      case ReconcileReturns => PassFinishes();
    }

    /** Any interleaving of swaps, triggers and the worker leaves the object in the state the model
        predicts, and with no update lost. */
    method Run(schedule: seq<Action<C>>)
      requires Valid() && Legal(Model(), schedule, blocked)
      modifies this
      ensures Valid() && Model() == After(old(Model()), schedule, blocked)
      ensures worker.Idle? && !triggers && !applyMutex && started ==>
                config.None? || blocked(config.value) || applied == config
    {
      var rest := schedule;
      while rest != []
        invariant Valid() && Legal(Model(), rest, blocked)
        invariant After(Model(), rest, blocked) == After(old(Model()), schedule, blocked)
        decreases |rest|
      {
        Perform(rest[0]);
        rest := rest[1..];
      }
    }
  }
}
