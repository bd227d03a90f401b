/** The tunnel session manager: generations of workers under one status (app/tunnel/manager.go). */
module Tunnel {
  import opened Wrappers

  const CONNECTING := "connecting"
  const CONNECTED := "connected"
  const RECONNECTING := "reconnecting"
  const STOPPED := "stopped"
  const FAILED := "failed"

  datatype Status = Status(device: string, state: string, error: string)

  /** A validated configuration: its device and the hash over everything in it, never the zero hash. */
  datatype Config = Config(device: string, fingerprint: nat) {
    predicate Valid() {
      fingerprint != ZERO_FINGERPRINT
    }
  }

  const ZERO_FINGERPRINT: nat := 0

  /** The fields guarded by the manager's lock; `cancel` and `done` name the worker they belong to. */
  datatype Core = Core(generation: nat, cancel: Option<nat>, done: Option<nat>, fingerprint: nat, status: Status)

  // ----- Critical sections -----

  function Vacate(c: Core): Core {
    c.(generation := c.generation + 1, cancel := None, done := None, fingerprint := ZERO_FINGERPRINT)
  }

  /** What Configure does under its first lock. */
  function Detach(c: Core, config: Config): Core {
    if c.cancel.Some? && c.fingerprint != config.fingerprint then Vacate(c) else c
  }

  function Install(c: Core, config: Config, worker: nat): Core {
    Core(c.generation + 1, Some(worker), Some(worker), config.fingerprint, Status(config.device, CONNECTING, ""))
  }

  function StopCore(c: Core): Core {
    if c.cancel.None? then c else Vacate(c).(status := c.status.(state := STOPPED, error := ""))
  }

  /** A worker of the given generation reports a state. */
  function Update(c: Core, generation: nat, state: string, message: string): Core {
    if generation != c.generation then c
    else
      var s := c.(status := c.status.(state := state, error := message));
      if state == FAILED || state == STOPPED then s.(cancel := None, done := None, fingerprint := ZERO_FINGERPRINT) else s
  }

  datatype Taken = Kept(status: Status) | Vacant | Replaced(cancel: nat, done: Option<nat>)

  /** The manager's fields and the stretches of its methods that hold the lock. */
  class Manager {
    var generation: nat
    var cancel: Option<nat>
    var done: Option<nat>
    var fingerprint: nat
    var status: Status

    ghost function View(): Core
      reads this
    {
      Core(generation, cancel, done, fingerprint, status)
    }

    constructor ()
      ensures View() == Core(0, None, None, ZERO_FINGERPRINT, Status("", "", ""))
    {
      generation, cancel, done, fingerprint, status := 0, None, None, ZERO_FINGERPRINT, Status("", "", "");
    }

    method ConfigureDetach(config: Config) returns (taken: Taken)
      modifies this
      ensures View() == Detach(old(View()), config)
      ensures taken == if old(cancel).None? then Vacant
                       else if old(fingerprint) == config.fingerprint then Kept(old(status))
                       else Replaced(old(cancel).value, old(done))
    {
      if cancel.Some? && fingerprint == config.fingerprint {
        return Kept(status);
      }
      var oldCancel, oldDone := cancel, done;
      if oldCancel.None? {
        return Vacant;
      }
      generation := generation + 1;
      cancel := None;
      done := None;
      fingerprint := ZERO_FINGERPRINT;
      taken := Replaced(oldCancel.value, oldDone);
    }

    method ConfigureInstall(config: Config, worker: nat) returns (mine: nat, s: Status)
      modifies this
      ensures View() == Install(old(View()), config, worker)
      ensures mine == generation && s == status
    {
      generation := generation + 1;
      mine := generation;
      cancel := Some(worker);
      done := Some(worker);
      fingerprint := config.fingerprint;
      status := Status(config.device, CONNECTING, "");
      s := status;
    }

    method StopDetach() returns (taken: Taken)
      modifies this
      ensures View() == StopCore(old(View()))
      ensures taken == if old(cancel).None? then Vacant else Replaced(old(cancel).value, old(done))
    {
      if cancel.None? {
        return Vacant;
      }
      taken := Replaced(cancel.value, done);
      cancel := None;
      done := None;
      fingerprint := ZERO_FINGERPRINT;
      generation := generation + 1;
      status := status.(state := STOPPED, error := "");
    }

    method UpdateGeneration(g: nat, state: string, message: string)
      modifies this
      ensures View() == Update(old(View()), g, state, message)
    {
      if g != generation {
        return;
      }
      status := status.(state := state, error := message);
      if state == FAILED || state == STOPPED {
        cancel := None;
        done := None;
        fingerprint := ZERO_FINGERPRINT;
      }
    }
  }

  // ----- The concurrent system -----

  /** A worker goroutine: its runner runs, has returned, its last report is decided, made, and `done` is closed. */
  datatype Phase = Running | Returned(error: Option<string>) | Deciding(state: string, message: string) | Reported | Closed

  datatype Worker = Worker(generation: nat, over: bool, phase: Phase)

  /** Configure and Stop exclude one another; each cancels the worker it detached and waits for it. */
  datatype Purpose = Reconfigure(config: Config) | ToStop

  datatype Api =
    | Idle | Cancelling(target: nat, purpose: Purpose) | Waiting(target: nat, purpose: Purpose) | Installing(config: Config)

  /** `abandoned` remembers a Configure that gave up waiting, `timeouts` whether any wait ever expired. */
  datatype World = World(core: Core, workers: seq<Worker>, api: Api, abandoned: bool, timeouts: bool)

  datatype Action =
    | BeginConfigure(config: Config)
    | BeginStop
    | CancelOld
    | WaitDone
    | WaitExpired
    | InstallNew
    | Deadline(k: nat)
    | RunReturns(k: nat, error: Option<string>)
    | Decide(k: nat)
    | Report(k: nat)
    | CloseDone(k: nat)
    | Callback(k: nat, state: string)

  predicate Enabled(w: World, a: Action) {
    match a
    case BeginConfigure(config) => w.api.Idle? && config.Valid()
    case BeginStop => w.api.Idle?
    case CancelOld => w.api.Cancelling? && w.api.target < |w.workers|
    case WaitDone => w.api.Waiting? && w.api.target < |w.workers| && w.workers[w.api.target].phase.Closed?
    case WaitExpired => w.api.Waiting?
    case InstallNew => w.api.Installing?
    case Deadline(k) => k < |w.workers|
    case RunReturns(k, _) => k < |w.workers| && w.workers[k].phase.Running?
    case Decide(k) => k < |w.workers| && w.workers[k].phase.Returned?
    case Report(k) => k < |w.workers| && w.workers[k].phase.Deciding?
    case CloseDone(k) => k < |w.workers| && w.workers[k].phase.Reported?
    case Callback(k, state) => k < |w.workers| && (state == CONNECTED || state == RECONNECTING)
  }

  function SetPhase(w: World, k: nat, p: Phase): World
    requires k < |w.workers|
  {
    w.(workers := w.workers[k := w.workers[k].(phase := p)])
  }

  function Next(w: World, a: Action): World
    requires Enabled(w, a)
  {
    match a
    case BeginConfigure(config) =>
      var c := w.core;
      if c.cancel.Some? && c.fingerprint == config.fingerprint then w
      else w.(core := Detach(c, config),
              api := if c.cancel.Some? then Cancelling(c.cancel.value, Reconfigure(config)) else Installing(config))
    case BeginStop =>
      if w.core.cancel.None? then w
      else w.(core := StopCore(w.core), api := Cancelling(w.core.cancel.value, ToStop))
    case CancelOld =>
      w.(workers := w.workers[w.api.target := w.workers[w.api.target].(over := true)],
         api := Waiting(w.api.target, w.api.purpose))
    case WaitDone => w.(api := if w.api.purpose.ToStop? then Idle else Installing(w.api.purpose.config))
    case WaitExpired => w.(api := Idle, abandoned := w.abandoned || w.api.purpose.Reconfigure?, timeouts := true)
    case InstallNew =>
      w.(core := Install(w.core, w.api.config, |w.workers|),
         workers := w.workers + [Worker(w.core.generation + 1, false, Running)], api := Idle, abandoned := false)
    case Deadline(k) => w.(workers := w.workers[k := w.workers[k].(over := true)])
    case RunReturns(k, error) => SetPhase(w, k, Returned(error))
    case Decide(k) =>
      var x := w.workers[k];
      SetPhase(w, k, if !x.over && x.phase.error.Some? then Deciding(FAILED, x.phase.error.value) else Deciding(STOPPED, ""))
    case Report(k) =>
      var x := w.workers[k];
      SetPhase(w, k, Reported).(core := Update(w.core, x.generation, x.phase.state, x.phase.message))
    case CloseDone(k) => SetPhase(w, k, Closed)
    case Callback(k, state) => w.(core := Update(w.core, w.workers[k].generation, state, ""))
  }

  function Begin(): World {
    World(Core(0, None, None, ZERO_FINGERPRINT, Status("", "", "")), [], Idle, false, false)
  }

  /** Every interleaving is a list of actions, each enabled where it is taken. */
  predicate Legal(w: World, acts: seq<Action>)
    decreases |acts|
  {
    acts == [] || (Enabled(w, acts[0]) && Legal(Next(w, acts[0]), acts[1..]))
  }

  function After(w: World, acts: seq<Action>): World
    requires Legal(w, acts)
    decreases |acts|
  {
    if acts == [] then w else After(Next(w, acts[0]), acts[1..])
  }

  // ----- What every interleaving keeps -----

  predicate Active(x: Worker) {
    x.phase.Running? || x.phase.Returned? || x.phase.Deciding?
  }

  /** Handles are set together, on the worker of the current generation, and the fingerprint goes with them. */
  predicate CoreKept(w: World) {
    && w.core.cancel == w.core.done
    && (w.core.cancel.None? <==> w.core.fingerprint == ZERO_FINGERPRINT)
    && (w.core.cancel.Some? ==> Current(w, w.core.cancel.value))
    && (forall k :: 0 <= k < |w.workers| && Current(w, k) ==> w.core.cancel == Some(k))
  }

  /** Worker k belongs to the present generation and has not made its last report. */
  predicate Current(w: World, k: nat) {
    k < |w.workers| && w.workers[k].generation == w.core.generation && Active(w.workers[k])
  }

  /** Worker generations only grow, and none is ahead of the manager's. */
  predicate GenerationsKept(w: World) {
    && (forall k :: 0 <= k < |w.workers| ==> w.workers[k].generation <= w.core.generation)
    && (forall j, k :: 0 <= j < k < |w.workers| ==> w.workers[j].generation < w.workers[k].generation)
  }

  /** While Configure or Stop is under way there is no live session; what it waits for is a worker left behind. */
  predicate ApiKept(w: World) {
    match w.api
    case Idle => true
    case Installing(config) => w.core.cancel.None? && config.Valid()
    case Cancelling(t, p) => w.core.cancel.None? && Left(w, t) && (p.Reconfigure? ==> p.config.Valid())
    case Waiting(t, p) => w.core.cancel.None? && Left(w, t) && (p.Reconfigure? ==> p.config.Valid())
  }

  predicate Left(w: World, t: nat) {
    t < |w.workers| && w.workers[t].generation < w.core.generation
  }

  /** Unless a wait expired, whoever is active is the live session's worker or the one being waited for. */
  predicate RunnersKept(w: World) {
    !w.timeouts ==> forall k :: 0 <= k < |w.workers| && Active(w.workers[k]) ==>
      w.core.cancel == Some(k) || ((w.api.Cancelling? || w.api.Waiting?) && w.api.target == k)
  }

  predicate DecisionsKept(w: World) {
    forall k :: 0 <= k < |w.workers| && w.workers[k].phase.Deciding? ==>
      w.workers[k].phase.state == STOPPED || w.workers[k].phase.state == FAILED
  }

  predicate Inv(w: World) {
    CoreKept(w) && GenerationsKept(w) && ApiKept(w) && RunnersKept(w) && DecisionsKept(w)
  }

  lemma ApiStepKeeps(w: World, a: Action)
    requires Inv(w) && Enabled(w, a)
    requires a.BeginConfigure? || a.BeginStop? || a.CancelOld? || a.WaitDone? || a.WaitExpired?
    ensures Inv(Next(w, a))
  {
  }

  lemma InstallKeeps(w: World)
    requires Inv(w) && Enabled(w, InstallNew)
    ensures Inv(Next(w, InstallNew))
  {
  }

  /** Anything a worker does to itself alone. */
  lemma OwnStepKeeps(w: World, k: nat, x: Worker)
    requires Inv(w) && k < |w.workers| && x.generation == w.workers[k].generation
    requires Active(x) <==> Active(w.workers[k])
    requires x.phase.Deciding? ==> x.phase.state == STOPPED || x.phase.state == FAILED
    ensures Inv(w.(workers := w.workers[k := x]))
  {
    var w' := w.(workers := w.workers[k := x]);
    assert forall j :: 0 <= j < |w.workers| ==> (Current(w', j) <==> Current(w, j));
    assert forall j :: 0 <= j < |w.workers| ==> (Active(w'.workers[j]) <==> Active(w.workers[j]));
  }

  lemma CallbackKeeps(w: World, k: nat, state: string)
    requires Inv(w) && Enabled(w, Callback(k, state))
    ensures Inv(Next(w, Callback(k, state)))
  {
    var w' := Next(w, Callback(k, state));
    assert state != FAILED && state != STOPPED by {
      assert CONNECTED[0] == 'c' && RECONNECTING[0] == 'r' && FAILED[0] == 'f' && STOPPED[0] == 's';
    }
    assert forall j :: 0 <= j < |w.workers| ==> (Current(w', j) <==> Current(w, j));
  }

  lemma ReportKeeps(w: World, k: nat)
    requires Inv(w) && Enabled(w, Report(k))
    ensures Inv(Next(w, Report(k)))
  {
    var w' := Next(w, Report(k));
    if w.workers[k].generation == w.core.generation {
      assert w'.core.cancel.None?;
    }
  }

  lemma StepKeeps(w: World, a: Action)
    requires Inv(w) && Enabled(w, a)
    ensures Inv(Next(w, a))
  {
    match a
    case InstallNew => InstallKeeps(w);
    case Report(k) => ReportKeeps(w, k);
    case Deadline(k) => OwnStepKeeps(w, k, Next(w, a).workers[k]);
    case RunReturns(k, _) => OwnStepKeeps(w, k, Next(w, a).workers[k]);
    case Decide(k) => OwnStepKeeps(w, k, Next(w, a).workers[k]);
    case CloseDone(k) => OwnStepKeeps(w, k, Next(w, a).workers[k]);
    case Callback(k, state) => CallbackKeeps(w, k, state);
    case _ => ApiStepKeeps(w, a);
  }

  lemma {:induction false} RunKeeps(w: World, acts: seq<Action>)
    requires Inv(w) && Legal(w, acts)
    ensures Inv(After(w, acts))
    decreases |acts|
  {
    if acts != [] {
      StepKeeps(w, acts[0]);
      RunKeeps(Next(w, acts[0]), acts[1..]);
    }
  }

  /** In every reachable state the two handles are both set or both nil, and the fingerprint is zero exactly when
      they are nil. */
  lemma HandlesGoTogether(acts: seq<Action>)
    requires Legal(Begin(), acts)
    ensures var c := After(Begin(), acts).core;
      c.cancel == c.done && (c.cancel.None? <==> c.fingerprint == ZERO_FINGERPRINT)
  {
    RunKeeps(Begin(), acts);
  }

  /** If no wait ever expired, no two runners are active at once. */
  lemma AtMostOneRunner(acts: seq<Action>, j: nat, k: nat)
    requires Legal(Begin(), acts) && !After(Begin(), acts).timeouts
    requires j < |After(Begin(), acts).workers| && Active(After(Begin(), acts).workers[j])
    requires k < |After(Begin(), acts).workers| && Active(After(Begin(), acts).workers[k])
    ensures j == k
  {
    RunKeeps(Begin(), acts);
  }

  // ----- The present worker is heard -----

  /** A session that is installed is the worker just started, and its status names the device and says connecting. */
  lemma InstallShows(w: World)
    requires Inv(w) && w.api.Installing?
    ensures var w' := Next(w, InstallNew);
      var k := |w.workers|;
      && w'.core.status == Status(w.api.config.device, "connecting", "") && w'.core.fingerprint == w.api.config.fingerprint
      && w'.core.cancel == Some(k) && |w'.workers| == k + 1 && Current(w', k) && w'.workers[k].phase.Running?
  {
  }

  /** What the present worker's client reports is shown, and the session stays. */
  lemma CallbackShows(w: World, k: nat, state: string)
    requires Inv(w) && Current(w, k) && Enabled(w, Callback(k, state))
    ensures var w' := Next(w, Callback(k, state));
      w'.core.status == Status(w.core.status.device, state, "") && w'.core.cancel == Some(k)
  {
    DifferentStates();
  }

  /** When the present worker's runner has returned, its last report shows a failure with the error's text, if there was
      one and nobody had called it off, and otherwise a plain stop; either way the session is over. */
  lemma LastReportShows(w: World, k: nat)
    requires Inv(w) && Current(w, k) && w.workers[k].phase.Returned?
    ensures var x := w.workers[k];
      var w' := Next(Next(w, Decide(k)), Report(k));
      && w'.core.cancel.None? && w'.core.fingerprint == ZERO_FINGERPRINT
      && w'.core.status == (if x.phase.error.Some? && !x.over then Status(w.core.status.device, "failed", x.phase.error.value)
                            else Status(w.core.status.device, "stopped", ""))
  {
  }

  // ----- Old generations are harmless -----

  /** Workers are never lost, and keep their generation; only installing adds one, and generations only grow. */
  lemma GenerationsStay(w: World, a: Action)
    requires Enabled(w, a)
    ensures var w' := Next(w, a);
      && w'.core.generation >= w.core.generation && |w'.workers| >= |w.workers|
      && (!a.InstallNew? ==> |w'.workers| == |w.workers|)
      && forall k :: 0 <= k < |w.workers| ==> w'.workers[k].generation == w.workers[k].generation
  {
  }

  predicate ByWorker(a: Action, k: nat) {
    a == Deadline(k) || a == Decide(k) || a == Report(k) || a == CloseDone(k)
    || (a.RunReturns? && a.k == k) || (a.Callback? && a.k == k)
  }

  /** Once a worker is left behind it stays behind, and nothing it does ever touches the manager. */
  lemma {:induction false} OldWorkerIsHarmless(w: World, k: nat, acts: seq<Action>, a: Action)
    requires Inv(w) && Left(w, k) && Legal(w, acts) && Enabled(After(w, acts), a) && ByWorker(a, k)
    ensures Left(After(w, acts), k) && Next(After(w, acts), a).core == After(w, acts).core
    decreases |acts|
  {
    if acts != [] {
      StepKeeps(w, acts[0]);
      var w' := Next(w, acts[0]);
      GenerationsStay(w, acts[0]);
      OldWorkerIsHarmless(w', k, acts[1..], a);
    }
  }

  /** No session is live, and every worker there is belongs to the past. */
  predicate Quiet(w: World) {
    w.core.cancel.None? && forall k :: 0 <= k < |w.workers| ==> Left(w, k)
  }

  predicate NoInstall(acts: seq<Action>) {
    forall i :: 0 <= i < |acts| ==> !acts[i].InstallNew?
  }

  /** In the quiet nothing changes the manager at all, not even Stop, until the next Configure installs a session. */
  lemma {:induction false} QuietLasts(w: World, acts: seq<Action>)
    requires Inv(w) && Quiet(w) && Legal(w, acts) && NoInstall(acts)
    ensures After(w, acts).core == w.core && Quiet(After(w, acts))
    decreases |acts|
  {
    if acts != [] {
      StepKeeps(w, acts[0]);
      var w' := Next(w, acts[0]);
      assert !acts[0].InstallNew?;
      QuietStep(w, acts[0]);
      QuietLasts(w', acts[1..]);
    }
  }

  lemma QuietStep(w: World, a: Action)
    requires Inv(w) && Quiet(w) && Enabled(w, a) && !a.InstallNew?
    ensures Next(w, a).core == w.core && Quiet(Next(w, a))
  {
    GenerationsStay(w, a);
    if a.Report? || a.Callback? {
      assert Left(w, a.k);
    }
    forall k | 0 <= k < |w.workers| ensures Left(Next(w, a), k) {
      assert Left(w, k);
    }
  }

  lemma DetachingIsQuiet(w: World)
    requires Inv(w)
    ensures Quiet(w.(core := Vacate(w.core)))
  {
  }

  /** After Stop of a live session the status stays "stopped" through every interleaving, until a Configure installs. */
  lemma StopStays(w: World, acts: seq<Action>)
    requires Inv(w) && Enabled(w, BeginStop) && w.core.cancel.Some?
    requires Legal(Next(w, BeginStop), acts) && NoInstall(acts)
    ensures var w' := After(Next(w, BeginStop), acts);
      w'.core.status == Status(w.core.status.device, STOPPED, "") && w'.core.cancel.None?
  {
    StepKeeps(w, BeginStop);
    DetachingIsQuiet(w);
    QuietLasts(Next(w, BeginStop), acts);
  }

  /** A Configure that replaces a live session leaves the old status standing until it installs; if it gives up
      waiting, that status stays, whatever Stop is called, until another Configure installs. */
  lemma ReplacedStatusStays(w: World, config: Config, acts: seq<Action>)
    requires Inv(w) && Enabled(w, BeginConfigure(config)) && w.core.cancel.Some? && w.core.fingerprint != config.fingerprint
    requires Legal(Next(w, BeginConfigure(config)), acts) && NoInstall(acts)
    ensures var w' := After(Next(w, BeginConfigure(config)), acts);
      w'.core.status == w.core.status && w'.core.cancel.None?
  {
    StepKeeps(w, BeginConfigure(config));
    DetachingIsQuiet(w);
    QuietLasts(Next(w, BeginConfigure(config)), acts);
  }

  // ----- When the status tells the truth -----

  predicate LiveState(state: string) {
    state == CONNECTING || state == CONNECTED || state == RECONNECTING
  }

  /** The status shows a session exactly when there is one. */
  predicate Honest(w: World) {
    LiveState(w.core.status.state) <==> w.core.cancel.Some?
  }

  /** A report from a worker of the present generation that has already made its last report. */
  predicate LateReport(w: World, a: Action) {
    a.Callback? && a.k < |w.workers| && w.workers[a.k].generation == w.core.generation && !Active(w.workers[a.k])
  }

  /** No worker of the present generation reports after its last report. */
  predicate Careful(w: World, acts: seq<Action>)
    requires Legal(w, acts)
    decreases |acts|
  {
    acts == [] || (!LateReport(w, acts[0]) && Careful(Next(w, acts[0]), acts[1..]))
  }

  /** Among all reports those late ones are just what makes an honest status lie. */
  lemma ReportLiesIffLate(w: World, a: Action)
    requires Inv(w) && Honest(w) && Enabled(w, a) && a.Callback?
    ensures Honest(Next(w, a)) <==> !LateReport(w, a)
  {
    DifferentStates();
    assert !LateReport(w, a) && w.workers[a.k].generation == w.core.generation ==> Current(w, a.k);
    assert w.core.cancel.Some? ==> Current(w, w.core.cancel.value);
  }

  predicate ToldKept(w: World) {
    if w.abandoned || Replacing(w) then LiveState(w.core.status.state) && Quiet(w) else Honest(w)
  }

  /** A Configure has detached a session and not yet installed its own. */
  predicate Replacing(w: World) {
    ((w.api.Cancelling? || w.api.Waiting?) && w.api.purpose.Reconfigure?)
    || (w.api.Installing? && LiveState(w.core.status.state))
  }

  lemma DifferentStates()
    ensures CONNECTING != FAILED && CONNECTED != FAILED && RECONNECTING != FAILED
    ensures CONNECTING != STOPPED && CONNECTED != STOPPED && RECONNECTING != STOPPED
    ensures "" != CONNECTING && "" != CONNECTED && "" != RECONNECTING
  {
    assert CONNECTING[0] == 'c' && CONNECTED[0] == 'c' && RECONNECTING[0] == 'r' && FAILED[0] == 'f' && STOPPED[0] == 's';
  }

  lemma QuietTold(w: World, a: Action)
    requires Inv(w) && ToldKept(w) && Enabled(w, a) && (w.abandoned || Replacing(w)) && !a.InstallNew?
    ensures ToldKept(Next(w, a))
  {
    QuietStep(w, a);
  }

  lemma InstallTold(w: World)
    requires Enabled(w, InstallNew)
    ensures ToldKept(Next(w, InstallNew))
  {
  }

  lemma ApiTold(w: World, a: Action)
    requires Inv(w) && Honest(w) && !w.abandoned && !Replacing(w) && Enabled(w, a)
    requires a.BeginConfigure? || a.BeginStop? || a.CancelOld? || a.WaitDone? || a.WaitExpired?
    ensures ToldKept(Next(w, a))
  {
    DifferentStates();
    DetachingIsQuiet(w);
  }

  lemma WorkerTold(w: World, a: Action)
    requires Inv(w) && Honest(w) && !w.abandoned && !Replacing(w) && Enabled(w, a)
    requires !a.BeginConfigure? && !a.BeginStop? && !a.CancelOld? && !a.WaitDone? && !a.WaitExpired? && !a.InstallNew?
    requires !LateReport(w, a)
    ensures ToldKept(Next(w, a))
  {
    DifferentStates();
    if (a.Callback? || a.Report?) && w.workers[a.k].generation == w.core.generation {
      assert Current(w, a.k);
    }
  }

  lemma CarefulStep(w: World, a: Action)
    requires Inv(w) && ToldKept(w) && Enabled(w, a) && !LateReport(w, a)
    ensures ToldKept(Next(w, a))
  {
    if a.InstallNew? {
      InstallTold(w);
    } else if w.abandoned || Replacing(w) {
      QuietTold(w, a);
    } else if a.BeginConfigure? || a.BeginStop? || a.CancelOld? || a.WaitDone? || a.WaitExpired? {
      ApiTold(w, a);
    } else {
      WorkerTold(w, a);
    }
  }

  lemma {:induction false} CarefulRun(w: World, acts: seq<Action>)
    requires Inv(w) && ToldKept(w) && Legal(w, acts) && Careful(w, acts)
    ensures Inv(After(w, acts)) && ToldKept(After(w, acts))
    decreases |acts|
  {
    if acts != [] {
      StepKeeps(w, acts[0]);
      CarefulStep(w, acts[0]);
      CarefulRun(Next(w, acts[0]), acts[1..]);
    }
  }

  /** If no worker of the present generation reports after its last report, then whenever no call is under way the
      status is honest if and only if the last Configure to detach a session did not give up waiting for it. */
  lemma StatusHonestIff(acts: seq<Action>)
    requires Legal(Begin(), acts) && Careful(Begin(), acts) && After(Begin(), acts).api.Idle?
    ensures Honest(After(Begin(), acts)) <==> !After(Begin(), acts).abandoned
  {
    DifferentStates();
    CarefulRun(Begin(), acts);
  }

  /** A session whose worker will not stop: Configure gives up, and "connected" stays though no session is live. */
  lemma TimeoutLeavesConnected() returns (acts: seq<Action>)
    ensures Legal(Begin(), acts) && Careful(Begin(), acts)
    ensures var w := After(Begin(), acts); w.api.Idle? && w.core.cancel.None? && w.core.status == Status("d", CONNECTED, "")
  {
    var first, second := Config("d", 1), Config("d", 2);
    DifferentStates();
    var w1 := Next(Begin(), BeginConfigure(first));
    var w2 := Next(w1, InstallNew);
    var w3 := Next(w2, Callback(0, CONNECTED));
    var w4 := Next(w3, BeginConfigure(second));
    var w5 := Next(w4, CancelOld);
    assert w5.core.cancel.None? && w5.core.status == Status("d", CONNECTED, "");
    acts := Before(w5, WaitExpired, []);
    acts := Before(w4, CancelOld, acts);
    acts := Before(w3, BeginConfigure(second), acts);
    acts := Before(w2, Callback(0, CONNECTED), acts);
    acts := Before(w1, InstallNew, acts);
    acts := Before(Begin(), BeginConfigure(first), acts);
  }

  /** A running worker of the present generation fails by itself, makes its last report, and then one more. */
  lemma FailThenReport(w: World) returns (acts: seq<Action>)
    requires |w.workers| == 1 && w.workers[0] == Worker(w.core.generation, false, Running)
    ensures Legal(w, acts) && !Careful(w, acts)
    ensures var w' := After(w, acts);
      w'.core.cancel.None? && w'.core.status.state == RECONNECTING && w'.api == w.api && w'.abandoned == w.abandoned
  {
    DifferentStates();
    var w3 := Next(w, RunReturns(0, Some("refused")));
    var w4 := Next(w3, Decide(0));
    var w5 := Next(w4, Report(0));
    assert w5.core.cancel.None? && w5.core.generation == w5.workers[0].generation;
    acts := Before(w5, Callback(0, RECONNECTING), []);
    acts := Before(w4, Report(0), acts);
    acts := Before(w3, Decide(0), acts);
    acts := Before(w, RunReturns(0, Some("refused")), acts);
  }

  /** Without that care even a session that failed by itself can look alive again: its generation is still the
      present one, so a late report from its client is believed. */
  lemma LateReportRevives() returns (acts: seq<Action>)
    ensures Legal(Begin(), acts) && !Careful(Begin(), acts)
    ensures var w := After(Begin(), acts);
      w.api.Idle? && !w.abandoned && w.core.cancel.None? && w.core.status.state == RECONNECTING
  {
    var w1 := Next(Begin(), BeginConfigure(Config("d", 1)));
    acts := FailThenReport(Next(w1, InstallNew));
    acts := Before(w1, InstallNew, acts);
    acts := Before(Begin(), BeginConfigure(Config("d", 1)), acts);
  }

  lemma Before(w: World, a: Action, acts: seq<Action>) returns (all: seq<Action>)
    requires Enabled(w, a) && Legal(Next(w, a), acts)
    ensures Legal(w, all) && After(w, all) == After(Next(w, a), acts)
    ensures Careful(w, all) <==> !LateReport(w, a) && Careful(Next(w, a), acts)
  {
    all := [a] + acts;
    assert all[1..] == acts;
  }
}
