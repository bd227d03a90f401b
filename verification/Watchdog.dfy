/** The companion's watch over the agent process: probing, restarting, reconciling, notifying
    (app/tray/companion_watchdog.go). Times are in seconds. */
module Watchdog {
  import opened Wrappers

  const FAIL_THRESHOLD: nat := 3
  const RECONCILE_RETRY_INTERVAL: int := 300
  const RECOVERY_THRESHOLD: int := 900
  const NOTIFY_INTERVAL: int := 3600

  /** What one tick observes, and the clock readings it takes in order. `known` is false when the registration
      could not be observed, `startFails` tells whether starting the agent would fail. */
  datatype Probe = Probe(healthy: bool, needsSync: bool, bad: bool, known: bool, startFails: bool,
                         observeAt: int, allowAt: int, markAt: int)

  datatype Watch = Watch(lastAttempt: Option<int>, badSince: Option<int>, lastNotify: Option<int>, fails: nat)

  /** What one tick did; `synced` is the sync that follows a successful start. */
  datatype Effect = Effect(notified: bool, reconciled: bool, reset: bool, due: bool, ensureStarted: bool, synced: bool)

  function Start(): Watch {
    Watch(None, None, None, 0)
  }

  // ----- One tick -----

  predicate Allows(lastAttempt: Option<int>, now: int) {
    lastAttempt.None? || now - lastAttempt.value >= RECONCILE_RETRY_INTERVAL
  }

  datatype Tracker = Tracker(badSince: Option<int>, lastNotify: Option<int>)

  /** The tracker afterwards and its two verdicts: reconcile due, notification due. */
  function Observe(t: Tracker, bad: bool, now: int): (Tracker, bool, bool) {
    if !bad then (t.(badSince := None), false, false)
    else if t.badSince.None? then (t.(badSince := Some(now)), false, false)
    else if now - t.badSince.value < RECOVERY_THRESHOLD then (t, false, false)
    else
      var notify := t.lastNotify.None? || now - t.lastNotify.value >= NOTIFY_INTERVAL;
      (if notify then t.(lastNotify := Some(now)) else t, true, notify)
  }

  function HealthyTick(s: Watch, p: Probe): (Watch, Effect) {
    var before := Tracker(s.badSince, s.lastNotify);
    var (t, due, notify) := if p.known then Observe(before, p.bad, p.observeAt) else (before, false, false);
    var reset := !p.needsSync && p.known && !due;
    var gate := if reset then None else s.lastAttempt;
    var go := (p.needsSync || due) && Allows(gate, p.allowAt);
    (Watch(if go then Some(p.markAt) else gate, t.badSince, t.lastNotify, 0), Effect(notify, go, reset, due, false, false))
  }

  function FailedTick(s: Watch, p: Probe): (Watch, Effect) {
    var fails := s.fails + 1;
    var start := fails >= FAIL_THRESHOLD;
    (s.(lastAttempt := None, fails := if start then 0 else fails), Effect(false, false, true, false, start, start && !p.startFails))
  }

  function Tick(s: Watch, p: Probe): (Watch, Effect) {
    if p.healthy then HealthyTick(s, p) else FailedTick(s, p)
  }

  /** The watch after the first ticks of a run. */
  function After(ps: seq<Probe>): Watch {
    if ps == [] then Start() else Tick(After(ps[..|ps| - 1]), ps[|ps| - 1]).0
  }

  /** What tick k of a run does. */
  function EffectAt(ps: seq<Probe>, k: nat): Effect
    requires k < |ps|
  {
    Tick(After(ps[..k]), ps[k]).1
  }

  // ----- The objects -----

  class ReconcileGate {
    var lastAttempt: Option<int>

    constructor ()
      ensures lastAttempt == None
    {
      lastAttempt := None;
    }

    predicate Allow(now: int)
      reads this
    {
      Allows(lastAttempt, now)
    }

    method Mark(now: int)
      modifies this
      ensures lastAttempt == Some(now)
    {
      lastAttempt := Some(now);
    }

    method Reset()
      modifies this
      ensures lastAttempt == None
    {
      lastAttempt := None;
    }
  }

  class RegistrationRecoveryTracker {
    var badSince: Option<int>
    var lastNotifyAt: Option<int>

    constructor ()
      ensures badSince == None && lastNotifyAt == None
    {
      badSince, lastNotifyAt := None, None;
    }

    method ObserveProbe(bad: bool, now: int) returns (reconcileDue: bool, notifyDue: bool)
      modifies this
      ensures (Tracker(badSince, lastNotifyAt), reconcileDue, notifyDue)
           == Observe(Tracker(old(badSince), old(lastNotifyAt)), bad, now)
    {
      if !bad {
        badSince := None;
        return false, false;
      }
      if badSince.None? {
        badSince := Some(now);
        return false, false;
      }
      if now - badSince.value < RECOVERY_THRESHOLD {
        return false, false;
      }
      reconcileDue := true;
      notifyDue := lastNotifyAt.None? || now - lastNotifyAt.value >= NOTIFY_INTERVAL;
      if notifyDue {
        lastNotifyAt := Some(now);
      }
    }
  }

  class AgentWatchdog {
    var consecutiveFails: nat
    const reconciles: ReconcileGate
    const regRecovery: RegistrationRecoveryTracker

    ghost function View(): Watch
      reads this, reconciles, regRecovery
    {
      Watch(reconciles.lastAttempt, regRecovery.badSince, regRecovery.lastNotifyAt, consecutiveFails)
    }

    constructor ()
      ensures View() == Start() && fresh(reconciles) && fresh(regRecovery)
    {
      consecutiveFails := 0;
      reconciles := new ReconcileGate();
      regRecovery := new RegistrationRecoveryTracker();
    }

    method OnTick(p: Probe) returns (e: Effect)
      modifies this, reconciles, regRecovery
      ensures (View(), e) == Tick(old(View()), p)
    {
      if p.healthy {
        e := Healthy(p);
        return;
      }
      reconciles.Reset();
      consecutiveFails := consecutiveFails + 1;
      e := Effect(false, false, true, false, false, false);
      if consecutiveFails < FAIL_THRESHOLD {
        return;
      }
      consecutiveFails := 0;
      e := e.(ensureStarted := true);
      if !p.startFails {
        e := e.(synced := true);
      }
    }

    method Healthy(p: Probe) returns (e: Effect)
      modifies this, reconciles, regRecovery
      ensures (View(), e) == HealthyTick(old(View()), p)
    {
      consecutiveFails := 0;
      var reconcileDue, notifyDue := false, false;
      if p.known {
        reconcileDue, notifyDue := regRecovery.ObserveProbe(p.bad, p.observeAt);
      }
      e := Effect(notifyDue, false, false, reconcileDue, false, false);
      if !p.needsSync && p.known && !reconcileDue {
        reconciles.Reset();
        e := e.(reset := true);
      }
      if p.needsSync {
        if !reconciles.Allow(p.allowAt) {
          return;
        }
        reconciles.Mark(p.markAt);
        e := e.(reconciled := true);
        return;
      }
      if reconcileDue {
        if reconciles.Allow(p.allowAt) {
          reconciles.Mark(p.markAt);
          e := e.(reconciled := true);
        }
      }
    }

    /** The watch loop from the start, over any ticks. */
    method Loop(ps: seq<Probe>) returns (effects: seq<Effect>)
      requires View() == Start()
      modifies this, reconciles, regRecovery
      ensures View() == After(ps)
      ensures |effects| == |ps| && forall k :: 0 <= k < |ps| ==> effects[k] == EffectAt(ps, k)
    {
      effects := [];
      assert ps[..0] == [];
      for n := 0 to |ps|
        invariant View() == After(ps[..n])
        invariant |effects| == n && forall k :: 0 <= k < n ==> effects[k] == EffectAt(ps, k)
      {
        assert ps[..n + 1][..n] == ps[..n] && ps[..n + 1][n] == ps[n];
        var e := OnTick(ps[n]);
        effects := effects + [e];
      }
      assert ps[..|ps|] == ps;
    }
  }

  // ----- Promises over every run -----

  /** Clock readings never go back. */
  predicate Clocked(ps: seq<Probe>) {
    && (forall k :: 0 <= k < |ps| ==> ps[k].observeAt <= ps[k].allowAt <= ps[k].markAt)
    && (forall j, k :: 0 <= j < k < |ps| ==> ps[j].markAt <= ps[k].observeAt)
  }

  lemma AfterStep(ps: seq<Probe>, k: nat)
    requires k < |ps|
    ensures After(ps[..k + 1]) == Tick(After(ps[..k]), ps[k]).0
  {
    assert ps[..k + 1][..k] == ps[..k] && ps[..k + 1][k] == ps[k];
  }

  predicate Known(p: Probe) {
    p.healthy && p.known
  }

  predicate NoReset(ps: seq<Probe>, i: int, j: int) {
    forall k :: i < k < j && 0 <= k < |ps| ==> !EffectAt(ps, k).reset
  }

  /** Until a reset the gate remembers the latest attempt. */
  lemma {:induction false} GateRemembers(ps: seq<Probe>, i: nat, j: nat)
    requires Clocked(ps) && i < j <= |ps| && EffectAt(ps, i).reconciled && NoReset(ps, i, j)
    ensures var last := After(ps[..j]).lastAttempt; last.Some? && ps[i].markAt <= last.value
    decreases j
  {
    AfterStep(ps, j - 1);
    if i < j - 1 {
      GateRemembers(ps, i, j - 1);
      assert !EffectAt(ps, j - 1).reset;
    }
  }

  /** Two patrols' reconcile requests with no reset between them are at least five minutes apart, whichever patrol
      asked; the sync after a restart does not count against them. */
  lemma ReconcilesApart(ps: seq<Probe>, i: nat, j: nat)
    requires Clocked(ps) && i < j < |ps| && EffectAt(ps, i).reconciled && EffectAt(ps, j).reconciled && NoReset(ps, i, j)
    ensures ps[j].markAt - ps[i].markAt >= RECONCILE_RETRY_INTERVAL
  {
    GateRemembers(ps, i, j);
  }

  /** The gate is closed at tick j: less than five minutes before, a patrol asked, and nothing has reset it since. */
  predicate Blocked(ps: seq<Probe>, j: nat)
    requires j < |ps|
  {
    exists i :: 0 <= i < j && EffectAt(ps, i).reconciled && NoReset(ps, i, j) && ps[j].allowAt - ps[i].markAt < 300
  }

  function RequestTicks(ps: seq<Probe>): seq<bool> {
    seq(|ps|, k requires 0 <= k < |ps| => EffectAt(ps, k).reconciled)
  }

  function ResetTicks(ps: seq<Probe>): seq<bool> {
    seq(|ps|, k requires 0 <= k < |ps| => EffectAt(ps, k).reset)
  }

  predicate NoneBetween(flags: seq<bool>, i: int, j: int) {
    forall k :: i < k < j && 0 <= k < |flags| ==> !flags[k]
  }

  /** `last` is the time of the latest of the first j flagged ticks with no reset after it. */
  ghost predicate LatestSince(flags: seq<bool>, resets: seq<bool>, ps: seq<Probe>, j: nat, last: Option<int>)
    requires |flags| == |resets| == |ps| && j <= |ps|
  {
    && (last.Some? ==> exists i :: 0 <= i < j && flags[i] && NoneBetween(resets, i, j) && ps[i].markAt == last.value)
    && (forall i :: 0 <= i < j && flags[i] && NoneBetween(resets, i, j) ==> last.Some? && ps[i].markAt <= last.value)
  }

  lemma LatestSinceStep(flags: seq<bool>, resets: seq<bool>, ps: seq<Probe>, j: nat, last: Option<int>)
    requires |flags| == |resets| == |ps| && 0 < j <= |ps| && Clocked(ps) && LatestSince(flags, resets, ps, j - 1, last)
    ensures LatestSince(flags, resets, ps, j,
                        if flags[j - 1] then Some(ps[j - 1].markAt) else if resets[j - 1] then None else last)
  {
    assert forall i :: 0 <= i < j - 1 ==> (NoneBetween(resets, i, j) <==> NoneBetween(resets, i, j - 1) && !resets[j - 1]);
    assert NoneBetween(resets, j - 1, j);
  }

  lemma GateStep(s: Watch, p: Probe)
    ensures var (t, e) := Tick(s, p);
      t.lastAttempt == if e.reconciled then Some(p.markAt) else if e.reset then None else s.lastAttempt
  {
  }

  /** The gate remembers the latest request since the last reset. */
  lemma {:induction false} GateRemembersLatest(ps: seq<Probe>, j: nat)
    requires Clocked(ps) && j <= |ps|
    ensures LatestSince(RequestTicks(ps), ResetTicks(ps), ps, j, After(ps[..j]).lastAttempt)
  {
    if j > 0 {
      GateRemembersLatest(ps, j - 1);
      AfterStep(ps, j - 1);
      GateStep(After(ps[..j - 1]), ps[j - 1]);
      LatestSinceStep(RequestTicks(ps), ResetTicks(ps), ps, j, After(ps[..j - 1]).lastAttempt);
    }
  }

  lemma RequestDecision(s: Watch, p: Probe)
    ensures var e := Tick(s, p).1;
      && (e.reconciled <==>
          (p.healthy && (p.needsSync || e.due) && (s.lastAttempt.None? || p.allowAt - s.lastAttempt.value >= 300)))
      && (e.reset && p.healthy ==> !p.needsSync && !e.due)
  {
  }

  /** A patrol asks exactly when a healthy agent needs the sync or recovery is due, and no patrol has asked within five
      minutes without a reset since: a request held back is let through once the five minutes are over. */
  lemma ReconciledIff(ps: seq<Probe>, j: nat)
    requires Clocked(ps) && j < |ps|
    ensures EffectAt(ps, j).reconciled <==>
      ps[j].healthy && (ps[j].needsSync || EffectAt(ps, j).due) && !Blocked(ps, j)
  {
    GateRemembersLatest(ps, j);
    RequestDecision(After(ps[..j]), ps[j]);
    BlockedIff(ps, j, After(ps[..j]).lastAttempt);
  }

  lemma BlockedIff(ps: seq<Probe>, j: nat, last: Option<int>)
    requires j < |ps| && LatestSince(RequestTicks(ps), ResetTicks(ps), ps, j, last)
    ensures Blocked(ps, j) <==> last.Some? && ps[j].allowAt - last.value < 300
  {
    var flags, resets := RequestTicks(ps), ResetTicks(ps);
    forall i | 0 <= i < j ensures NoReset(ps, i, j) <==> NoneBetween(resets, i, j) {
      assert forall k :: i < k < j ==> resets[k] == EffectAt(ps, k).reset;
    }
    if last.Some? && ps[j].allowAt - last.value < 300 {
      var i :| 0 <= i < j && flags[i] && NoneBetween(resets, i, j) && ps[i].markAt == last.value;
      assert EffectAt(ps, i).reconciled && NoReset(ps, i, j);
    }
    if Blocked(ps, j) {
      var i :| 0 <= i < j && EffectAt(ps, i).reconciled && NoReset(ps, i, j) && ps[j].allowAt - ps[i].markAt < 300;
      assert flags[i] && NoneBetween(resets, i, j);
    }
  }

  /** A tick that posts to the core: a patrol's reconcile request, or the sync after a restart. */
  predicate Posts(ps: seq<Probe>, k: nat)
    requires k < |ps|
  {
    EffectAt(ps, k).reconciled || EffectAt(ps, k).synced
  }

  /** Of two posts less than five minutes apart, with no reset between them, one is the sync after a restart. */
  lemma PostsApart(ps: seq<Probe>, i: nat, j: nat)
    requires Clocked(ps) && i < j < |ps| && Posts(ps, i) && Posts(ps, j) && NoReset(ps, i, j)
    ensures EffectAt(ps, i).synced || EffectAt(ps, j).synced || ps[j].markAt - ps[i].markAt >= RECONCILE_RETRY_INTERVAL
  {
    if EffectAt(ps, i).reconciled && EffectAt(ps, j).reconciled {
      ReconcilesApart(ps, i, j);
    }
  }

  /** Behind a failed tick the gate is open: the next healthy tick with something to reconcile does so at once, however
      short a time ago the restart posted its sync. */
  lemma FailureOpensGate(ps: seq<Probe>, k: nat)
    requires k + 1 < |ps| && !ps[k].healthy && ps[k + 1].healthy
    ensures EffectAt(ps, k + 1).reconciled <==> ps[k + 1].needsSync || EffectAt(ps, k + 1).due
  {
    AfterStep(ps, k);
  }

  function FailedProbe(at: int): Probe {
    Probe(false, false, false, false, false, at, at, at)
  }

  /** Three failed ticks, a restart with its sync, and ten seconds later a healthy tick that still needs one. */
  function RestartRun(): seq<Probe> {
    [FailedProbe(0), FailedProbe(10), FailedProbe(20), Probe(true, true, false, true, false, 30, 30, 30)]
  }

  /** There the sync and the reconcile request are ten seconds apart with no reset between them. */
  lemma SyncThenReconcile()
    ensures var ps := RestartRun();
      && Clocked(ps) && EffectAt(ps, 2).synced && EffectAt(ps, 3).reconciled && NoReset(ps, 2, 3)
      && ps[3].markAt - ps[2].markAt == 10
  {
    var ps := RestartRun();
    EnsureIffThird(ps, 2);
    assert ps[..3][..2] == ps[..2] && ps[..2][..1] == ps[..1];
    FailureOpensGate(ps, 2);
  }

  /** Healthy ticks whose registration could not be observed. */
  predicate AllUnknown(ps: seq<Probe>, i: int, j: int) {
    forall k :: i <= k < j && 0 <= k < |ps| ==> ps[k].healthy && !ps[k].known
  }

  /** However long the registration cannot be observed, nothing is reset, reported or notified, the bad-state clock
      stands, and the gate moves only by its own attempts. */
  lemma {:induction false} UnknownFreezes(ps: seq<Probe>, i: nat, j: nat)
    requires i <= j <= |ps| && AllUnknown(ps, i, j)
    ensures var s, t := After(ps[..i]), After(ps[..j]);
      && t.badSince == s.badSince && t.lastNotify == s.lastNotify
      && (s.lastAttempt.Some? ==> t.lastAttempt.Some?)
      && (forall k :: i <= k < j ==> !EffectAt(ps, k).reset && !EffectAt(ps, k).notified && !EffectAt(ps, k).due)
      && ((forall k :: i <= k < j ==> !EffectAt(ps, k).reconciled) ==> t.lastAttempt == s.lastAttempt)
    decreases j
  {
    if i < j {
      UnknownFreezes(ps, i, j - 1);
      AfterStep(ps, j - 1);
      assert ps[j - 1].healthy && !ps[j - 1].known;
      assert !EffectAt(ps, j - 1).reset && !EffectAt(ps, j - 1).notified && !EffectAt(ps, j - 1).due;
    }
  }

  predicate DefinitelyGood(p: Probe) {
    Known(p) && !p.bad
  }

  predicate DefinitelyBad(p: Probe) {
    Known(p) && p.bad
  }

  /** The state has been bad since tick i: a bad observation there, and no good one up to j. */
  predicate BadFrom(ps: seq<Probe>, i: int, j: int) {
    && 0 <= i < j <= |ps| && DefinitelyBad(ps[i])
    && forall k :: i < k < j ==> !DefinitelyGood(ps[k])
  }

  /** `b` is the time of the first bad observation since the last good one before tick j. */
  ghost predicate FirstBad(ps: seq<Probe>, j: int, b: Option<int>) {
    && (b.Some? ==> exists i :: BadFrom(ps, i, j) && ps[i].observeAt == b.value)
    && (forall i :: BadFrom(ps, i, j) ==> b.Some? && b.value <= ps[i].observeAt)
  }

  lemma BadFromStep(ps: seq<Probe>, i: int, j: nat)
    requires 0 < j <= |ps|
    ensures BadFrom(ps, i, j) <==>
      if i == j - 1 then DefinitelyBad(ps[i]) else BadFrom(ps, i, j - 1) && !DefinitelyGood(ps[j - 1])
  {
  }

  function ClockAfter(b: Option<int>, p: Probe): Option<int> {
    if DefinitelyGood(p) then None
    else if DefinitelyBad(p) && b.None? then Some(p.observeAt)
    else b
  }

  lemma FirstBadStep(ps: seq<Probe>, j: nat, b: Option<int>)
    requires Clocked(ps) && 0 < j <= |ps| && FirstBad(ps, j - 1, b)
    ensures FirstBad(ps, j, ClockAfter(b, ps[j - 1]))
  {
    forall i ensures BadFrom(ps, i, j) <==>
      if i == j - 1 then DefinitelyBad(ps[i]) else BadFrom(ps, i, j - 1) && !DefinitelyGood(ps[j - 1])
    {
      BadFromStep(ps, i, j);
    }
  }

  lemma ClockStep(s: Watch, p: Probe)
    ensures Tick(s, p).0.badSince == ClockAfter(s.badSince, p)
  {
  }

  /** The clock shows the first bad observation since the last good one, through unknown probes and restarts. */
  lemma {:induction false} ClockIsFirstBad(ps: seq<Probe>, j: nat)
    requires Clocked(ps) && j <= |ps|
    ensures FirstBad(ps, j, After(ps[..j]).badSince)
  {
    if j > 0 {
      ClockIsFirstBad(ps, j - 1);
      AfterStep(ps, j - 1);
      ClockStep(After(ps[..j - 1]), ps[j - 1]);
      FirstBadStep(ps, j, After(ps[..j - 1]).badSince);
    }
  }

  /** Recovery is due exactly when the state is bad now and has been for fifteen minutes without a good observation. */
  lemma DueIff(ps: seq<Probe>, j: nat)
    requires Clocked(ps) && j < |ps|
    ensures EffectAt(ps, j).due <==>
      DefinitelyBad(ps[j]) && exists i :: BadFrom(ps, i, j) && ps[j].observeAt - ps[i].observeAt >= RECOVERY_THRESHOLD
  {
    ClockIsFirstBad(ps, j);
  }

  function NotifiedTicks(ps: seq<Probe>): seq<bool> {
    seq(|ps|, k requires 0 <= k < |ps| => EffectAt(ps, k).notified)
  }

  /** `last` is the time of the latest of the first j ticks that are flagged. */
  predicate LatestIs(flags: seq<bool>, ps: seq<Probe>, j: nat, last: Option<int>)
    requires |flags| == |ps| && j <= |ps|
  {
    && (last.Some? ==> exists i :: 0 <= i < j && flags[i] && ps[i].observeAt == last.value)
    && (forall i :: 0 <= i < j && flags[i] ==> last.Some? && ps[i].observeAt <= last.value)
  }

  lemma LatestStep(flags: seq<bool>, ps: seq<Probe>, j: nat, last: Option<int>)
    requires |flags| == |ps| && 0 < j <= |ps| && Clocked(ps) && LatestIs(flags, ps, j - 1, last)
    ensures LatestIs(flags, ps, j, if flags[j - 1] then Some(ps[j - 1].observeAt) else last)
  {
  }

  lemma NotifyStep(s: Watch, p: Probe)
    ensures var (t, e) := Tick(s, p); t.lastNotify == if e.notified then Some(p.observeAt) else s.lastNotify
  {
  }

  /** The tracker remembers the latest notification. */
  lemma {:induction false} NotifyRemembers(ps: seq<Probe>, j: nat)
    requires Clocked(ps) && j <= |ps|
    ensures LatestIs(NotifiedTicks(ps), ps, j, After(ps[..j]).lastNotify)
  {
    if j > 0 {
      NotifyRemembers(ps, j - 1);
      AfterStep(ps, j - 1);
      NotifyStep(After(ps[..j - 1]), ps[j - 1]);
      LatestStep(NotifiedTicks(ps), ps, j, After(ps[..j - 1]).lastNotify);
    }
  }

  /** The user is told exactly when recovery is due and every earlier notification is at least an hour old. */
  lemma NotifiedIff(ps: seq<Probe>, j: nat)
    requires Clocked(ps) && j < |ps|
    ensures EffectAt(ps, j).notified <==>
      EffectAt(ps, j).due
      && forall i :: 0 <= i < j && NotifiedTicks(ps)[i] ==> ps[j].observeAt - ps[i].observeAt >= NOTIFY_INTERVAL
  {
    NotifyRemembers(ps, j);
    NotifyDecision(After(ps[..j]), ps[j]);
  }

  lemma NotifyDecision(s: Watch, p: Probe)
    ensures var e := Tick(s, p).1;
      e.notified <==> e.due && (s.lastNotify.None? || p.observeAt - s.lastNotify.value >= NOTIFY_INTERVAL)
  {
  }

  /** Failed ticks in a row at the end of a run. */
  function FailedInARow(ps: seq<Probe>): nat {
    if ps == [] || ps[|ps| - 1].healthy then 0 else 1 + FailedInARow(ps[..|ps| - 1])
  }

  lemma {:induction false} FailsCount(ps: seq<Probe>)
    ensures After(ps).fails == FailedInARow(ps) % FAIL_THRESHOLD
  {
    if ps != [] {
      FailsCount(ps[..|ps| - 1]);
    }
  }

  /** The agent is started exactly on every third failed tick in a row, and the sync follows unless that fails. */
  lemma EnsureIffThird(ps: seq<Probe>, k: nat)
    requires k < |ps|
    ensures EffectAt(ps, k).ensureStarted <==> !ps[k].healthy && FailedInARow(ps[..k + 1]) % 3 == 0
    ensures EffectAt(ps, k).synced <==> EffectAt(ps, k).ensureStarted && !ps[k].startFails
  {
    FailsCount(ps[..k]);
    assert ps[..k + 1][..k] == ps[..k] && ps[..k + 1][k] == ps[k];
  }
}
