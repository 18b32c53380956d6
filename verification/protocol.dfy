// The control loop as a transition system: the health checker
// (pkg/health/health.go, Start) and the monitor (pkg/vpn/pia/monitor.go,
// Monitor) run as two goroutines joined by two buffered channels of capacity
// one, with a third for re-election requests (cmd/main.go, pkg/vpn/pia/pia.go).
// Every outcome of the network is a choice carried by the action.
module Protocol {
  import opened Common
  import opened Failures
  import opened Detector

  // Why the monitor is busy: three verdict-driven calls of discoverAndConnect,
  // or reelectNext.
  datatype Cause = Exhausted | FirstConnect | Reconfigure | Reelection

  datatype HealthLoc = HealthIdle | Probing | Reporting(healthy: bool) | Sampling

  datatype MonitorLoc = MonitorIdle | Working(cause: Cause) | Announcing(cause: Cause, name: string)

  // What happened so far. Nothing the goroutines do depends on it.
  datatype Log = Log(
    probed: seq<nat>,     // latencies recorded since the last link-up was taken
    reported: seq<bool>,  // verdicts reached by the health checker
    handled: seq<bool>,   // verdicts received by the monitor
    connects: nat,        // calls of discoverAndConnect
    triggers: nat,        // calls of TriggerNext
    dropped: nat,         // ... that found a request pending
    reelections: nat)     // calls of reelectNext

  datatype State = State(
    health: HealthLoc, baseline: nat, window: Slots,
    monitor: MonitorLoc, failedCount: nat, hasWinner: bool,
    healthCh: seq<bool>, linkUpCh: seq<string>, nextCh: nat,
    log: Log)

  const INIT := State(HealthIdle, 0, EMPTY, MonitorIdle, 0, false, [], [], 0,
                      Log([], [], [], 0, 0, 0, 0))

  const CAPACITY := 1

  datatype Outcome = Quiet(hasWinner: bool) | Connected(name: string)

  datatype Action =
    | HealthTakeLinkUp
    | HealthBaseline(results: seq<Option<nat>>)
    | HealthStartProbe
    | HealthProbe(probe: Option<nat>)
    | HealthSend
    | MonitorTake(tunnelUp: bool, reconnectOk: bool)
    | MonitorTakeNext
    | MonitorTick
    | MonitorFinish(outcome: Outcome)
    | MonitorAnnounce
    | Trigger

  predicate Enabled(s: State, a: Action) {
    match a
    case HealthTakeLinkUp => s.health.HealthIdle? && s.linkUpCh != []
    case HealthBaseline(results) => s.health.Sampling? && |results| == BASELINE_SAMPLES
    // The select has a default, which runs only when no winner is waiting.
    case HealthStartProbe => s.health.HealthIdle? && s.linkUpCh == []
    case HealthProbe(_) => s.health.Probing?
    case HealthSend => s.health.Reporting? && |s.healthCh| < CAPACITY
    case MonitorTake(_, _) => s.monitor.MonitorIdle? && s.healthCh != []
    case MonitorTakeNext => s.monitor.MonitorIdle? && s.nextCh > 0
    case MonitorTick => s.monitor.MonitorIdle?
    case MonitorFinish(outcome) =>
      s.monitor.Working? &&
      // discoverAndConnect never clears a winner; reelectNext sets one only by
      // connecting to it.
      (outcome.Quiet? ==> if s.monitor.cause.Reelection? then outcome.hasWinner ==> s.hasWinner
                                                         else s.hasWinner ==> outcome.hasWinner)
    case MonitorAnnounce => s.monitor.Announcing? && |s.linkUpCh| < CAPACITY
    case Trigger => true
  }

  function Next(s: State, a: Action, maxFailed: int): State
    requires Enabled(s, a)
  {
    match a
    case HealthTakeLinkUp =>
      s.(health := Sampling, linkUpCh := s.linkUpCh[1..], baseline := 0, window := EMPTY,
         log := s.log.(probed := []))
    case HealthBaseline(results) =>
      s.(health := HealthIdle, baseline := BaselineOf(results))
    case HealthStartProbe =>
      s.(health := Probing)
    case HealthProbe(probe) =>
      var ms := if probe.Some? then probe.value else 0;
      var window := Push(s.window, ms);
      var healthy := probe.Some? && !Degraded(s.baseline, window);
      s.(health := Reporting(healthy), window := window,
         log := s.log.(probed := s.log.probed + [ms], reported := s.log.reported + [healthy]))
    case HealthSend =>
      s.(health := HealthIdle, healthCh := s.healthCh + [s.health.healthy])
    case MonitorTake(tunnelUp, reconnectOk) =>
      TakeVerdict(s, tunnelUp, reconnectOk, maxFailed)
    case MonitorTakeNext =>
      s.(monitor := Working(Reelection), nextCh := s.nextCh - 1,
         log := s.log.(reelections := s.log.reelections + 1))
    case MonitorTick => s
    case MonitorFinish(outcome) =>
      (match outcome
       case Quiet(hasWinner) => BackToSelect(s).(hasWinner := hasWinner)
       case Connected(name) => s.(monitor := Announcing(s.monitor.cause, name), hasWinner := true))
    case MonitorAnnounce =>
      BackToSelect(s).(linkUpCh := s.linkUpCh + [s.monitor.name])
    case Trigger =>
      if s.nextCh < CAPACITY
      then s.(nextCh := s.nextCh + 1, log := s.log.(triggers := s.log.triggers + 1))
      else s.(log := s.log.(triggers := s.log.triggers + 1, dropped := s.log.dropped + 1))
  }

  function TakeVerdict(s: State, tunnelUp: bool, reconnectOk: bool, maxFailed: int): State
    requires s.healthCh != []
  {
    var healthy := s.healthCh[0];
    var (count, calls) := Conclude(s.failedCount, s.hasWinner, healthy, tunnelUp || reconnectOk, maxFailed);
    var t := s.(healthCh := s.healthCh[1..], log := s.log.(handled := s.log.handled + [healthy]));
    if !calls then t.(failedCount := count)
    // An exhausted counter keeps its value until discoverAndConnect returns.
    else if !healthy then StartConnect(t.(failedCount := s.failedCount + 1), Exhausted)
    else StartConnect(t.(failedCount := count), if s.hasWinner then Reconfigure else FirstConnect)
  }

  function StartConnect(s: State, cause: Cause): State {
    s.(monitor := Working(cause), log := s.log.(connects := s.log.connects + 1))
  }

  // The counter is cleared once discoverAndConnect has returned.
  function BackToSelect(s: State): State
    requires !s.monitor.MonitorIdle?
  {
    s.(monitor := MonitorIdle, failedCount := if s.monitor.cause.Exhausted? then 0 else s.failedCount)
  }

  // The state after the actions `run`, taken one after the other from s; None
  // when one of them is not enabled.
  function After(s: State, run: seq<Action>, maxFailed: int): Option<State> {
    if run == [] then Some(s)
    else
      var before, a := After(s, run[..|run| - 1], maxFailed), run[|run| - 1];
      if before.Some? && Enabled(before.value, a) then Some(Next(before.value, a, maxFailed)) else None
  }

  ghost predicate ReachableFrom(s: State, t: State, maxFailed: int) {
    exists run :: After(s, run, maxFailed) == Some(t)
  }

  ghost predicate Reachable(s: State, maxFailed: int) {
    ReachableFrom(INIT, s, maxFailed)
  }

  // Verdicts still owed to the channel.
  function Pending(h: HealthLoc): seq<bool> {
    if h.Reporting? then [h.healthy] else []
  }

  // Probes begun whose verdict is not in the channel yet.
  function InFlight(h: HealthLoc): nat {
    if h.Probing? || h.Reporting? then 1 else 0
  }

  predicate BusyWith(m: MonitorLoc, cause: Cause) {
    !m.MonitorIdle? && m.cause == cause
  }

  predicate HandlingVerdict(m: MonitorLoc) {
    !m.MonitorIdle? && !m.cause.Reelection?
  }

  ghost predicate Inv(s: State, maxFailed: int) {
    && Capacities(s)
    && VerdictsKept(s)
    && RequestsKept(s)
    && s.window == LastTen(s.log.probed)
    && (!BusyWith(s.monitor, Exhausted) ==> s.failedCount < Threshold(maxFailed))
    && Backpressure(s)
  }

  predicate Capacities(s: State) {
    |s.healthCh| <= CAPACITY && |s.linkUpCh| <= CAPACITY && s.nextCh <= CAPACITY
  }

  // Verdicts are neither lost, duplicated nor reordered.
  predicate VerdictsKept(s: State) {
    s.log.reported == s.log.handled + s.healthCh + Pending(s.health)
  }

  predicate RequestsKept(s: State) {
    s.log.triggers == s.log.reelections + s.nextCh + s.log.dropped
  }

  // While an announcement waits, the health checker starts no further probe: a
  // monitor busy with a verdict has used up one of at most two.
  predicate Backpressure(s: State) {
    s.linkUpCh != [] && HandlingVerdict(s.monitor) ==> |s.healthCh| + InFlight(s.health) <= 1
  }

  // What taking a verdict does to the verdicts.
  lemma TakeVerdictMoves(s: State, tunnelUp: bool, reconnectOk: bool, maxFailed: int)
    requires s.healthCh != []
    ensures var t := TakeVerdict(s, tunnelUp, reconnectOk, maxFailed);
            && t.healthCh == s.healthCh[1..] && t.health == s.health
            && t.log.handled == s.log.handled + [s.healthCh[0]] && t.log.reported == s.log.reported
  {
  }

  lemma StepKeepsVerdicts(s: State, a: Action, maxFailed: int)
    requires VerdictsKept(s) && Enabled(s, a)
    ensures VerdictsKept(Next(s, a, maxFailed))
  {
    hide Degraded, BaselineOf, Push, LastTen, TakeVerdict;
    if a.MonitorTake? {
      TakeVerdictMoves(s, a.tunnelUp, a.reconnectOk, maxFailed);
      assert s.healthCh == [s.healthCh[0]] + s.healthCh[1..];
    }
  }

  lemma StepKeepsWindow(s: State, a: Action, maxFailed: int)
    requires s.window == LastTen(s.log.probed) && Enabled(s, a)
    ensures Next(s, a, maxFailed).window == LastTen(Next(s, a, maxFailed).log.probed)
  {
    if a.HealthProbe? {
      var ms := if a.probe.Some? then a.probe.value else 0;
      assert EMPTY + (s.log.probed + [ms]) == (EMPTY + s.log.probed) + [ms];
    }
  }

  lemma StepKeepsCounts(s: State, a: Action, maxFailed: int)
    requires Capacities(s) && RequestsKept(s) && Backpressure(s) && Enabled(s, a)
    requires !BusyWith(s.monitor, Exhausted) ==> s.failedCount < Threshold(maxFailed)
    ensures var t := Next(s, a, maxFailed);
            && Capacities(t) && RequestsKept(t) && Backpressure(t)
            && (!BusyWith(t.monitor, Exhausted) ==> t.failedCount < Threshold(maxFailed))
  {
  }

  lemma {:induction false} RunKeepsInv(s: State, run: seq<Action>, t: State, maxFailed: int)
    requires Inv(s, maxFailed) && After(s, run, maxFailed) == Some(t)
    ensures Inv(t, maxFailed)
  {
    if run != [] {
      var front, a := run[..|run| - 1], run[|run| - 1];
      var p := After(s, front, maxFailed).value;
      RunKeepsInv(s, front, p, maxFailed);
      StepKeepsVerdicts(p, a, maxFailed);
      StepKeepsWindow(p, a, maxFailed);
      StepKeepsCounts(p, a, maxFailed);
    }
  }

  lemma InitInv(maxFailed: int)
    ensures Inv(INIT, maxFailed)
  {
    assert EMPTY + [] == EMPTY;
  }

  lemma ReachableInv(s: State, maxFailed: int)
    requires Reachable(s, maxFailed)
    ensures Inv(s, maxFailed)
  {
    InitInv(maxFailed);
    KeepsInv(INIT, s, maxFailed);
  }

  lemma KeepsInv(s: State, t: State, maxFailed: int)
    requires Inv(s, maxFailed) && ReachableFrom(s, t, maxFailed)
    ensures Inv(t, maxFailed)
  {
    var run :| After(s, run, maxFailed) == Some(t);
    RunKeepsInv(s, run, t, maxFailed);
  }

  // --- Deadlock -----------------------------------------------------------

  // Both channels full, each goroutine waiting for the other to drain one.
  predicate Stuck(s: State) {
    && |s.healthCh| == CAPACITY && |s.linkUpCh| == CAPACITY
    && s.health.Reporting?
    && s.monitor.Announcing? && s.monitor.cause.Reelection?
  }

  // A step of the health checker, or of the monitor other than an idle tick.
  predicate Progress(a: Action) {
    !a.Trigger? && !a.MonitorTick?
  }

  // The two goroutines deadlock in exactly one situation: the monitor is
  // announcing a re-elected headend while the previous announcement and a
  // verdict are both undelivered and the checker has another verdict to send.
  lemma DeadlockIff(s: State, maxFailed: int)
    requires Reachable(s, maxFailed)
    ensures (forall a :: Enabled(s, a) ==> !Progress(a)) <==> Stuck(s)
    ensures Stuck(s) ==> forall a :: Enabled(s, a) ==> a.Trigger?
  {
    ReachableInv(s, maxFailed);
    if !Stuck(s) {
      var a := SomeStep(s, maxFailed);
      assert Enabled(s, a) && Progress(a);
    }
  }

  lemma SomeStep(s: State, maxFailed: int) returns (a: Action)
    requires Inv(s, maxFailed) && !Stuck(s)
    ensures Enabled(s, a) && Progress(a)
  {
    match s.health
    case HealthIdle => a := if s.linkUpCh == [] then HealthStartProbe else HealthTakeLinkUp;
    case Probing => a := HealthProbe(None);
    case Sampling => a := HealthBaseline([None, None, None]);
    case Reporting(_) =>
      if s.healthCh == [] {
        a := HealthSend;
      } else {
        match s.monitor
        case MonitorIdle => a := MonitorTake(true, true);
        case Working(_) => a := MonitorFinish(Quiet(s.hasWinner));
        case Announcing(_, _) => a := MonitorAnnounce;
      }
  }

  // Nothing that happens later resolves it.
  lemma {:induction false} StuckForever(s: State, run: seq<Action>, t: State, maxFailed: int)
    requires Stuck(s) && After(s, run, maxFailed) == Some(t)
    ensures Stuck(t)
    ensures forall i :: 0 <= i < |run| ==> run[i].Trigger?
  {
    if run != [] {
      var front := run[..|run| - 1];
      StuckForever(s, front, After(s, front, maxFailed).value, maxFailed);
      assert run == front + [run[|run| - 1]];
    }
  }

  // Without a re-election request the loop never deadlocks.
  lemma StuckNeedsTrigger(s: State, maxFailed: int)
    requires Reachable(s, maxFailed) && Stuck(s)
    ensures s.log.reelections >= 1 && s.log.triggers >= 1
  {
    var run :| After(INIT, run, maxFailed) == Some(s);
    ReachableInv(s, maxFailed);
    ReelectionCounted(run, s, maxFailed);
  }

  lemma {:induction false} ReelectionCounted(run: seq<Action>, s: State, maxFailed: int)
    requires After(INIT, run, maxFailed) == Some(s)
    ensures BusyWith(s.monitor, Reelection) ==> s.log.reelections >= 1
  {
    if run != [] {
      var front := run[..|run| - 1];
      ReelectionCounted(front, After(INIT, front, maxFailed).value, maxFailed);
    }
  }

  lemma Do(start: State, run: seq<Action>, s: State, a: Action, maxFailed: int)
    returns (run': seq<Action>, s': State)
    requires After(start, run, maxFailed) == Some(s) && Enabled(s, a)
    ensures run' == run + [a] && s' == Next(s, a, maxFailed)
    ensures After(start, run', maxFailed) == Some(s')
  {
    run', s' := run + [a], Next(s, a, maxFailed);
    assert run'[..|run|] == run;
  }

  // One request is enough: it arrives while the first connection is being set
  // up, and the monitor serves it before the health checker has come back.
  lemma StuckAfterOneTrigger(maxFailed: int) returns (run: seq<Action>)
    ensures var end := After(INIT, run, maxFailed);
            end.Some? && Stuck(end.value) && end.value.log.triggers == 1
  {
    hide BaselineOf, Degraded, Push;
    var s := INIT;
    run := [];
    run, s := Do(INIT, run, s, HealthStartProbe, maxFailed);
    NeverWithoutBaseline(Push(s.window, 20));
    run, s := Do(INIT, run, s, HealthProbe(Some(20)), maxFailed);
    run, s := Do(INIT, run, s, HealthSend, maxFailed);
    // The first verdict starts the first connection...
    run, s := Do(INIT, run, s, MonitorTake(true, true), maxFailed);
    run, s := Do(INIT, run, s, HealthStartProbe, maxFailed);
    NeverWithoutBaseline(Push(s.window, 20));
    run, s := Do(INIT, run, s, HealthProbe(Some(20)), maxFailed);
    run, s := Do(INIT, run, s, HealthSend, maxFailed);
    // ...which takes long enough for one more verdict and the next probe.
    run, s := Do(INIT, run, s, HealthStartProbe, maxFailed);
    NeverWithoutBaseline(Push(s.window, 20));
    run, s := Do(INIT, run, s, HealthProbe(Some(20)), maxFailed);
    run, s := Do(INIT, run, s, Trigger, maxFailed);
    run, s := Do(INIT, run, s, MonitorFinish(Connected("a")), maxFailed);
    run, s := Do(INIT, run, s, MonitorAnnounce, maxFailed);
    run, s := Do(INIT, run, s, MonitorTakeNext, maxFailed);
    run, s := Do(INIT, run, s, MonitorFinish(Connected("b")), maxFailed);
  }

  // --- Re-election requests -----------------------------------------------

  // A request is dropped only while another is pending, so after any request
  // one is pending; no caller ever waits.
  lemma TriggerLeavesOnePending(s: State, maxFailed: int)
    requires Reachable(s, maxFailed)
    ensures Enabled(s, Trigger)
    ensures var t := Next(s, Trigger, maxFailed);
            t.nextCh == CAPACITY && (t.log.dropped > s.log.dropped <==> s.nextCh == CAPACITY)
  {
    ReachableInv(s, maxFailed);
  }

  // Coalescing loses no request: once one is pending, it stays until a
  // re-election begins.
  lemma {:induction false} PendingUntilReelection(s: State, run: seq<Action>, t: State, maxFailed: int)
    requires s.nextCh > 0 && After(s, run, maxFailed) == Some(t)
    ensures t.nextCh > 0 || MonitorTakeNext in run
  {
    if run != [] {
      var front := run[..|run| - 1];
      PendingUntilReelection(s, front, After(s, front, maxFailed).value, maxFailed);
      assert run == front + [run[|run| - 1]];
    }
  }

  // Every request is a re-election begun, the one pending, or one dropped; and
  // over any stretch of a run no more re-elections begin than requests were
  // made or pending.
  lemma RequestsAccounted(s: State, run: seq<Action>, t: State, maxFailed: int)
    requires Reachable(s, maxFailed) && After(s, run, maxFailed) == Some(t)
    ensures t.nextCh <= CAPACITY
    ensures t.log.triggers == t.log.reelections + t.nextCh + t.log.dropped
    ensures t.log.reelections - s.log.reelections <= t.log.triggers - s.log.triggers + s.nextCh
  {
    ReachableInv(s, maxFailed);
    RunKeepsInv(s, run, t, maxFailed);
    LogGrows(s, run, t, maxFailed);
  }

  // --- Detection ----------------------------------------------------------

  lemma {:induction false} LogGrows(s: State, run: seq<Action>, t: State, maxFailed: int)
    requires After(s, run, maxFailed) == Some(t)
    ensures s.log.handled <= t.log.handled
    ensures s.log.connects <= t.log.connects && s.log.dropped <= t.log.dropped
  {
    if run != [] {
      var front := run[..|run| - 1];
      LogGrows(s, front, After(s, front, maxFailed).value, maxFailed);
    }
  }

  // The monitor is never more than two verdicts behind the health checker.
  lemma VerdictsInOrder(s: State, maxFailed: int)
    requires Reachable(s, maxFailed)
    ensures s.log.handled <= s.log.reported && |s.log.reported| - |s.log.handled| <= 2
  {
    ReachableInv(s, maxFailed);
  }

  // What one step of a run without discoverAndConnect does to the counter.
  lemma QuietStep(p: State, a: Action, maxFailed: int)
    requires Enabled(p, a)
    requires Next(p, a, maxFailed).log.connects == p.log.connects
    ensures var t := Next(p, a, maxFailed);
            if a.MonitorTake? then
              && t.log.handled == p.log.handled + [p.healthCh[0]]
              && t.failedCount == (if p.healthCh[0] then ReduceByOne(p.failedCount) else p.failedCount + 1)
              && !BusyWith(t.monitor, Exhausted)
            else
              && t.log.handled == p.log.handled
              && (BusyWith(t.monitor, Exhausted) ==> BusyWith(p.monitor, Exhausted))
              && (t.failedCount == p.failedCount || BusyWith(p.monitor, Exhausted))
  {
  }

  // While discoverAndConnect is not called, failedCount dominates the excess
  // of every suffix of the verdicts vs received, so no block of them reaches
  // the threshold.
  lemma {:induction false} QuietRunCounts(s: State, run: seq<Action>, t: State, vs: seq<bool>, maxFailed: int)
    requires Inv(s, maxFailed) && After(s, run, maxFailed) == Some(t)
    requires t.log.connects == s.log.connects && t.log.handled == s.log.handled + vs
    ensures BusyWith(t.monitor, Exhausted) ==> vs == []
    ensures forall i :: 0 <= i <= |vs| ==> Excess(vs[i..]) <= t.failedCount
    ensures !HasBadBlock(vs, Threshold(maxFailed))
  {
    if run == [] {
      assert vs == [];
      assert forall i, j :: 0 <= i <= j <= |vs| ==> vs[i..j] == [];
    } else {
      var front, a := run[..|run| - 1], run[|run| - 1];
      var p := After(s, front, maxFailed).value;
      LogGrows(s, front, p, maxFailed);
      assert After(p, [], maxFailed) == Some(p) && [a][..0] == [];
      LogGrows(p, [a], t, maxFailed);
      RunKeepsInv(s, run, t, maxFailed);
      var us := p.log.handled[|s.log.handled|..];
      assert p.log.handled == s.log.handled + us;
      QuietRunCounts(s, front, p, us, maxFailed);
      QuietStep(p, a, maxFailed);
      if a.MonitorTake? {
        assert t.log.handled == s.log.handled + (us + [p.healthCh[0]]);
        assert vs == t.log.handled[|s.log.handled|..] == us + [p.healthCh[0]];
        OneMoreVerdict(us, p.healthCh[0], p.failedCount, t.failedCount, Threshold(maxFailed));
      } else {
        assert vs == us;
      }
    }
  }

  lemma OneMoreVerdict(us: seq<bool>, healthy: bool, before: nat, after: nat, n: nat)
    requires forall i :: 0 <= i <= |us| ==> Excess(us[i..]) <= before
    requires after == if healthy then ReduceByOne(before) else before + 1
    requires !HasBadBlock(us, n) && after < n
    ensures var vs := us + [healthy];
            && (forall i :: 0 <= i <= |vs| ==> Excess(vs[i..]) <= after)
            && !HasBadBlock(vs, n)
  {
    var vs := us + [healthy];
    assert vs[..|vs| - 1] == us;
    forall i | 0 <= i <= |vs| ensures Excess(vs[i..]) <= after {
      if i < |vs| {
        ExcessPush(vs, i);
      }
    }
    forall i, j | 0 <= i <= j <= |vs| ensures Excess(vs[i..j]) < n {
      if j < |vs| {
        assert vs[i..j] == us[i..j];
      } else {
        assert vs[i..j] == vs[i..];
      }
    }
  }

  // A run free of link-ups whose probes all come back slow.
  predicate OnlySlowProbes(run: seq<Action>, baseline: nat) {
    forall i :: 0 <= i < |run| ==> SlowProbe(run[i], baseline)
  }

  predicate SlowProbe(a: Action, baseline: nat) {
    !a.HealthTakeLinkUp? && !a.HealthBaseline?
    && (a.HealthProbe? ==> a.probe.Some? && a.probe.value > 5 * baseline)
  }

  lemma SlowStep(p: State, a: Action, baseline: nat, maxFailed: int)
    requires Enabled(p, a) && SlowProbe(a, baseline)
    ensures var t := Next(p, a, maxFailed);
            && t.baseline == p.baseline
            && if a.HealthProbe? then
                 && t.window == Push(p.window, a.probe.value)
                 && t.log.reported == p.log.reported + [!Degraded(p.baseline, t.window)]
               else
                 t.window == p.window && t.log.reported == p.log.reported
  {
    hide Degraded, BaselineOf, Push;
  }

  // ms are the probes of a run, and vs the verdicts on them.
  lemma {:induction false} SlowProbesFail(s: State, run: seq<Action>, t: State, maxFailed: int)
    returns (ms: seq<nat>, vs: seq<bool>)
    requires After(s, run, maxFailed) == Some(t)
    requires s.baseline > 0 && OnlySlowProbes(run, s.baseline)
    ensures t.baseline == s.baseline && t.log.reported == s.log.reported + vs
    ensures t.window == PushAll(s.window, ms) && |ms| == |vs|
    ensures forall i :: 0 <= i < |ms| ==> ms[i] > 5 * s.baseline
    ensures forall i :: 5 <= i < |vs| ==> !vs[i]
  {
    hide Next, Degraded;
    if run == [] {
      ms, vs := [], [];
    } else {
      var front, a := run[..|run| - 1], run[|run| - 1];
      var p := After(s, front, maxFailed).value;
      ms, vs := SlowProbesFail(s, front, p, maxFailed);
      assert SlowProbe(a, s.baseline);
      SlowStep(p, a, s.baseline, maxFailed);
      if a.HealthProbe? {
        var ms', vs' := ms, vs;
        ms, vs := ms + [a.probe.value], vs + [!Degraded(s.baseline, t.window)];
        assert ms[..|ms| - 1] == ms' && t.window == PushAll(s.window, ms);
        if |ms| >= 6 {
          SixSlowDegrade(s.baseline, s.window, ms);
        }
      }
    }
  }

  // If all verdicts but the first few are failures, so are the last n received,
  // once enough are.
  lemma LastReceivedFailed(s: State, t: State, vs: seq<bool>, hs: seq<bool>, first: nat, n: nat)
    requires VerdictsKept(s) && VerdictsKept(t)
    requires t.log.reported == s.log.reported + vs && t.log.handled == s.log.handled + hs
    requires forall i :: first <= i < |vs| ==> !vs[i]
    requires |t.log.handled| >= |s.log.reported| + first + n
    ensures |hs| >= n && forall i :: |hs| - n <= i < |hs| ==> !hs[i]
  {
    forall i | |hs| - n <= i < |hs| ensures !hs[i] {
      var k := |s.log.handled| + i;
      assert hs[i] == t.log.handled[k] == t.log.reported[k] == vs[k - |s.log.reported|];
    }
  }

  // End to end: however the window and the counter stood, once the monitor has
  // received the verdicts of 5 + Threshold(maxFailed) consecutive slow probes,
  // it has called discoverAndConnect.
  lemma DegradationDetected(s: State, run: seq<Action>, t: State, maxFailed: int)
    requires Reachable(s, maxFailed) && After(s, run, maxFailed) == Some(t)
    requires s.baseline > 0 && OnlySlowProbes(run, s.baseline)
    requires |t.log.handled| >= |s.log.reported| + 5 + Threshold(maxFailed)
    ensures t.log.connects > s.log.connects
  {
    var _, vs := SlowProbesFail(s, run, t, maxFailed);
    FailuresForceConnect(s, run, t, vs, 5, maxFailed);
  }

  // A run whose verdicts, but for the first few, are all failures, calls
  // discoverAndConnect once the monitor has received enough of them.
  lemma FailuresForceConnect(s: State, run: seq<Action>, t: State, vs: seq<bool>, first: nat, maxFailed: int)
    requires Reachable(s, maxFailed) && After(s, run, maxFailed) == Some(t)
    requires t.log.reported == s.log.reported + vs && forall i :: first <= i < |vs| ==> !vs[i]
    requires |t.log.handled| >= |s.log.reported| + first + Threshold(maxFailed)
    ensures t.log.connects > s.log.connects
  {
    ReachableInv(s, maxFailed);
    RunKeepsInv(s, run, t, maxFailed);
    LogGrows(s, run, t, maxFailed);
    var n, hs := Threshold(maxFailed), t.log.handled[|s.log.handled|..];
    assert t.log.handled == s.log.handled + hs;
    LastReceivedFailed(s, t, vs, hs, first, n);
    var tail := hs[|hs| - n..|hs|];
    AllFailed(tail);
    assert HasBadBlock(hs, n);
    if t.log.connects == s.log.connects {
      QuietRunCounts(s, run, t, hs, maxFailed);
    }
  }

  // The probes of a run, in order.
  function Probes(run: seq<Action>): seq<Option<nat>> {
    if run == [] then []
    else
      var a := run[|run| - 1];
      Probes(run[..|run| - 1]) + if a.HealthProbe? then [a.probe] else []
  }

  // Each probe of a run adds one verdict, and a probe that failed a failure.
  lemma {:induction false} ProbesReported(s: State, run: seq<Action>, t: State, maxFailed: int)
    returns (vs: seq<bool>)
    requires After(s, run, maxFailed) == Some(t)
    ensures t.log.reported == s.log.reported + vs && |vs| == |Probes(run)|
    ensures forall i :: 0 <= i < |vs| && Probes(run)[i].None? ==> !vs[i]
  {
    if run == [] {
      vs := [];
    } else {
      hide Degraded, BaselineOf, Push;
      var front, a := run[..|run| - 1], run[|run| - 1];
      var p := After(s, front, maxFailed).value;
      vs := ProbesReported(s, front, p, maxFailed);
      ProbeReported(p, a, maxFailed);
      if a.HealthProbe? {
        vs := vs + [t.log.reported[|p.log.reported|]];
      }
    }
  }

  lemma ProbeReported(p: State, a: Action, maxFailed: int)
    requires Enabled(p, a)
    ensures var before, after := p.log.reported, Next(p, a, maxFailed).log.reported;
            if a.HealthProbe? then
              |after| == |before| + 1 && before <= after && (a.probe.None? ==> !after[|before|])
            else after == before
  {
    hide Degraded, BaselineOf, Push;
  }

  // An outage is detected: from any reachable state, once the monitor has
  // received the verdicts of Threshold(maxFailed) consecutive failed probes, it
  // has called discoverAndConnect, link-ups in between or not.
  lemma OutageDetected(s: State, run: seq<Action>, t: State, maxFailed: int)
    requires Reachable(s, maxFailed) && After(s, run, maxFailed) == Some(t)
    requires forall i :: 0 <= i < |Probes(run)| ==> Probes(run)[i].None?
    requires |t.log.handled| >= |s.log.reported| + Threshold(maxFailed)
    ensures t.log.connects > s.log.connects
  {
    var vs := ProbesReported(s, run, t, maxFailed);
    FailuresForceConnect(s, run, t, vs, 0, maxFailed);
  }

  // --- The health checker's half --------------------------------------------

  // The checker's fields, as its class has them.
  predicate Tracks(s: State, c: Checker) {
    s.health.HealthIdle? && s.baseline == c.baseline && s.window == c.window
  }

  // A round of the checker, as actions.
  function TurnActions(turn: Turn): seq<Action> {
    match turn
    case LinkedUp(results) => [HealthTakeLinkUp, HealthBaseline(results)]
    case Probed(probe) => [HealthStartProbe, HealthProbe(probe), HealthSend]
  }

  // A round of Health.Start is a round here: from matching states, with what it
  // waits for in the channels, its actions are enabled one after the other and
  // end in matching states, with the verdict it sends in the channel.
  lemma TurnFollowsProtocol(s: State, c: Checker, turn: Turn, maxFailed: int)
    requires Tracks(s, c)
    requires turn.LinkedUp? ==> |turn.results| == BASELINE_SAMPLES && s.linkUpCh != []
    requires turn.Probed? ==> s.linkUpCh == [] && s.healthCh == []
    ensures var t := After(s, TurnActions(turn), maxFailed);
            && t.Some? && Tracks(t.value, AfterTurn(c, turn))
            && t.value.healthCh == (if turn.Probed? then [VerdictOf(c, turn.probe)] else s.healthCh)
            && t.value.linkUpCh == (if turn.LinkedUp? then s.linkUpCh[1..] else s.linkUpCh)
            && t.value.log.reported == s.log.reported + if turn.Probed? then [VerdictOf(c, turn.probe)] else []
  {
    hide Degraded, BaselineOf, Push;
    var run, t := [], s;
    match turn
    case LinkedUp(results) =>
      run, t := Do(s, run, t, HealthTakeLinkUp, maxFailed);
      run, t := Do(s, run, t, HealthBaseline(results), maxFailed);
      assert run == TurnActions(turn);
    case Probed(probe) =>
      run, t := Do(s, run, t, HealthStartProbe, maxFailed);
      run, t := Do(s, run, t, HealthProbe(probe), maxFailed);
      run, t := Do(s, run, t, HealthSend, maxFailed);
      assert run == TurnActions(turn);
  }

  // --- The monitor's half ---------------------------------------------------

  // Exactly when a verdict makes the monitor call discoverAndConnect, and what
  // becomes of the counter by the time it is back at its select.
  lemma TakeConnectsIff(s: State, tunnelUp: bool, reconnectOk: bool, maxFailed: int)
    requires Enabled(s, MonitorTake(tunnelUp, reconnectOk))
    ensures var t, healthy := Next(s, MonitorTake(tunnelUp, reconnectOk), maxFailed), s.healthCh[0];
            var calls := if !healthy then s.failedCount + 1 >= maxFailed
                         else !s.hasWinner || (!tunnelUp && !reconnectOk);
            && t.log.connects == s.log.connects + (if calls then 1 else 0)
            && (calls <==> t.monitor.Working?) && (!calls <==> t.monitor.MonitorIdle?)
            && (if calls then BackToSelect(t).failedCount else t.failedCount) ==
               if !healthy then if calls then 0 else s.failedCount + 1
               else if !s.hasWinner then 0
               else if s.failedCount > 0 then s.failedCount - 1 else 0
  {
  }

  // What a stretch of probes makes of a window, verdict by verdict.
  function Verdicts(baseline: nat, w: Slots, ms: seq<nat>): seq<bool> {
    seq(|ms|, i requires 0 <= i < |ms| => !Degraded(baseline, PushAll(w, ms[..i + 1])))
  }

  // With every channel empty, a winner set and nobody busy.
  predicate Ready(s: State) {
    s.health.HealthIdle? && s.monitor.MonitorIdle? && s.healthCh == [] && s.linkUpCh == [] && s.hasWinner
  }

  // One probe, delivered and counted, that does not exhaust the counter.
  lemma Cycle(start: State, run: seq<Action>, s: State, ms: nat, maxFailed: int)
    returns (run': seq<Action>, t: State)
    requires After(start, run, maxFailed) == Some(s) && Ready(s)
    requires var healthy := !Degraded(s.baseline, Push(s.window, ms));
             healthy || s.failedCount + 1 < maxFailed
    ensures After(start, run', maxFailed) == Some(t) && Ready(t)
    ensures run' == run + [HealthStartProbe, HealthProbe(Some(ms)), HealthSend, MonitorTake(true, true)]
    ensures var healthy := !Degraded(s.baseline, Push(s.window, ms));
            && t.baseline == s.baseline && t.window == Push(s.window, ms) && t.log.connects == s.log.connects
            && t.log.handled == s.log.handled + [healthy] && t.log.reported == s.log.reported + [healthy]
            && t.failedCount == if healthy then ReduceByOne(s.failedCount) else s.failedCount + 1
  {
    hide Degraded, Push;
    run', t := Do(start, run, s, HealthStartProbe, maxFailed);
    run', t := Do(start, run', t, HealthProbe(Some(ms)), maxFailed);
    run', t := Do(start, run', t, HealthSend, maxFailed);
    run', t := Do(start, run', t, MonitorTake(true, true), maxFailed);
  }

  lemma VerdictsSnoc(baseline: nat, w: Slots, ms: seq<nat>)
    requires ms != []
    ensures var front, last := ms[..|ms| - 1], ms[|ms| - 1];
            Verdicts(baseline, w, ms)
              == Verdicts(baseline, w, front) + [!Degraded(baseline, Push(PushAll(w, front), last))]
  {
    hide Degraded, Push;
    var front, vs := ms[..|ms| - 1], Verdicts(baseline, w, ms);
    forall i: nat | i < |front| ensures vs[i] == Verdicts(baseline, w, front)[i] {
      assert front[..i + 1] == ms[..i + 1];
    }
    assert ms[..|front| + 1] == ms;
  }

  // A series of probes whose verdicts never exhaust the counter.
  lemma {:induction false} Cycles(s: State, ms: seq<nat>, maxFailed: int) returns (run: seq<Action>, t: State)
    requires Ready(s) && s.failedCount == 0
    requires ObserveAll(Verdicts(s.baseline, s.window, ms), maxFailed).reconnects == 0
    ensures After(s, run, maxFailed) == Some(t) && Ready(t)
    ensures t.baseline == s.baseline && t.window == PushAll(s.window, ms) && t.log.connects == s.log.connects
    ensures var vs := Verdicts(s.baseline, s.window, ms);
            && t.log.handled == s.log.handled + vs && t.log.reported == s.log.reported + vs
            && t.failedCount == ObserveAll(vs, maxFailed).failedCount
    ensures (forall i :: 0 <= i < |ms| ==> ms[i] > 5 * s.baseline) ==> OnlySlowProbes(run, s.baseline)
  {
    hide Degraded, Push, Next, Verdicts, Enabled;
    if ms == [] {
      run, t := [], s;
      assert Verdicts(s.baseline, s.window, ms) == [] by { NoVerdicts(s.baseline, s.window); }
    } else {
      var front, last, vs := ms[..|ms| - 1], ms[|ms| - 1], Verdicts(s.baseline, s.window, ms);
      VerdictsSnoc(s.baseline, s.window, ms);
      var us := Verdicts(s.baseline, s.window, front);
      assert vs[..|us|] == us;
      NeverEarlier(vs, |us|, maxFailed);
      var run0, before;
      run0, before := Cycles(s, front, maxFailed);
      run, t := Cycle(s, run0, before, last, maxFailed);
      assert t.log.handled == s.log.handled + vs && t.log.reported == s.log.reported + vs;
    }
  }

  lemma NoVerdicts(baseline: nat, w: Slots)
    ensures Verdicts(baseline, w, []) == []
  {
  }

  lemma QuickVerdictsPass(baseline: nat, ms: seq<nat>)
    requires forall i :: 0 <= i < |ms| ==> ms[i] <= 5 * baseline
    ensures forall i :: 0 <= i < |ms| ==> Verdicts(baseline, EMPTY, ms)[i]
  {
    forall i: nat | i < |ms| ensures Verdicts(baseline, EMPTY, ms)[i] {
      PushAllIsSuffix(EMPTY, ms[..i + 1]);
      CountNone(PushAll(EMPTY, ms[..i + 1]), 5 * baseline);
    }
  }

  // Enough slow probes short of the bound: the first five still pass, and the
  // rest stop one short.
  lemma SlowVerdictsPass(baseline: nat, maxFailed: int, ms: seq<nat>)
    requires baseline > 0 && |ms| == 4 + Threshold(maxFailed)
    ensures ObserveAll(Verdicts(baseline, seq(WINDOW_SIZE, _ => 1), ms), maxFailed).reconnects == 0
  {
    var vs := Verdicts(baseline, seq(WINDOW_SIZE, _ => 1), ms);
    forall i | 0 <= i < 5 && i < |vs| ensures vs[i] {
      var w := FiveSlowMayNot(baseline, ms[..i + 1]);
    }
    FewFailures(vs, 5);
    ReconnectBudget(vs, maxFailed);
    AtLeastOnce(ObserveAll(vs, maxFailed).reconnects, Threshold(maxFailed));
  }

  // The state after a first connection whose three baseline probes all took b.
  lemma FirstConnection(b: nat, maxFailed: int) returns (run: seq<Action>, s: State)
    ensures After(INIT, run, maxFailed) == Some(s) && Ready(s)
    ensures s.baseline == b && s.window == EMPTY && s.failedCount == 0
  {
    hide BaselineOf, Delivered, Degraded, Push;
    s := INIT;
    run := [];
    run, s := Do(INIT, run, s, HealthStartProbe, maxFailed);
    NeverWithoutBaseline(Push(EMPTY, b));
    run, s := Do(INIT, run, s, HealthProbe(Some(b)), maxFailed);
    run, s := Do(INIT, run, s, HealthSend, maxFailed);
    run, s := Do(INIT, run, s, MonitorTake(true, true), maxFailed);
    run, s := Do(INIT, run, s, MonitorFinish(Connected("a")), maxFailed);
    run, s := Do(INIT, run, s, MonitorAnnounce, maxFailed);
    run, s := Do(INIT, run, s, HealthTakeLinkUp, maxFailed);
    SteadyBaseline(b);
    run, s := Do(INIT, run, s, HealthBaseline(Delivered([b, b, b])), maxFailed);
  }

  lemma NeverWithoutBaseline(w: Slots)
    ensures !Degraded(0, w)
  {
  }

  lemma SteadyBaseline(b: nat)
    ensures |Delivered([b, b, b])| == BASELINE_SAMPLES && BaselineOf(Delivered([b, b, b])) == b
  {
    assert [b, b, b][0 := b] == [b, b, b];
    BaselineRobust([b, b, b], 0, b, b, b);
  }

  // One probe fewer does not suffice: from a state reached after ten quick
  // probes, the verdicts of 4 + Threshold(maxFailed) slow ones are all received
  // without a call of discoverAndConnect.
  lemma DetectionBoundTight(baseline: nat, maxFailed: int, ms: seq<nat>)
    returns (s: State, run: seq<Action>, t: State)
    requires baseline > 0 && |ms| == 4 + Threshold(maxFailed)
    requires forall i :: 0 <= i < |ms| ==> ms[i] > 5 * baseline
    ensures Reachable(s, maxFailed) && s.baseline == baseline
    ensures After(s, run, maxFailed) == Some(t) && OnlySlowProbes(run, baseline)
    ensures |t.log.handled| == |s.log.reported| + 4 + Threshold(maxFailed)
    ensures t.log.connects == s.log.connects
  {
    hide Next, Degraded, Push;
    var run0, ready := FirstConnection(baseline, maxFailed);
    var quick := seq(WINDOW_SIZE, _ => 1);
    var vs := Verdicts(baseline, EMPTY, quick);
    QuickVerdictsPass(baseline, quick);
    FewFailures(vs, |vs|);
    ReconnectBudget(vs, maxFailed);
    AtLeastOnce(ObserveAll(vs, maxFailed).reconnects, Threshold(maxFailed));
    var run1;
    run1, s := Cycles(ready, quick, maxFailed);
    AfterBoth(INIT, run0, ready, run1, s, maxFailed);
    ReachableInv(s, maxFailed);
    assert s.window == quick by {
      PushAllIsSuffix(EMPTY, quick);
      assert (EMPTY + quick)[|quick|..] == quick;
    }
    SlowVerdictsPass(baseline, maxFailed, ms);
    run, t := Cycles(s, ms, maxFailed);
  }

  lemma {:induction false} AfterBoth(s: State, run: seq<Action>, m: State, more: seq<Action>, t: State, maxFailed: int)
    requires After(s, run, maxFailed) == Some(m) && After(m, more, maxFailed) == Some(t)
    ensures After(s, run + more, maxFailed) == Some(t)
  {
    if more == [] {
      assert run + more == run;
    } else {
      var front := more[..|more| - 1];
      AfterBoth(s, run, m, front, After(m, front, maxFailed).value, maxFailed);
      assert (run + more)[..|run + more| - 1] == run + front;
    }
  }

  lemma AtLeastOnce(reconnects: nat, n: nat)
    ensures reconnects == 0 || n * reconnects >= n
  {
    if reconnects >= 1 {
      assert n * reconnects == n + n * (reconnects - 1);
    }
  }

  // A sequence that starts with k successes fails at most |vs| - k times.
  lemma {:induction false} FewFailures(vs: seq<bool>, k: nat)
    requires k <= |vs| && forall i :: 0 <= i < k ==> vs[i]
    ensures Failed(vs) <= |vs| - k
  {
    if vs != [] {
      FewFailures(vs[..|vs| - 1], if k == |vs| then k - 1 else k);
    }
  }
}
