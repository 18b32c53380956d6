// Whole runs of the monitor: what its counter, its announcements, its cooldowns
// and the host it runs on have in common, and that its control state moves as
// the monitor's half of protocol.dfy.
module Daemon {
  import opened Agents
  import opened Common
  import opened Failures
  import opened Measurement
  import opened Netspace
  import opened NoLoop
  import opened Rules
  import Detector
  import Election
  import Fib
  import History
  import Independence
  import Protocol
  import Routing
  import Service

  // The state before round i of a run.
  function Before(cfg: Settings, s: Snapshot, events: seq<Event>, outcomes: seq<Option<Outcome>>, i: nat): Snapshot
    requires i <= |events| == |outcomes|
  {
    AfterRun(cfg, s, events[..i], outcomes[..i])
  }

  lemma {:induction false} RoundFits(
    cfg: Settings, s: Snapshot, events: seq<Event>, outcomes: seq<Option<Outcome>>, i: nat)
    requires FitsRun(cfg, s, events, outcomes) && i < |events|
    ensures FitsRun(cfg, s, events[..i], outcomes[..i])
    ensures Fits(cfg, Before(cfg, s, events, outcomes, i), events[i], outcomes[i])
    ensures Before(cfg, s, events, outcomes, i + 1)
         == AfterRound(cfg, Before(cfg, s, events, outcomes, i), events[i], outcomes[i])
  {
    hide Fits, AfterRound;
    var n := |events| - 1;
    if i == n {
      assert events[..n + 1] == events && outcomes[..n + 1] == outcomes;
    } else {
      RoundFits(cfg, s, events[..n], outcomes[..n], i);
      assert events[..n][..i] == events[..i] && outcomes[..n][..i] == outcomes[..i];
      assert events[..n][..i + 1] == events[..i + 1] && outcomes[..n][..i + 1] == outcomes[..i + 1];
    }
  }

  // --- The counter ----------------------------------------------------------

  // Verdicts counted since the counter was last cleared.
  function Streak(cfg: Settings, s: Snapshot, events: seq<Event>, outcomes: seq<Option<Outcome>>): seq<bool>
    requires |outcomes| == |events|
  {
    if events == [] then []
    else
      var i := |events| - 1;
      var streak := Streak(cfg, s, events[..i], outcomes[..i]);
      if !events[i].Verdict? then streak
      else if outcomes[i].Some? && !(events[i].healthy && Before(cfg, s, events, outcomes, i).agent.winner.Some?)
      then []
      else streak + [events[i].healthy]
  }

  // What a round does to the counter.
  lemma RoundCounts(cfg: Settings, s: Snapshot, e: Event, o: Option<Outcome>)
    requires Fits(cfg, s, e, o)
    ensures var count := AfterRound(cfg, s, e, o).failedCount;
            if !e.Verdict? then count == s.failedCount
            else if o.Some? && !(e.healthy && s.agent.winner.Some?) then
              count == 0 && (!e.healthy ==> s.failedCount + 1 >= Threshold(cfg.maxFailed))
            else count == (if e.healthy then ReduceByOne(s.failedCount) else s.failedCount + 1)
                 && (!e.healthy ==> count < cfg.maxFailed)
  {
    hide Possible, Retry, Entering, AfterDiscovery, AfterReelection;
  }

  lemma {:induction false} CounterIsStreak(
    cfg: Settings, s: Snapshot, events: seq<Event>, outcomes: seq<Option<Outcome>>)
    requires s.failedCount == 0 && FitsRun(cfg, s, events, outcomes)
    ensures ObserveAll(Streak(cfg, s, events, outcomes), cfg.maxFailed)
         == Tally(AfterRun(cfg, s, events, outcomes).failedCount, 0)
  {
    hide Fits, AfterRound;
    if events != [] {
      var i := |events| - 1;
      CounterIsStreak(cfg, s, events[..i], outcomes[..i]);
      RoundCounts(cfg, Before(cfg, s, events, outcomes, i), events[i], outcomes[i]);
      var streak := Streak(cfg, s, events[..i], outcomes[..i]);
      if events[i].Verdict? {
        assert (streak + [events[i].healthy])[..|streak|] == streak;
      }
    }
  }

  // In every run: a failed verdict makes the monitor call discoverAndConnect
  // exactly if it completes a block with enough more failures than successes
  // since the counter was cleared; the counter is the largest excess of any
  // suffix, and below the threshold.
  lemma FailedVerdictRediscoversIff(
    cfg: Settings, s: Snapshot, events: seq<Event>, outcomes: seq<Option<Outcome>>, e: Event)
    requires s.failedCount == 0 && FitsRun(cfg, s, events, outcomes) && e.Verdict? && !e.healthy
    ensures var t, streak := AfterRun(cfg, s, events, outcomes), Streak(cfg, s, events, outcomes);
            && (Calls(cfg, t, e) <==> HasBadBlock(streak + [false], Threshold(cfg.maxFailed)))
            && IsMaxSuffixExcess(t.failedCount, streak) && t.failedCount < Threshold(cfg.maxFailed)
  {
    hide Retry, AfterRun, Fits;
    var streak := Streak(cfg, s, events, outcomes);
    var counted := streak + [false];
    assert counted[..|counted| - 1] == streak;
    CounterIsStreak(cfg, s, events, outcomes);
    CountIsReflectedWalk(streak, cfg.maxFailed);
    CountBelowThreshold(streak, cfg.maxFailed);
    ReconnectIff(counted, cfg.maxFailed);
  }

  // Exactly when a verdict makes the monitor call discoverAndConnect, and what it
  // does to the counter: on a failed one when the counter is exhausted; on a
  // healthy one when there is no winner, or its tunnel is down and connecting to
  // it again fails.
  lemma VerdictCallsIff(cfg: Settings, s: Snapshot, e: Event, o: Option<Outcome>)
    requires e.Verdict? && Fits(cfg, s, e, o)
    ensures !e.healthy ==>
      && (o.Some? <==> s.failedCount + 1 >= cfg.maxFailed)
      && AfterRound(cfg, s, e, o).failedCount == if o.Some? then 0 else s.failedCount + 1
    ensures e.healthy && s.agent.winner.None? ==> o.Some? && AfterRound(cfg, s, e, o).failedCount == 0
    ensures e.healthy && s.agent.winner.Some? ==>
      var (checked, up) := IsUp(s.agent.world, cfg.bypass);
      && (o.Some? <==>
          !up && !(e.retryToken && e.retryServer.Some? && Connect(checked, cfg.bypass, e.retryServer.value).1))
      && AfterRound(cfg, s, e, o).failedCount == if s.failedCount > 0 then s.failedCount - 1 else 0
  {
    hide Possible, IsUp, Connect, Entering, AfterDiscovery, AfterReelection;
  }

  // How discoverAndConnect ends: nobody elected, and winner and cooldowns kept;
  // the elected region the winner but not connected, its cooldown started; or
  // the elected region the winner, connected, and no cooldown started.
  lemma DiscoveryTrichotomy(cfg: Settings, s: Snapshot, e: Event, o: Option<Outcome>)
    requires e.Verdict? && Fits(cfg, s, e, o) && o.Some?
    ensures var t := AfterRound(cfg, s, e, o).agent;
            && t.pending == s.agent.pending
            && match o.value
               case NoElection => t.winner == s.agent.winner && t.failedAt == s.agent.failedAt
               case ConnectFailed(l) =>
                 && t.winner == Some(l) && l.id in t.failedAt && t.failedAt[l.id] == e.answers.failedAt
                 && t.failedAt.Keys == s.agent.failedAt.Keys + {l.id}
                 && (forall id :: id in s.agent.failedAt && id != l.id ==> t.failedAt[id] == s.agent.failedAt[id])
               case Switched(l) => t.winner == Some(l) && t.failedAt == s.agent.failedAt
    ensures Elected(o) ==> Selectable(cfg, o.value.region)
                           && e.answers.regions.Some? && o.value.region in e.answers.regions.value
  {
    hide Connected, Retry, Conclude, Prepared, Electable, Chosen;
    if Elected(o) {
      ElectedSelectable(cfg, s, e, o);
    }
  }

  // A round without a call leaves winner, cooldowns and, but for the retry, the
  // host alone.
  lemma QuietRound(cfg: Settings, s: Snapshot, e: Event, o: Option<Outcome>)
    requires Fits(cfg, s, e, o) && o.None?
    ensures var t := AfterRound(cfg, s, e, o).agent;
            && t.winner == s.agent.winner && t.failedAt == s.agent.failedAt
            && (!(e.Verdict? && e.healthy && s.agent.winner.Some?) ==> t.world == s.agent.world)
  {
    hide Possible, Retry, Conclude;
  }

  function FailedVerdicts(events: seq<Event>): nat {
    if events == [] then 0
    else
      var e := events[|events| - 1];
      FailedVerdicts(events[..|events| - 1]) + if e.Verdict? && !e.healthy then 1 else 0
  }

  // Rounds in which a failed verdict exhausted the counter.
  function Exhaustions(events: seq<Event>, outcomes: seq<Option<Outcome>>): nat
    requires |outcomes| == |events|
  {
    if events == [] then 0
    else
      var i := |events| - 1;
      Exhaustions(events[..i], outcomes[..i])
        + if events[i].Verdict? && !events[i].healthy && outcomes[i].Some? then 1 else 0
  }

  // Every reconnect for exhausted failures is paid for by that many failed
  // verdicts, first connections and re-elections in between or not.
  lemma {:induction false} ExhaustionsPaid(
    cfg: Settings, s: Snapshot, events: seq<Event>, outcomes: seq<Option<Outcome>>)
    requires FitsRun(cfg, s, events, outcomes)
    ensures Threshold(cfg.maxFailed) * Exhaustions(events, outcomes) + AfterRun(cfg, s, events, outcomes).failedCount
              <= s.failedCount + FailedVerdicts(events)
  {
    hide Fits, AfterRound;
    if events != [] {
      var i := |events| - 1;
      ExhaustionsPaid(cfg, s, events[..i], outcomes[..i]);
      RoundCounts(cfg, Before(cfg, s, events, outcomes, i), events[i], outcomes[i]);
      var n, m := Threshold(cfg.maxFailed), Exhaustions(events[..i], outcomes[..i]);
      assert n * (m + 1) == n * m + n;
    }
  }

  // --- Who is announced -----------------------------------------------------

  predicate Selectable(cfg: Settings, l: Listing) {
    l.id !in cfg.ignores && !l.offline
  }

  predicate Elected(o: Option<Outcome>) {
    o.Some? && !o.value.NoElection?
  }

  lemma ElectedSelectable(cfg: Settings, s: Snapshot, e: Event, o: Option<Outcome>)
    requires Fits(cfg, s, e, o) && Elected(o)
    ensures (e.Verdict? || e.Next?) && e.answers.regions.Some?
    ensures Selectable(cfg, o.value.region) && o.value.region in e.answers.regions.value
    ensures var b := BallotOf(cfg, s.agent.failedAt, e.answers, if e.Next? then CurrentID(s.agent) else "");
            Election.Finds(b) && Election.Elects(b, o.value.region.id)
  {
    hide Connected, Retry, Election.Elects, Election.Finds, Measurements, Kept;
    KeptMeans(e.answers.regions.value, cfg.ignores, o.value.region.id);
  }

  lemma RoundWinner(cfg: Settings, s: Snapshot, e: Event, o: Option<Outcome>)
    requires Fits(cfg, s, e, o)
    ensures var winner := AfterRound(cfg, s, e, o).agent.winner;
            winner == s.agent.winner || winner.None? || (Elected(o) && winner == Some(o.value.region))
  {
    hide Possible, Retry, Conclude, Connected, Cleanup, IsUp;
  }

  // Winner safety: no region that is ignored or offline is ever elected, left as
  // the winner or announced.
  lemma {:induction false} WinnersSelectable(
    cfg: Settings, s: Snapshot, events: seq<Event>, outcomes: seq<Option<Outcome>>)
    returns (regions: seq<Listing>)
    requires FitsRun(cfg, s, events, outcomes)
    requires s.agent.winner.Some? ==> Selectable(cfg, s.agent.winner.value)
    ensures var t := AfterRun(cfg, s, events, outcomes);
            t.agent.winner.Some? ==> Selectable(cfg, t.agent.winner.value)
    ensures |regions| == |NamesIn(outcomes)|
    ensures forall k :: 0 <= k < |regions| ==>
      Selectable(cfg, regions[k]) && NamesIn(outcomes)[k] == DisplayName(regions[k])
  {
    hide Fits, AfterRound;
    if events == [] {
      regions := [];
    } else {
      var i := |events| - 1;
      regions := WinnersSelectable(cfg, s, events[..i], outcomes[..i]);
      RoundWinner(cfg, Before(cfg, s, events, outcomes, i), events[i], outcomes[i]);
      if Elected(outcomes[i]) {
        ElectedSelectable(cfg, Before(cfg, s, events, outcomes, i), events[i], outcomes[i]);
        if outcomes[i].value.Switched? {
          regions := regions + [outcomes[i].value.region];
        }
      }
    }
  }

  // A name is announced only when the tunnel passes its own check.
  lemma AnnouncedIsUp(cfg: Settings, s: Snapshot, e: Event, o: Option<Outcome>)
    requires ConfigOk(cfg.bypass) && Fits(cfg, s, e, o) && AnnouncedBy(o).Some?
    ensures IsUp(AfterRound(cfg, s, e, o).agent.world, cfg.bypass).1
    ensures AfterRound(cfg, s, e, o).agent.winner == Some(o.value.region)
  {
    hide IsUp, Connect, Cleanup, EnsureDiscovery, Electable, Retry;
    var start := if e.Next? then Cleanup(Discovered(s.agent.world), cfg.bypass)
                 else Prepared(cfg, Entering(cfg, s, e).world);
    Routing.ConnectEstablishesIsUp(start, cfg.bypass, e.answers.server.value);
  }

  // --- Cooldowns ------------------------------------------------------------

  predicate Answered(e: Event) {
    e.Verdict? || e.Next?
  }

  // The clock does not run backwards: failures are stamped in the order of the
  // rounds. (An election compares with them whatever its own reading is.)
  ghost predicate ClockForward(events: seq<Event>) {
    forall i, j :: 0 <= i < j < |events| && Answered(events[i]) && Answered(events[j]) ==>
      events[i].answers.failedAt <= events[j].answers.failedAt
  }

  // A round stamps at most one failure, with its own reading.
  lemma RoundStamps(cfg: Settings, s: Snapshot, e: Event, o: Option<Outcome>)
    requires Fits(cfg, s, e, o)
    ensures o.Some? ==> Answered(e)
    ensures AfterRound(cfg, s, e, o).agent.failedAt ==
            if o.Some? && o.value.ConnectFailed? then s.agent.failedAt[o.value.region.id := e.answers.failedAt]
            else s.agent.failedAt
  {
    hide Possible, Connected, Retry, Conclude, Prepared;
  }

  lemma {:induction false} FailureRemembered(
    cfg: Settings, s: Snapshot, events: seq<Event>, outcomes: seq<Option<Outcome>>, i: nat)
    requires FitsRun(cfg, s, events, outcomes) && ClockForward(events)
    requires i < |events| && outcomes[i].Some? && outcomes[i].value.ConnectFailed?
    ensures Answered(events[i])
    ensures var failedAt, id := AfterRun(cfg, s, events, outcomes).agent.failedAt, outcomes[i].value.region.id;
            id in failedAt && failedAt[id] >= events[i].answers.failedAt
  {
    hide Fits, AfterRound;
    var n := |events| - 1;
    RoundFits(cfg, s, events, outcomes, i);
    RoundStamps(cfg, Before(cfg, s, events, outcomes, i), events[i], outcomes[i]);
    if i < n {
      assert events[..n][i] == events[i] && outcomes[..n][i] == outcomes[i];
      FailureRemembered(cfg, s, events[..n], outcomes[..n], i);
    }
    RoundFits(cfg, s, events, outcomes, n);
    RoundStamps(cfg, Before(cfg, s, events, outcomes, n), events[n], outcomes[n]);
  }

  // Over the whole run, whatever happened in between: a region whose connection
  // failed is not elected again before the cooldown has passed.
  lemma CooldownKept(cfg: Settings, s: Snapshot, events: seq<Event>, outcomes: seq<Option<Outcome>>, i: nat, j: nat)
    requires FitsRun(cfg, s, events, outcomes) && ClockForward(events)
    requires i < j < |events| && outcomes[i].Some? && outcomes[i].value.ConnectFailed?
    requires Elected(outcomes[j]) && outcomes[j].value.region.id == outcomes[i].value.region.id
    ensures Answered(events[i]) && Answered(events[j])
    ensures events[j].answers.electedAt >= events[i].answers.failedAt + Election.CONNECT_FAILURE_COOLDOWN
  {
    hide Fits, AfterRound, Election.Elects, Election.Finds, Measurements;
    var t := Before(cfg, s, events, outcomes, j);
    RoundFits(cfg, s, events, outcomes, j);
    assert events[..j][i] == events[i] && outcomes[..j][i] == outcomes[i];
    FailureRemembered(cfg, s, events[..j], outcomes[..j], i);
    ElectedSelectable(cfg, t, events[j], outcomes[j]);
    var b := BallotOf(cfg, t.agent.failedAt, events[j].answers, if events[j].Next? then CurrentID(t.agent) else "");
    Election.ElectedIsNew(b, outcomes[j].value.region.id);
  }

  // Where a recorded failure comes from: the start of the run, or the last
  // failed connection to the region.
  lemma {:induction false} FailureOrigin(
    cfg: Settings, s: Snapshot, events: seq<Event>, outcomes: seq<Option<Outcome>>, id: string) returns (i: int)
    requires FitsRun(cfg, s, events, outcomes) && id in AfterRun(cfg, s, events, outcomes).agent.failedAt
    ensures -1 <= i < |events|
    ensures var at := AfterRun(cfg, s, events, outcomes).agent.failedAt[id];
            if i == -1 then id in s.agent.failedAt && s.agent.failedAt[id] == at
            else FailedTo(outcomes[i], id) && Answered(events[i]) && events[i].answers.failedAt == at
  {
    hide Fits, AfterRound;
    if events == [] {
      i := -1;
    } else {
      var n := |events| - 1;
      RoundStamps(cfg, Before(cfg, s, events, outcomes, n), events[n], outcomes[n]);
      if FailedTo(outcomes[n], id) {
        i := n;
      } else {
        i := FailureOrigin(cfg, s, events[..n], outcomes[..n], id);
      }
    }
  }

  // No connection to the region has failed within five minutes before `now`.
  ghost predicate Rested(
    s: Snapshot, events: seq<Event>, outcomes: seq<Option<Outcome>>, id: string, now: int)
    requires |outcomes| == |events|
  {
    && (id in s.agent.failedAt ==> now - s.agent.failedAt[id] >= 300_000_000_000)
    && (forall i :: 0 <= i < |events| && FailedTo(outcomes[i], id) && Answered(events[i]) ==>
          now - events[i].answers.failedAt >= 300_000_000_000)
  }

  predicate FailedTo(o: Option<Outcome>, id: string) {
    o.Some? && o.value.ConnectFailed? && o.value.region.id == id
  }

  // The cooldown ends: in any run, a kept region that answered below the maximum,
  // is not the one excluded and has rested for five minutes is no obstacle - the
  // next election elects somebody, unless a preferred region sits at the very
  // maximum.
  lemma CooldownEnds(
    cfg: Settings, s: Snapshot, events: seq<Event>, outcomes: seq<Option<Outcome>>,
    e: Event, o: Option<Outcome>, id: string)
    requires |outcomes| == |events| && FitsRun(cfg, s, events, outcomes)
    requires Fits(cfg, AfterRun(cfg, s, events, outcomes), e, o) && o.Some?
    requires Answered(e) && e.answers.regions.Some? && |e.answers.regions.value| >= 10
    requires Kept(e.answers.regions.value, cfg.ignores, id).Some?
    requires 0 < Measured(0, e.answers.dials(id)) < cfg.maxLatency
    requires e.Next? ==> id != CurrentID(AfterRun(cfg, s, events, outcomes).agent)
    requires Rested(s, events, outcomes, id, e.answers.electedAt)
    requires cfg.prefer == "" || Kept(e.answers.regions.value, cfg.ignores, cfg.prefer).None?
             || Measured(0, e.answers.dials(cfg.prefer)) != cfg.maxLatency
    ensures Elected(o)
  {
    hide AfterRun, FitsRun, Connected, Retry, Conclude, Measured, Kept, Election.Finds, Election.Elects;
    var t := AfterRun(cfg, s, events, outcomes).agent;
    var b := BallotOf(cfg, t.failedAt, e.answers, if e.Next? then CurrentID(t) else "");
    assert id in b.latency;
    assert cfg.prefer in b.latency ==> b.latency[cfg.prefer] == Measured(0, e.answers.dials(cfg.prefer));
    if !Election.Finds(b) {
      Election.NobodyFree(b, id);
      var i := FailureOrigin(cfg, s, events, outcomes, id);
      assert false;
    }
  }

  // --- Re-election ----------------------------------------------------------

  // A re-election request ends in exactly one of three ways, and after the last
  // the next healthy verdict rediscovers.
  lemma ReelectionTrichotomy(cfg: Settings, s: Snapshot, a: Answers, o: Option<Outcome>)
    requires s.agent.pending > 0 && Fits(cfg, s, Next(a), o)
    ensures o.Some?
    ensures var t := AfterRound(cfg, s, Next(a), o);
            && t.failedCount == s.failedCount && t.agent.pending == s.agent.pending - 1
            && match o.value
               case NoElection =>
                 && t.agent.winner == s.agent.winner && t.agent.failedAt == s.agent.failedAt
                 && t.agent.world == Discovered(s.agent.world)
               case Switched(l) =>
                 && t.agent.winner == Some(l) && t.agent.failedAt == s.agent.failedAt
                 && (CurrentID(s.agent) != "" ==> l.id != CurrentID(s.agent))
               case ConnectFailed(l) =>
                 && t.agent.winner.None? && t.agent.failedAt == s.agent.failedAt[l.id := a.failedAt]
                 && (forall e: Event :: e.Verdict? && e.healthy ==> Calls(cfg, t, e))
  {
    hide Connected, Retry, Election.Elects, Election.Finds, Measurements, Kept;
    if Elected(o) {
      ElectedSelectable(cfg, s, Next(a), o);
      Election.ElectedIsNew(BallotOf(cfg, s.agent.failedAt, a, CurrentID(s.agent)), o.value.region.id);
    }
  }

  // --- The operations on the host -------------------------------------------

  function ConnectOps(tokenOk: bool, server: Option<ServerConf>): seq<Op> {
    if tokenOk && server.Some? then [Connecting(server.value)] else []
  }

  function RetryOps(cfg: Settings, w: World, e: Event): seq<Op>
    requires e.Verdict?
  {
    [Checking] + if IsUp(w, cfg.bypass).1 then [] else ConnectOps(e.retryToken, e.retryServer)
  }

  // What a round does to the namespace and the tunnel, as operations.
  function RoundOps(cfg: Settings, s: Snapshot, e: Event, o: Option<Outcome>): seq<Op> {
    match e
    case Verdict(healthy, _, _, a) =>
      (if healthy && s.agent.winner.Some? then RetryOps(cfg, s.agent.world, e) else [])
        + (if o.None? then [] else [Cleaning, Discovering])
        + (if Elected(o) then ConnectOps(a.tokenOk, a.server) else [])
    case Next(a) =>
      (if o.None? then [] else [Discovering])
        + (if Elected(o) then [Cleaning] + ConnectOps(a.tokenOk, a.server) else [])
    case _ => []
  }

  function RunOps(cfg: Settings, s: Snapshot, events: seq<Event>, outcomes: seq<Option<Outcome>>): seq<Op>
    requires |outcomes| == |events|
  {
    if events == [] then []
    else
      var i := |events| - 1;
      RunOps(cfg, s, events[..i], outcomes[..i])
        + RoundOps(cfg, Before(cfg, s, events, outcomes, i), events[i], outcomes[i])
  }

  lemma {:induction false} ApplyBoth(w: World, cfg: BypassConfig, ops: seq<Op>, more: seq<Op>)
    ensures ApplyAll(w, cfg, ops + more) == ApplyAll(ApplyAll(w, cfg, ops), cfg, more)
  {
    hide Apply;
    if more == [] {
      assert ops + more == ops;
    } else {
      ApplyBoth(w, cfg, ops, more[..|more| - 1]);
      assert (ops + more)[..|ops + more| - 1] == ops + more[..|more| - 1];
    }
  }

  lemma ApplyOne(w: World, cfg: BypassConfig, op: Op)
    ensures ApplyAll(w, cfg, [op]) == Apply(w, cfg, op) && ApplyAll(w, cfg, []) == w
  {
    assert [op][..0] == [];
  }

  lemma ConnectIsOps(cfg: Settings, w: World, tokenOk: bool, server: Option<ServerConf>)
    ensures Connected(cfg, w, tokenOk, server).0 == ApplyAll(w, cfg.bypass, ConnectOps(tokenOk, server))
  {
    if server.Some? {
      ApplyOne(w, cfg.bypass, Connecting(server.value));
    }
  }

  lemma RetryIsOps(cfg: Settings, w: World, e: Event)
    requires e.Verdict?
    ensures Retry(cfg, w, e.retryToken, e.retryServer).0 == ApplyAll(w, cfg.bypass, RetryOps(cfg, w, e))
  {
    hide IsUp, Connect;
    var checked := IsUp(w, cfg.bypass).0;
    var more := if IsUp(w, cfg.bypass).1 then [] else ConnectOps(e.retryToken, e.retryServer);
    ApplyOne(w, cfg.bypass, Checking);
    ApplyBoth(w, cfg.bypass, [Checking], more);
    ConnectIsOps(cfg, checked, e.retryToken, e.retryServer);
  }

  lemma PreparedIsOps(cfg: Settings, w: World)
    ensures Prepared(cfg, w) == ApplyAll(w, cfg.bypass, [Cleaning, Discovering])
  {
    hide Cleanup, EnsureDiscovery;
    assert [Cleaning, Discovering] == [Cleaning] + [Discovering];
    ApplyBoth(w, cfg.bypass, [Cleaning], [Discovering]);
    ApplyOne(w, cfg.bypass, Cleaning);
    ApplyOne(Cleanup(w, cfg.bypass), cfg.bypass, Discovering);
  }

  lemma RoundIsOps(cfg: Settings, s: Snapshot, e: Event, o: Option<Outcome>)
    requires Fits(cfg, s, e, o)
    ensures AfterRound(cfg, s, e, o).agent.world == ApplyAll(s.agent.world, cfg.bypass, RoundOps(cfg, s, e, o))
  {
    hide Possible, Connected, Retry, RetryOps, Cleanup, EnsureDiscovery, Conclude, ApplyAll;
    var w, bypass := s.agent.world, cfg.bypass;
    ApplyOne(w, bypass, Checking);
    match e
    case Verdict(healthy, _, _, a) =>
      var first := if healthy && s.agent.winner.Some? then RetryOps(cfg, w, e) else [];
      var second := if o.None? then [] else [Cleaning, Discovering];
      var third := if Elected(o) then ConnectOps(a.tokenOk, a.server) else [];
      RetryIsOps(cfg, w, e);
      var w1 := ApplyAll(w, bypass, first);
      ApplyBoth(w, bypass, first, second);
      ApplyBoth(w, bypass, first + second, third);
      PreparedIsOps(cfg, w1);
      ConnectIsOps(cfg, Prepared(cfg, w1), a.tokenOk, a.server);
      ApplyOne(w1, bypass, Checking);
      ApplyOne(ApplyAll(w1, bypass, second), bypass, Checking);
    case Next(a) =>
      var w1 := Discovered(w);
      var w2 := Cleanup(w1, bypass);
      var more := if Elected(o) then [Cleaning] + ConnectOps(a.tokenOk, a.server) else [];
      ApplyOne(w, bypass, Discovering);
      ApplyBoth(w, bypass, [Discovering], more);
      ApplyOne(w1, bypass, Cleaning);
      ApplyBoth(w1, bypass, [Cleaning], ConnectOps(a.tokenOk, a.server));
      ConnectIsOps(cfg, w2, a.tokenOk, a.server);
      assert [] + more == more;
    case _ =>
  }

  // Every run of the monitor is a run of these operations, none of them foreign:
  // the theorems on such runs hold of the daemon.
  lemma {:induction false} RunIsOps(cfg: Settings, s: Snapshot, events: seq<Event>, outcomes: seq<Option<Outcome>>)
    requires FitsRun(cfg, s, events, outcomes)
    ensures History.OwnOps(RunOps(cfg, s, events, outcomes))
    ensures AfterRun(cfg, s, events, outcomes).agent.world
         == ApplyAll(s.agent.world, cfg.bypass, RunOps(cfg, s, events, outcomes))
  {
    hide Fits, AfterRound, ApplyAll, RoundOps, History.OwnOps;
    if events == [] {
      ApplyOne(s.agent.world, cfg.bypass, Checking);
      OwnBoth([], []);
    } else {
      var i := |events| - 1;
      var t, ops := Before(cfg, s, events, outcomes, i), RunOps(cfg, s, events[..i], outcomes[..i]);
      var more := RoundOps(cfg, t, events[i], outcomes[i]);
      RunIsOps(cfg, s, events[..i], outcomes[..i]);
      RoundIsOps(cfg, t, events[i], outcomes[i]);
      RoundOpsOwn(cfg, t, events[i], outcomes[i]);
      ApplyBoth(s.agent.world, cfg.bypass, ops, more);
      OwnBoth(ops, more);
    }
  }

  lemma OwnBoth(ops: seq<Op>, more: seq<Op>)
    ensures History.OwnOps([])
    ensures History.OwnOps(ops) && History.OwnOps(more) ==> History.OwnOps(ops + more)
  {
  }

  lemma RoundOpsOwn(cfg: Settings, s: Snapshot, e: Event, o: Option<Outcome>)
    ensures History.OwnOps(RoundOps(cfg, s, e, o))
  {
    hide IsUp;
  }

  function StartOfConnection(cfg: Settings, s: Snapshot, e: Event): World
    requires Answered(e)
  {
    if e.Next? then Cleanup(Discovered(s.agent.world), cfg.bypass) else Prepared(cfg, Entering(cfg, s, e).world)
  }

  lemma AnnouncedIsConnected(cfg: Settings, s: Snapshot, e: Event, o: Option<Outcome>)
    requires Fits(cfg, s, e, o) && AnnouncedBy(o).Some?
    ensures Answered(e) && e.answers.server.Some?
    ensures (AfterRound(cfg, s, e, o).agent.world, true)
         == Connect(StartOfConnection(cfg, s, e), cfg.bypass, e.answers.server.value)
  {
    hide IsUp, Connect, Cleanup, EnsureDiscovery, Electable, Retry;
  }

  lemma StartIsOps(cfg: Settings, s: Snapshot, e: Event) returns (ops: seq<Op>)
    requires Answered(e) && (e.Next? ==> s.agent.pending > 0)
    ensures History.OwnOps(ops) && StartOfConnection(cfg, s, e) == ApplyAll(s.agent.world, cfg.bypass, ops)
  {
    hide Connected, Retry, IsUp, Cleanup, EnsureDiscovery, Conclude, ApplyAll;
    var w, bypass := s.agent.world, cfg.bypass;
    if e.Next? {
      ops := [Discovering] + [Cleaning];
      ApplyOne(w, bypass, Discovering);
      ApplyOne(Discovered(w), bypass, Cleaning);
      ApplyBoth(w, bypass, [Discovering], [Cleaning]);
    } else {
      var first := if e.healthy && s.agent.winner.Some? then RetryOps(cfg, w, e) else [];
      ops := first + [Cleaning, Discovering];
      ApplyOne(w, bypass, Checking);
      RetryIsOps(cfg, w, e);
      ApplyBoth(w, bypass, first, [Cleaning, Discovering]);
      PreparedIsOps(cfg, ApplyAll(w, bypass, first));
    }
  }

  // The daemon never loops: whenever it announces a region, the tunnel's own
  // packets are routed and not into the tunnel, on the terms of NoLoop.
  lemma AnnouncedNeverLoops(
    cfg: Settings, s: Snapshot, events: seq<Event>, outcomes: seq<Option<Outcome>>,
    e: Event, o: Option<Outcome>, c: ServerConf)
    requires Consistent(s.agent.world) && ConfigOk(cfg.bypass) && FitsRun(cfg, s, events, outcomes)
    requires Fits(cfg, AfterRun(cfg, s, events, outcomes), e, o) && AnnouncedBy(o).Some?
    requires Answered(e) && e.answers.server == Some(c)
    requires c.gateway.Some? && c.remote.Some? && c.remote.value.Some? && c.remote != Some(c.gateway)
    requires var p := StartOfConnection(cfg, AfterRun(cfg, s, events, outcomes), e);
             && RouteGet(WithGateway(Up(p, c).0, c.gateway.value), c.remote.value.value).Some?
             && (forall r :: r in p.net.rules && Is(LocalKind, r) ==> r == LOCAL_RULE)
             && (forall r :: r in p.net.rules && r.priority <= LOCAL_PRIO ==> r.table != WG_TABLE)
    ensures var n := AfterRound(cfg, AfterRun(cfg, s, events, outcomes), e, o).agent.world.net;
            var hop := Fib.Lookup(n.rules, n.routes, c.remote.value.value, 0);
            hop.Some? && WG_NAME in n.links && hop.value.link != n.links[WG_NAME]
  {
    hide AfterRound, StartOfConnection, Connect, Up, RouteGet, Fib.Lookup, ApplyAll, Possible, Retry, Conclude;
    var t, w0 := AfterRun(cfg, s, events, outcomes), s.agent.world;
    AnnouncedIsConnected(cfg, t, e, o);
    RunIsOps(cfg, s, events, outcomes);
    var more := StartIsOps(cfg, t, e);
    var ops := RunOps(cfg, s, events, outcomes) + more;
    ApplyBoth(w0, cfg.bypass, RunOps(cfg, s, events, outcomes), more);
    History.OwnIsAllowed(w0, cfg.bypass, ops);
    EncryptedPacketsAvoidTunnel(w0, cfg.bypass, ops, c);
  }

  // --- Restoring the host ---------------------------------------------------

  // Every retry so far was answered with the address the tunnel already had.
  ghost predicate StableRetries(cfg: Settings, s: Snapshot, events: seq<Event>, outcomes: seq<Option<Outcome>>)
    requires |outcomes| == |events|
  {
    forall i :: 0 <= i < |events| ==> StableRetry(Before(cfg, s, events, outcomes, i), events[i])
  }

  predicate StableRetry(s: Snapshot, e: Event) {
    e.Verdict? && e.retryServer.Some? && e.retryServer.value.remote.Some? ==>
      e.retryServer.value.remote.value == s.agent.world.tun.endpoint
  }

  lemma CleanExtend(ops: seq<Op>, op: Op)
    requires History.CleanBetween(ops)
    requires op.Connecting? ==> History.SameEndpoint(op.c, History.LastEndpoint(ops))
    ensures History.CleanBetween(ops + [op])
    ensures History.LastEndpoint(ops + [op]) ==
            if op.Connecting? then History.AfterUp(op.c, History.LastEndpoint(ops))
            else if op.Cleaning? then None else History.LastEndpoint(ops)
  {
    assert (ops + [op])[..|ops|] == ops;
  }

  lemma CleanExtendConnect(ops: seq<Op>, tokenOk: bool, server: Option<ServerConf>)
    requires History.CleanBetween(ops)
    requires server.Some? ==> History.SameEndpoint(server.value, History.LastEndpoint(ops))
    ensures History.CleanBetween(ops + ConnectOps(tokenOk, server))
  {
    if tokenOk && server.Some? {
      CleanExtend(ops, Connecting(server.value));
    } else {
      assert ops + [] == ops;
    }
  }

  // One more round keeps a cleanup before every change of endpoint, as long as
  // its retry is stable.
  lemma RoundCleansBetween(cfg: Settings, ops: seq<Op>, s: Snapshot, e: Event, o: Option<Outcome>)
    requires History.CleanBetween(ops) && StableRetry(s, e) && Fits(cfg, s, e, o)
    requires History.LastEndpoint(ops).Some? ==> s.agent.world.tun.endpoint == History.LastEndpoint(ops).value
    ensures History.CleanBetween(ops + RoundOps(cfg, s, e, o))
  {
    hide Fits, IsUp, History.CleanBetween, History.LastEndpoint, RetryOps, ConnectOps;
    assert ops + [] == ops;
    if e.Verdict? {
      var first := if e.healthy && s.agent.winner.Some? then RetryOps(cfg, s.agent.world, e) else [];
      var second := if o.None? then [] else [Cleaning, Discovering];
      var third := if Elected(o) then ConnectOps(e.answers.tokenOk, e.answers.server) else [];
      RetryCleansBetween(cfg, ops, s, e);
      DiscoveryCleansBetween(ops + first, e.answers, o);
      Joined(ops, first, second, third);
    } else if e.Next? {
      ReelectionCleansBetween(ops, e.answers, o);
    }
  }

  lemma Joined(ops: seq<Op>, first: seq<Op>, second: seq<Op>, third: seq<Op>)
    ensures ops + (first + second + third) == ops + first + second + third
  {
  }

  lemma ReelectionCleansBetween(ops: seq<Op>, a: Answers, o: Option<Outcome>)
    requires History.CleanBetween(ops)
    ensures History.CleanBetween(ops + ((if o.None? then [] else [Discovering])
                                        + (if Elected(o) then [Cleaning] + ConnectOps(a.tokenOk, a.server) else [])))
  {
    hide History.CleanBetween, History.LastEndpoint, ConnectOps;
    if Elected(o) {
      CleanExtend(ops, Discovering);
      CleanExtend(ops + [Discovering], Cleaning);
      CleanExtendConnect(ops + [Discovering] + [Cleaning], a.tokenOk, a.server);
      Joined(ops, [Discovering], [Cleaning], ConnectOps(a.tokenOk, a.server));
      assert [Discovering] + ([Cleaning] + ConnectOps(a.tokenOk, a.server))
          == [Discovering] + [Cleaning] + ConnectOps(a.tokenOk, a.server);
    } else if o.Some? {
      CleanExtend(ops, Discovering);
      assert [Discovering] + [] == [Discovering];
    } else {
      assert ops + ([] + []) == ops;
    }
  }

  lemma RetryCleansBetween(cfg: Settings, ops: seq<Op>, s: Snapshot, e: Event)
    requires e.Verdict? && History.CleanBetween(ops) && StableRetry(s, e)
    requires History.LastEndpoint(ops).Some? ==> s.agent.world.tun.endpoint == History.LastEndpoint(ops).value
    ensures History.CleanBetween(ops + RetryOps(cfg, s.agent.world, e))
  {
    hide IsUp, History.CleanBetween, History.LastEndpoint;
    CleanExtend(ops, Checking);
    CleanExtendConnect(ops + [Checking], e.retryToken, e.retryServer);
    assert ops + ([Checking] + []) == ops + [Checking];
    assert ops + ([Checking] + ConnectOps(e.retryToken, e.retryServer))
        == ops + [Checking] + ConnectOps(e.retryToken, e.retryServer);
  }

  lemma DiscoveryCleansBetween(ops: seq<Op>, a: Answers, o: Option<Outcome>)
    requires History.CleanBetween(ops)
    ensures History.CleanBetween(ops + (if o.None? then [] else [Cleaning, Discovering])
                                     + (if Elected(o) then ConnectOps(a.tokenOk, a.server) else []))
  {
    hide History.CleanBetween, History.LastEndpoint;
    assert ops + [] == ops;
    if o.Some? {
      CleanExtend(ops, Cleaning);
      CleanExtend(ops + [Cleaning], Discovering);
      assert ops + [Cleaning] + [Discovering] == ops + [Cleaning, Discovering];
      CleanExtendConnect(ops + [Cleaning, Discovering], a.tokenOk, a.server);
      assert ops + [Cleaning, Discovering] + [] == ops + [Cleaning, Discovering];
    }
  }

  lemma {:induction false} EndpointOfRun(w: World, cfg: BypassConfig, ops: seq<Op>)
    requires History.OwnOps(ops)
    ensures History.LastEndpoint(ops).Some? ==> ApplyAll(w, cfg, ops).tun.endpoint == History.LastEndpoint(ops).value
  {
    if ops != [] {
      hide Apply;
      var front := ops[..|ops| - 1];
      EndpointOfRun(w, cfg, front);
      History.OpEndpoint(ApplyAll(w, cfg, front), cfg, ops[|ops| - 1]);
    }
  }

  lemma {:induction false} RunCleansBetween(
    cfg: Settings, s: Snapshot, events: seq<Event>, outcomes: seq<Option<Outcome>>)
    requires FitsRun(cfg, s, events, outcomes) && StableRetries(cfg, s, events, outcomes)
    ensures History.CleanBetween(RunOps(cfg, s, events, outcomes))
  {
    hide Fits, AfterRound, RoundOps, ApplyAll, StableRetry, History.LastEndpoint;
    if events != [] {
      var i := |events| - 1;
      var front, done := events[..i], outcomes[..i];
      var t, ops := Before(cfg, s, events, outcomes, i), RunOps(cfg, s, front, done);
      forall k | 0 <= k < i ensures StableRetry(Before(cfg, s, front, done, k), front[k]) {
        assert front[..k] == events[..k] && done[..k] == outcomes[..k];
        assert StableRetry(Before(cfg, s, events, outcomes, k), events[k]);
      }
      RunCleansBetween(cfg, s, front, done);
      RunIsOps(cfg, s, front, done);
      EndpointOfRun(s.agent.world, cfg.bypass, ops);
      RoundCleansBetween(cfg, ops, t, events[i], outcomes[i]);
    }
  }

  // Started on an untouched host, the daemon can be cleaned up after at any
  // moment: Cleanup restores the host exactly if its host routes are intact, ...
  lemma HostRestoredIff(f: Netns, cfg: Settings, s: Snapshot, events: seq<Event>, outcomes: seq<Option<Outcome>>)
    requires History.Untouched(f, cfg.bypass) && ConfigOk(cfg.bypass)
    requires s.agent.world == World(f, History.NEW_TUNNEL) && FitsRun(cfg, s, events, outcomes)
    ensures var w := AfterRun(cfg, s, events, outcomes).agent.world;
            Cleanup(w, cfg.bypass).net == f.(nextIndex := w.net.nextIndex) <==> History.HostRoutesIntact(f, w)
  {
    hide Cleanup, History.HostRoutesIntact;
    RunIsOps(cfg, s, events, outcomes);
    History.RoundTripIff(f, cfg.bypass, RunOps(cfg, s, events, outcomes));
  }

  // ...which they are if no retry changed the address and no server's address
  // had a host route of the host's own.
  lemma HostRestored(f: Netns, cfg: Settings, s: Snapshot, events: seq<Event>, outcomes: seq<Option<Outcome>>)
    requires History.Untouched(f, cfg.bypass) && ConfigOk(cfg.bypass)
    requires s.agent.world == World(f, History.NEW_TUNNEL) && FitsRun(cfg, s, events, outcomes)
    requires StableRetries(cfg, s, events, outcomes) && History.NoOwnRoutes(f, RunOps(cfg, s, events, outcomes))
    ensures var w := AfterRun(cfg, s, events, outcomes).agent.world;
            Cleanup(w, cfg.bypass).net == f.(nextIndex := w.net.nextIndex)
  {
    hide Cleanup;
    RunIsOps(cfg, s, events, outcomes);
    RunCleansBetween(cfg, s, events, outcomes);
    History.RoundTrip(f, cfg.bypass, RunOps(cfg, s, events, outcomes));
  }

  // --- What the host gets ---------------------------------------------------

  // Whenever the tunnel is up, started on an untouched host: every packet its own
  // rules leave alone goes where it is meant to.
  lemma UpRoutesAsIntended(
    f: Netns, cfg: Settings, s: Snapshot, events: seq<Event>, outcomes: seq<Option<Outcome>>, dst: Fib.Addr, mark: int)
    requires History.Untouched(f, cfg.bypass) && ConfigOk(cfg.bypass) && Service.HostUndisturbed(f, dst, mark)
    requires s.agent.world == World(f, History.NEW_TUNNEL) && FitsRun(cfg, s, events, outcomes)
    requires IsUp(AfterRun(cfg, s, events, outcomes).agent.world, cfg.bypass).1
    ensures var n := AfterRun(cfg, s, events, outcomes).agent.world.net;
            && Fib.Lookup(n.rules, n.routes, dst, mark) == Routing.Intended(n.routes, cfg.bypass, dst, mark)
            && DEFAULT_KEY in n.routes && WG_NAME in n.links && n.routes[DEFAULT_KEY].link == n.links[WG_NAME]
  {
    hide Fib.Lookup, Routing.Intended, AfterRun, Fits, RunOps;
    RunIsOps(cfg, s, events, outcomes);
    Service.UpRoutesAsIntended(f, cfg.bypass, RunOps(cfg, s, events, outcomes), dst, mark);
  }

  // The last round announces a region, connected to by this answer.
  ghost predicate AnnouncesAtLast(
    cfg: Settings, s: Snapshot, events: seq<Event>, outcomes: seq<Option<Outcome>>, c: ServerConf)
  {
    && FitsRun(cfg, s, events, outcomes) && events != []
    && AnnouncedBy(outcomes[|events| - 1]).Some?
    && Answered(events[|events| - 1]) && events[|events| - 1].answers.server == Some(c)
  }

  lemma AnnouncedIsUpAtLast(
    cfg: Settings, s: Snapshot, events: seq<Event>, outcomes: seq<Option<Outcome>>, c: ServerConf)
    requires ConfigOk(cfg.bypass) && AnnouncesAtLast(cfg, s, events, outcomes, c)
    ensures IsUp(AfterRun(cfg, s, events, outcomes).agent.world, cfg.bypass).1
  {
    hide Fits, AfterRound, IsUp;
    var i := |events| - 1;
    AnnouncedIsUp(cfg, Before(cfg, s, events, outcomes, i), events[i], outcomes[i]);
  }

  // So whenever the daemon announces a region.
  lemma AnnouncedRoutesAsIntended(
    f: Netns, cfg: Settings, s: Snapshot, events: seq<Event>, outcomes: seq<Option<Outcome>>, c: ServerConf,
    dst: Fib.Addr, mark: int)
    requires History.Untouched(f, cfg.bypass) && ConfigOk(cfg.bypass) && Service.HostUndisturbed(f, dst, mark)
    requires s.agent.world == World(f, History.NEW_TUNNEL) && AnnouncesAtLast(cfg, s, events, outcomes, c)
    ensures var n := AfterRun(cfg, s, events, outcomes).agent.world.net;
            && Fib.Lookup(n.rules, n.routes, dst, mark) == Routing.Intended(n.routes, cfg.bypass, dst, mark)
            && DEFAULT_KEY in n.routes && WG_NAME in n.links && n.routes[DEFAULT_KEY].link == n.links[WG_NAME]
  {
    hide IsUp, Fib.Lookup, Routing.Intended, AfterRun, Fits;
    AnnouncedIsUpAtLast(cfg, s, events, outcomes, c);
    UpRoutesAsIntended(f, cfg, s, events, outcomes, dst, mark);
  }

  // The round's last operation is the connection it announces.
  lemma AnnouncedOpsEnd(cfg: Settings, s: Snapshot, e: Event, o: Option<Outcome>) returns (front: seq<Op>)
    requires Fits(cfg, s, e, o) && AnnouncedBy(o).Some?
    ensures Answered(e) && e.answers.server.Some?
    ensures RoundOps(cfg, s, e, o) == front + [Connecting(e.answers.server.value)]
  {
    hide IsUp, Connect, Cleanup, EnsureDiscovery, Electable, Retry, RetryOps;
    var c := e.answers.server.value;
    assert ConnectOps(e.answers.tokenOk, e.answers.server) == [Connecting(c)];
    front := if e.Next? then [Discovering] + [Cleaning]
             else (if e.healthy && s.agent.winner.Some? then RetryOps(cfg, s.agent.world, e) else [])
                    + [Cleaning, Discovering];
  }

  lemma EndsWithEndpoint(ops: seq<Op>, front: seq<Op>, c: ServerConf)
    requires c.remote.Some?
    ensures History.LastEndpoint(ops + (front + [Connecting(c)])) == Some(c.remote.value)
  {
    var all := ops + (front + [Connecting(c)]);
    assert all[|all| - 1] == Connecting(c);
  }

  // The daemon never loops on an untouched host: whenever it announces a region
  // the host has a path to, the endpoint's packets take that very path, which is
  // not the tunnel - if no server's address is its gateway's or has a host route
  // of the host's own, and every retry is answered with the address the tunnel
  // already had.
  lemma AnnouncedKeepsItsPath(
    f: Netns, cfg: Settings, s: Snapshot, events: seq<Event>, outcomes: seq<Option<Outcome>>,
    c: ServerConf, e: Fib.Addr)
    requires History.Untouched(f, cfg.bypass) && ConfigOk(cfg.bypass)
    requires s.agent.world == World(f, History.NEW_TUNNEL) && AnnouncesAtLast(cfg, s, events, outcomes, c)
    requires Independence.Servers(f, RunOps(cfg, s, events, outcomes)) && StableRetries(cfg, s, events, outcomes)
    requires c.remote == Some(Some(e)) && RouteGet(f, e).Some?
    ensures var n := AfterRun(cfg, s, events, outcomes).agent.world.net;
            && Fib.Lookup(n.rules, n.routes, e, 0) == RouteGet(f, e)
            && WG_NAME in n.links && RouteGet(f, e).value.link != n.links[WG_NAME]
  {
    hide IsUp, Fib.Lookup, RouteGet, Fits, AfterRound, RoundOps, History.LastEndpoint;
    var i, ops := |events| - 1, RunOps(cfg, s, events, outcomes);
    RunIsOps(cfg, s, events, outcomes);
    RunCleansBetween(cfg, s, events, outcomes);
    AnnouncedIsUpAtLast(cfg, s, events, outcomes, c);
    var front := AnnouncedOpsEnd(cfg, Before(cfg, s, events, outcomes, i), events[i], outcomes[i]);
    EndsWithEndpoint(RunOps(cfg, s, events[..i], outcomes[..i]), front, c);
    Service.EndpointKeepsItsPath(f, cfg.bypass, ops, e);
  }

  // The gauge is right at any moment of a run to servers that can be told from
  // their gateways.
  lemma GaugeRight(f: Netns, cfg: Settings, s: Snapshot, events: seq<Event>, outcomes: seq<Option<Outcome>>)
    requires History.Untouched(f, cfg.bypass) && ConfigOk(cfg.bypass)
    requires s.agent.world == World(f, History.NEW_TUNNEL) && FitsRun(cfg, s, events, outcomes)
    requires var ops := RunOps(cfg, s, events, outcomes);
             forall i :: 0 <= i < |ops| && ops[i].Connecting? ==> Independence.Distinct(ops[i].c)
    ensures var w := AfterRun(cfg, s, events, outcomes).agent.world;
            w.tun.gauge == BypassInstalled(w.net, cfg.bypass)
  {
    hide AfterRun, Fits, RunOps, BypassInstalled;
    RunIsOps(cfg, s, events, outcomes);
    History.NewTunnelLeftover(f, cfg.bypass);
    Service.NewTunnelGauge(f, cfg.bypass);
    Service.GaugeInAnyRun(World(f, History.NEW_TUNNEL), cfg.bypass, RunOps(cfg, s, events, outcomes));
  }

  // --- The control loop -----------------------------------------------------

  // The monitor's control state, as protocol.dfy has it.
  predicate Matches(p: Protocol.State, s: Snapshot) {
    && p.monitor.MonitorIdle? && p.failedCount == s.failedCount
    && p.hasWinner == s.agent.winner.Some? && p.nextCh == s.agent.pending
  }

  function Ending(o: Outcome, hasWinner: bool): seq<Protocol.Action> {
    if o.Switched? then [Protocol.MonitorFinish(Protocol.Connected(DisplayName(o.region))), Protocol.MonitorAnnounce]
    else [Protocol.MonitorFinish(Protocol.Quiet(hasWinner))]
  }

  // A round, as actions of the transition system.
  function Actions(cfg: Settings, s: Snapshot, e: Event, o: Option<Outcome>): seq<Protocol.Action> {
    var ending := if o.None? then [] else Ending(o.value, AfterRound(cfg, s, e, o).agent.winner.Some?);
    match e
    case Verdict(_, _, _, _) =>
      [Protocol.MonitorTake(false, Retry(cfg, s.agent.world, e.retryToken, e.retryServer).1)] + ending
    case Request => [Protocol.Trigger]
    case Next(_) => if s.agent.pending > 0 then [Protocol.MonitorTakeNext] + ending else []
    case Tick(_) => [Protocol.MonitorTick]
  }

  lemma CallFits(cfg: Settings, s: Snapshot, e: Event, o: Option<Outcome>)
    requires Fits(cfg, s, e, o)
    ensures o.Some? <==> Calls(cfg, s, e)
    ensures var t := AfterRound(cfg, s, e, o).agent;
            && t.pending == (if e.Request? then 1
                             else if e.Next? && s.agent.pending > 0 then s.agent.pending - 1 else s.agent.pending)
            && t.winner.Some? == (if o.None? || o.value.NoElection? then s.agent.winner.Some?
                                  else o.value.Switched? || e.Verdict?)
  {
    hide Possible, Retry, Conclude, Connected, Cleanup, IsUp;
  }

  // The classes' rounds are rounds of the transition system: from matching
  // states, with the verdict in the channel and room for an announcement, the
  // round's actions are enabled one after the other and end in matching states,
  // with the announcement in the channel. So what holds of every run there
  // holds of the monitor here.
  lemma RoundFollowsProtocol(
    cfg: Settings, s: Snapshot, e: Event, o: Option<Outcome>, p: Protocol.State)
    requires Fits(cfg, s, e, o) && Matches(p, s) && s.agent.pending <= Protocol.CAPACITY
    requires e.Verdict? ==> p.healthCh != [] && p.healthCh[0] == e.healthy
    requires AnnouncedBy(o).Some? ==> p.linkUpCh == []
    ensures var t := Protocol.After(p, Actions(cfg, s, e, o), cfg.maxFailed);
            && t.Some? && Matches(t.value, AfterRound(cfg, s, e, o))
            && t.value.healthCh == (if e.Verdict? then p.healthCh[1..] else p.healthCh)
            && t.value.linkUpCh == p.linkUpCh + (if AnnouncedBy(o).Some? then [AnnouncedBy(o).value] else [])
            && t.value.log.connects == p.log.connects + (if e.Verdict? && o.Some? then 1 else 0)
            && t.value.log.reelections == p.log.reelections + (if e.Next? && o.Some? then 1 else 0)
  {
    hide Fits, AfterRound, Retry, Protocol.Enabled, Protocol.Next, Protocol.After;
    CallFits(cfg, s, e, o);
    RoundConcludes(cfg, s, e, o);
    var run, t := TakeFollows(cfg, s, e, o, p);
    if o.Some? {
      var run', u := EndingFollows(p, run, t, o.value, AfterRound(cfg, s, e, o).agent.winner.Some?, cfg.maxFailed);
      assert run' == Actions(cfg, s, e, o);
    } else {
      assert run == Actions(cfg, s, e, o);
    }
  }

  // The first action of a round.
  lemma TakeFollows(cfg: Settings, s: Snapshot, e: Event, o: Option<Outcome>, p: Protocol.State)
    returns (run: seq<Protocol.Action>, t: Protocol.State)
    requires Fits(cfg, s, e, o) && Matches(p, s) && s.agent.pending <= Protocol.CAPACITY
    requires e.Verdict? ==> p.healthCh != [] && p.healthCh[0] == e.healthy
    ensures Protocol.After(p, run, cfg.maxFailed) == Some(t)
    ensures run == match e
      case Verdict(_, _, _, _) =>
        [Protocol.MonitorTake(false, Retry(cfg, s.agent.world, e.retryToken, e.retryServer).1)]
      case Request => [Protocol.Trigger]
      case Next(_) => if s.agent.pending > 0 then [Protocol.MonitorTakeNext] else []
      case Tick(_) => [Protocol.MonitorTick]
    ensures t.hasWinner == p.hasWinner && t.linkUpCh == p.linkUpCh
    ensures t.healthCh == if e.Verdict? then p.healthCh[1..] else p.healthCh
    ensures t.nextCh == if e.Request? then 1
                        else if e.Next? && s.agent.pending > 0 then s.agent.pending - 1 else s.agent.pending
    ensures if o.Some? then t.monitor.Working? && (t.monitor.cause.Reelection? <==> e.Next?)
            else t.monitor.MonitorIdle?
    ensures var count := AfterRound(cfg, s, e, o).failedCount;
            if o.Some? && t.monitor.cause.Exhausted? then count == 0 else t.failedCount == count
    ensures t.log.connects == p.log.connects + (if e.Verdict? && o.Some? then 1 else 0)
    ensures t.log.reelections == p.log.reelections + (if e.Next? && o.Some? then 1 else 0)
  {
    hide Fits, AfterRound, Retry, Detector.Degraded, Detector.BaselineOf, Detector.Push;
    CallFits(cfg, s, e, o);
    RoundConcludes(cfg, s, e, o);
    run, t := [], p;
    match e
    case Verdict(_, _, _, _) =>
      var restored := Retry(cfg, s.agent.world, e.retryToken, e.retryServer).1;
      run, t := Protocol.Do(p, run, t, Protocol.MonitorTake(false, restored), cfg.maxFailed);
    case Request => run, t := Protocol.Do(p, run, t, Protocol.Trigger, cfg.maxFailed);
    case Next(_) =>
      if s.agent.pending > 0 {
        run, t := Protocol.Do(p, run, t, Protocol.MonitorTakeNext, cfg.maxFailed);
      }
    case Tick(_) => run, t := Protocol.Do(p, run, t, Protocol.MonitorTick, cfg.maxFailed);
  }

  // The call returns, and announces what it connected to.
  lemma EndingFollows(
    p: Protocol.State, run: seq<Protocol.Action>, t: Protocol.State, o: Outcome, hasWinner: bool, maxFailed: int)
    returns (run': seq<Protocol.Action>, u: Protocol.State)
    requires Protocol.After(p, run, maxFailed) == Some(t) && t.monitor.Working?
    requires o.Switched? ==> t.linkUpCh == []
    requires if t.monitor.cause.Reelection? then hasWinner && !o.Switched? ==> t.hasWinner
             else t.hasWinner ==> hasWinner
    ensures run' == run + Ending(o, hasWinner) && Protocol.After(p, run', maxFailed) == Some(u)
    ensures u.monitor.MonitorIdle? && u.hasWinner == (o.Switched? || hasWinner)
    ensures u.failedCount == if t.monitor.cause.Exhausted? then 0 else t.failedCount
    ensures u.healthCh == t.healthCh && u.nextCh == t.nextCh && u.log == t.log
    ensures u.linkUpCh == t.linkUpCh + if o.Switched? then [DisplayName(o.region)] else []
  {
    hide Detector.Degraded, Detector.BaselineOf, Detector.Push, Protocol.After;
    if o.Switched? {
      run', u := Protocol.Do(p, run, t, Protocol.MonitorFinish(Protocol.Connected(DisplayName(o.region))), maxFailed);
      run', u := Protocol.Do(p, run', u, Protocol.MonitorAnnounce, maxFailed);
    } else {
      run', u := Protocol.Do(p, run, t, Protocol.MonitorFinish(Protocol.Quiet(hasWinner)), maxFailed);
    }
  }

  lemma RoundConcludes(cfg: Settings, s: Snapshot, e: Event, o: Option<Outcome>)
    requires Fits(cfg, s, e, o)
    ensures if e.Verdict? then
              (AfterRound(cfg, s, e, o).failedCount, o.Some?) ==
                Conclude(s.failedCount, s.agent.winner.Some?, e.healthy,
                         Retry(cfg, s.agent.world, e.retryToken, e.retryServer).1, cfg.maxFailed)
            else AfterRound(cfg, s, e, o).failedCount == s.failedCount
  {
    hide Possible, Retry, Entering, AfterDiscovery, AfterReelection;
  }
}
