// The agent as a function on values: what one round of the monitor's loop does
// to the failure counter, the client and the tunnel. The classes of client.dfy
// and monitor.dfy are proved to do this.
module Agents {
  import opened Common
  import opened Failures
  import opened Measurement
  import opened Netspace
  import opened Rules
  import Election

  const MIN_REGIONS := 10

  // A region as the server list describes it.
  datatype Listing = Listing(id: string, name: string, offline: bool)

  function DisplayName(l: Listing): string {
    if l.name != "" then l.name else l.id
  }

  // The last region of the list with the given ID that is neither offline nor
  // ignored: later ones replace earlier ones.
  function Kept(list: seq<Listing>, ignores: set<string>, id: string): Option<Listing> {
    if list == [] then None
    else
      var last := list[|list| - 1];
      if last.id == id && !last.offline && last.id !in ignores then Some(last)
      else Kept(list[..|list| - 1], ignores, id)
  }

  function Regions(list: seq<Listing>, ignores: set<string>): (ids: set<string>)
    ensures forall id :: id in ids <==> Kept(list, ignores, id).Some?
  {
    if list == [] then {}
    else
      var last := list[|list| - 1];
      Regions(list[..|list| - 1], ignores) + if !last.offline && last.id !in ignores then {last.id} else {}
  }

  // The latencies right after a discovery and a measurement.
  function Measurements(list: seq<Listing>, ignores: set<string>, dials: string -> seq<Option<nat>>): map<string, nat> {
    map id | id in Regions(list, ignores) :: Measured(0, dials(id))
  }

  lemma {:induction false} KeptMeans(list: seq<Listing>, ignores: set<string>, id: string)
    ensures match Kept(list, ignores, id)
      case None => forall i :: 0 <= i < |list| ==> list[i].id != id || list[i].offline || id in ignores
      case Some(l) => l in list && l.id == id && !l.offline && id !in ignores
  {
    if list != [] {
      KeptMeans(list[..|list| - 1], ignores, id);
    }
  }

  // The outcomes of one round of discovery, measurement and connection.
  datatype Answers = Answers(
    regions: Option<seq<Listing>>,            // the server list, if it arrived
    dials: string -> seq<Option<nat>>,        // the dials of each region's servers
    tokenOk: bool, server: Option<ServerConf>, // the connection
    electedAt: int, failedAt: int)            // clock readings

  // Of several listings of an ID that may be kept, the last one is.
  lemma {:induction false} KeptIsLast(list: seq<Listing>, ignores: set<string>, id: string) returns (i: nat)
    requires Kept(list, ignores, id).Some?
    ensures i < |list| && list[i] == Kept(list, ignores, id).value
    ensures forall j :: i < j < |list| && list[j].id == id ==> list[j].offline
  {
    var n := |list| - 1;
    if list[n].id == id && !list[n].offline && list[n].id !in ignores {
      i := n;
    } else {
      i := KeptIsLast(list[..n], ignores, id);
      KeptMeans(list, ignores, id);
    }
  }

  datatype Settings = Settings(
    ignores: set<string>, prefer: string, maxFailed: int, maxLatency: nat, bypass: BypassConfig)

  // pending: re-election requests in the channel.
  datatype Agent = Agent(winner: Option<Listing>, failedAt: map<string, int>, pending: nat, world: World)

  // --- Discovery, election, connection --------------------------------------

  // The election that follows these answers.
  function BallotOf(cfg: Settings, failedAt: map<string, int>, a: Answers, excludeID: string): Election.Ballot
    requires a.regions.Some?
  {
    Election.Ballot(Measurements(a.regions.value, cfg.ignores, a.dials), failedAt,
                    cfg.prefer, cfg.maxLatency, excludeID, a.electedAt)
  }

  // Do they elect anybody?
  predicate Chosen(cfg: Settings, failedAt: map<string, int>, a: Answers, excludeID: string) {
    a.regions.Some? && |a.regions.value| >= MIN_REGIONS && Election.Finds(BallotOf(cfg, failedAt, a, excludeID))
  }

  // May they elect this region?
  ghost predicate Electable(cfg: Settings, failedAt: map<string, int>, a: Answers, excludeID: string, l: Listing) {
    && Chosen(cfg, failedAt, a, excludeID)
    && Kept(a.regions.value, cfg.ignores, l.id) == Some(l)
    && Election.Elects(BallotOf(cfg, failedAt, a, excludeID), l.id)
  }

  // What a connection does to the tunnel, and whether it succeeds.
  function Connected(cfg: Settings, w: World, tokenOk: bool, server: Option<ServerConf>): (World, bool) {
    if tokenOk && server.Some? then Connect(w, cfg.bypass, server.value) else (w, false)
  }

  // How discoverAndConnect or reelectNext ended: nothing elected, elected but
  // not connected, or connected.
  datatype Outcome = NoElection | ConnectFailed(region: Listing) | Switched(region: Listing)

  function Announced(o: Outcome): Option<string> {
    if o.Switched? then Some(DisplayName(o.region)) else None
  }

  // The outcomes these answers allow, when the connection starts from w.
  ghost predicate Possible(
    cfg: Settings, failedAt: map<string, int>, a: Answers, excludeID: string, w: World, o: Outcome)
  {
    match o
    case NoElection => !Chosen(cfg, failedAt, a, excludeID)
    case ConnectFailed(l) => Electable(cfg, failedAt, a, excludeID, l) && !Connected(cfg, w, a.tokenOk, a.server).1
    case Switched(l) => Electable(cfg, failedAt, a, excludeID, l) && Connected(cfg, w, a.tokenOk, a.server).1
  }

  // Cleaned up, with the discovery rule back in place.
  function Prepared(cfg: Settings, w: World): World {
    var cleaned := Cleanup(w, cfg.bypass);
    cleaned.(net := EnsureDiscovery(cleaned.net))
  }

  function Discovered(w: World): World {
    w.(net := EnsureDiscovery(w.net))
  }

  // discoverAndConnect: tear down, rediscover, elect, connect. A failed
  // connection starts the elected region's cooldown but leaves it the winner.
  function AfterDiscovery(cfg: Settings, s: Agent, a: Answers, o: Outcome): Agent {
    var start := Prepared(cfg, s.world);
    var w := Connected(cfg, start, a.tokenOk, a.server).0;
    match o
    case NoElection => s.(world := start)
    case ConnectFailed(l) => s.(winner := Some(l), failedAt := s.failedAt[l.id := a.failedAt], world := w)
    case Switched(l) => s.(winner := Some(l), world := w)
  }

  // reelectNext: rediscover, elect another, and only then tear down and connect.
  function AfterReelection(cfg: Settings, s: Agent, a: Answers, o: Outcome): Agent {
    var w := Connected(cfg, Cleanup(Discovered(s.world), cfg.bypass), a.tokenOk, a.server).0;
    match o
    case NoElection => s.(world := Discovered(s.world))
    case ConnectFailed(l) => s.(winner := None, failedAt := s.failedAt[l.id := a.failedAt], world := w)
    case Switched(l) => s.(winner := Some(l), world := w)
  }

  function CurrentID(s: Agent): string {
    if s.winner.Some? then s.winner.value.id else ""
  }

  // --- One round of the loop ------------------------------------------------

  // What may make the select proceed, and the requests that arrive meanwhile.
  datatype Event =
    | Verdict(healthy: bool, retryToken: bool, retryServer: Option<ServerConf>, answers: Answers)
    | Request
    | Next(answers: Answers)
    | Tick(dials: string -> seq<Option<nat>>)

  datatype Snapshot = Snapshot(failedCount: nat, agent: Agent)

  // With a winner set: check the tunnel, and connect to the same headend again
  // if it is down.
  function Retry(cfg: Settings, w: World, tokenOk: bool, server: Option<ServerConf>): (World, bool) {
    var (checked, up) := IsUp(w, cfg.bypass);
    if up then (checked, true) else Connected(cfg, checked, tokenOk, server)
  }

  function Concluded(cfg: Settings, s: Snapshot, e: Event): (nat, bool)
    requires e.Verdict?
  {
    Conclude(s.failedCount, s.agent.winner.Some?, e.healthy,
             Retry(cfg, s.agent.world, e.retryToken, e.retryServer).1, cfg.maxFailed)
  }

  // Does the round call discoverAndConnect or reelectNext?
  predicate Calls(cfg: Settings, s: Snapshot, e: Event) {
    match e
    case Verdict(_, _, _, _) => Concluded(cfg, s, e).1
    case Next(_) => s.agent.pending > 0
    case _ => false
  }

  // The agent when it does, or at the end of a round that does not.
  function Entering(cfg: Settings, s: Snapshot, e: Event): Agent {
    match e
    case Verdict(healthy, retryToken, retryServer, _) =>
      if healthy && s.agent.winner.Some? then s.agent.(world := Retry(cfg, s.agent.world, retryToken, retryServer).0)
      else s.agent
    case Request => s.agent.(pending := 1)
    case Next(_) => if s.agent.pending > 0 then s.agent.(pending := s.agent.pending - 1) else s.agent
    case Tick(_) => s.agent
  }

  // The outcome of the call, if there is one.
  ghost predicate Fits(cfg: Settings, s: Snapshot, e: Event, o: Option<Outcome>) {
    && (o.Some? <==> Calls(cfg, s, e))
    && (o.Some? && e.Verdict? ==>
        Possible(cfg, s.agent.failedAt, e.answers, "", Prepared(cfg, Entering(cfg, s, e).world), o.value))
    && (o.Some? && e.Next? ==>
        Possible(cfg, s.agent.failedAt, e.answers, CurrentID(s.agent),
                 Cleanup(Discovered(s.agent.world), cfg.bypass), o.value))
  }

  function AfterRound(cfg: Settings, s: Snapshot, e: Event, o: Option<Outcome>): Snapshot {
    var entering := Entering(cfg, s, e);
    Snapshot(
      if e.Verdict? then Concluded(cfg, s, e).0 else s.failedCount,
      if o.Some? && e.Verdict? then AfterDiscovery(cfg, entering, e.answers, o.value)
      else if o.Some? && e.Next? then AfterReelection(cfg, entering, e.answers, o.value)
      else entering)
  }

  function AnnouncedBy(o: Option<Outcome>): Option<string> {
    if o.Some? then Announced(o.value) else None
  }

  // --- Runs -----------------------------------------------------------------

  ghost predicate FitsRun(cfg: Settings, s: Snapshot, events: seq<Event>, outcomes: seq<Option<Outcome>>) {
    |outcomes| == |events| &&
    (events == [] ||
     (var i := |events| - 1;
      && FitsRun(cfg, s, events[..i], outcomes[..i])
      && Fits(cfg, AfterRun(cfg, s, events[..i], outcomes[..i]), events[i], outcomes[i])))
  }

  function AfterRun(cfg: Settings, s: Snapshot, events: seq<Event>, outcomes: seq<Option<Outcome>>): Snapshot
    requires |outcomes| == |events|
  {
    if events == [] then s
    else
      var i := |events| - 1;
      AfterRound(cfg, AfterRun(cfg, s, events[..i], outcomes[..i]), events[i], outcomes[i])
  }

  function NamesIn(outcomes: seq<Option<Outcome>>): seq<string> {
    if outcomes == [] then []
    else
      var name := AnnouncedBy(outcomes[|outcomes| - 1]);
      NamesIn(outcomes[..|outcomes| - 1]) + if name.Some? then [name.value] else []
  }

  lemma NoRounds(cfg: Settings, s: Snapshot)
    ensures FitsRun(cfg, s, [], []) && AfterRun(cfg, s, [], []) == s && NamesIn([]) == []
  {
  }

  lemma OneMoreRound(
    cfg: Settings, s: Snapshot, events: seq<Event>, outcomes: seq<Option<Outcome>>, e: Event, o: Option<Outcome>)
    requires FitsRun(cfg, s, events, outcomes) && Fits(cfg, AfterRun(cfg, s, events, outcomes), e, o)
    ensures FitsRun(cfg, s, events + [e], outcomes + [o])
    ensures AfterRun(cfg, s, events + [e], outcomes + [o]) == AfterRound(cfg, AfterRun(cfg, s, events, outcomes), e, o)
    ensures NamesIn(outcomes + [o]) == NamesIn(outcomes) + if AnnouncedBy(o).Some? then [AnnouncedBy(o).value] else []
  {
    hide Fits, AfterRound;
    assert (events + [e])[..|events|] == events && (outcomes + [o])[..|outcomes|] == outcomes;
  }
}
