// pkg/vpn/pia: the client's state, its elections and its connections. What the
// network answers comes in as parameters.
module Clients {
  import opened Agents
  import opened Common
  import opened Rules
  import opened Netspace
  import opened Tunnels
  import opened Measurement
  import Election

  class Region {
    const listing: Listing
    var latency: nat
    var connected: bool

    constructor (listing: Listing)
      ensures this.listing == listing && latency == 0 && !connected
    {
      this.listing := listing;
      latency, connected := 0, false;
    }

    // winner = *r
    constructor Copy(r: Region)
      ensures listing == r.listing && latency == r.latency && connected == r.connected
    {
      listing := r.listing;
      latency, connected := r.latency, r.connected;
    }
  }

  class Client {
    const wg: Tunnel
    const ignores: set<string>
    const preferVPN: string
    const maxFailed: int
    const maxBestLatency: nat
    var headends: map<string, Region>
    var winner: Region?
    var failedRegions: map<string, int>
    var nextCh: nat

    // What holds whenever no call is in progress: the known headends are
    // online, not ignored and not marked connected, and the winner is a copy of
    // one that was, not one of them.
    ghost predicate Valid()
      reads this, headends.Values
    {
      && (forall id :: id in headends ==> Selectable(headends[id].listing) && headends[id].listing.id == id
                                          && !headends[id].connected)
      && (winner != null ==> winner !in headends.Values && Selectable(winner.listing))
      && nextCh <= 1
    }

    predicate Selectable(l: Listing) {
      l.id !in ignores && !l.offline
    }

    function Config(): Settings {
      Settings(ignores, preferVPN, maxFailed, maxBestLatency, wg.bypass)
    }

    ghost function State(): Agent
      reads this, wg, wg.kernel
    {
      Agent(if winner == null then None else Some(winner.listing), failedRegions, nextCh, wg.View())
    }

    // The regions and the winner are those from before or new objects.
    twostate predicate Renewed()
      reads this`headends, this`winner
    {
      && (headends == old(headends) || forall id :: id in headends ==> fresh(headends[id]))
      && (winner == null || winner == old(winner) || fresh(winner))
    }

    constructor (wg: Tunnel, ignores: seq<string>, preferVPN: string, maxFailed: int, maxBestLatency: nat)
      ensures Valid() && nextCh == 0 && this.wg == wg && winner == null && headends == map[] && failedRegions == map[]
      ensures forall id :: id in this.ignores <==> id in ignores
      ensures this.preferVPN == preferVPN && this.maxFailed == maxFailed && this.maxBestLatency == maxBestLatency
    {
      var ignoresMap: set<string> := {};
      for i := 0 to |ignores|
        invariant forall id :: id in ignoresMap <==> id in ignores[..i]
      {
        assert ignores[..i + 1] == ignores[..i] + [ignores[i]];
        ignoresMap := ignoresMap + {ignores[i]};
      }
      assert ignores[..|ignores|] == ignores;
      this.wg, this.ignores, this.preferVPN := wg, ignoresMap, preferVPN;
      this.maxFailed, this.maxBestLatency := maxFailed, maxBestLatency;
      headends, winner, failedRegions, nextCh := map[], null, map[], 0;
    }

    // Never blocks: a request that finds one pending is dropped.
    method TriggerNext()
      requires Valid()
      modifies this`nextCh
      ensures Valid() && State() == old(State()).(pending := 1)
    {
      if nextCh < 1 {
        nextCh := nextCh + 1;
      }
    }

    // --- Discovery ---------------------------------------------------------

    method Discover(regions: Option<seq<Listing>>) returns (ok: bool)
      requires Valid()
      modifies this`headends, wg.kernel
      ensures Valid()
      ensures wg.kernel.net == EnsureDiscovery(old(wg.kernel.net))
      ensures ok <==> regions.Some? && |regions.value| >= 10
      ensures !ok ==> headends == old(headends)
      ensures ok ==> forall id :: id in headends <==> Kept(regions.value, ignores, id).Some?
      ensures ok ==> forall id :: id in headends ==>
        && fresh(headends[id]) && headends[id].latency == 0
        && headends[id].listing == Kept(regions.value, ignores, id).value
    {
      var _ := wg.EnsureDiscoveryBypass();
      if regions.None? {
        return false;
      }
      if |regions.value| < MIN_REGIONS {
        return false;
      }
      var list := regions.value;
      var found: map<string, Region> := map[];
      for i := 0 to |list|
        invariant forall id :: id in found <==> Kept(list[..i], ignores, id).Some?
        invariant forall id :: id in found ==>
          && fresh(found[id]) && found[id].listing == Kept(list[..i], ignores, id).value
          && found[id].latency == 0 && !found[id].connected
        invariant wg.kernel.net == EnsureDiscovery(old(wg.kernel.net))
      {
        assert list[..i + 1][..i] == list[..i];
        var r := new Region(list[i]);
        if r.listing.offline {
          continue;
        }
        if r.listing.id !in ignores {
          found := found[r.listing.id := r];
        }
      }
      assert list[..|list|] == list;
      forall id | id in found ensures Selectable(found[id].listing) && found[id].listing.id == id {
        KeptMeans(list, ignores, id);
      }
      headends := found;
      return true;
    }

    // --- Measurement -------------------------------------------------------

    // The lowest latency of a region's reachable servers, dialled in turn.
    method DialServers(servers: seq<Option<nat>>) returns (best: nat)
      ensures best == BestOf(servers)
    {
      best := 0;
      for i := 0 to |servers|
        invariant best == BestOf(servers[..i])
      {
        assert servers[..i + 1][..i] == servers[..i];
        match servers[i]
        case None => continue;
        case Some(total) =>
          if best == 0 || total < best {
            best := total;
          }
      }
      assert servers[..|servers|] == servers;
    }

    // One region after the other; Measurement.Confluent covers the goroutines.
    method Measure(dials: string -> seq<Option<nat>>)
      requires Valid()
      modifies headends.Values`latency
      ensures Valid()
      ensures forall id :: id in headends ==> headends[id].latency == Measured(old(headends[id].latency), dials(id))
    {
      var ids := headends.Keys;
      while ids != {}
        invariant ids <= headends.Keys
        invariant forall id :: id in ids ==> headends[id].latency == old(headends[id].latency)
        invariant forall id :: id in headends.Keys - ids ==>
          headends[id].latency == Measured(old(headends[id].latency), dials(id))
        decreases |ids|
      {
        var id :| id in ids;
        ids := ids - {id};
        var best := DialServers(dials(id));
        if best > 0 {
          headends[id].latency := best;
        }
      }
    }

    // --- Election ----------------------------------------------------------

    ghost function Latencies(): map<string, nat>
      reads this`headends, headends.Values
    {
      map id | id in headends :: headends[id].latency
    }

    ghost function Ballot(excludeID: string, now: int): Election.Ballot
      reads this`headends, this`failedRegions, headends.Values
    {
      Election.Ballot(Latencies(), failedRegions, preferVPN, maxBestLatency, excludeID, now)
    }

    // The loop over the headends, for every order in which the map may be
    // iterated.
    method Pick(excludeID: string, now: int) returns (bestLatency: nat, elected: Option<string>)
      requires Valid()
      ensures bestLatency != maxBestLatency <==> Election.Finds(Ballot(excludeID, now))
      ensures bestLatency != maxBestLatency ==>
        elected.Some? && Election.Elects(Ballot(excludeID, now), elected.value)
    {
      ghost var b := Ballot(excludeID, now);
      bestLatency, elected := maxBestLatency, None;
      Election.NoneSeen(b);
      hide Election.BestSoFar, Election.Finds, Election.Elects, Election.Candidate;
      var ids := headends.Keys;
      ghost var seen: set<string> := {};
      while ids != {}
        invariant ids <= headends.Keys && ids + seen == b.latency.Keys
        invariant Election.BestSoFar(b, seen, bestLatency, elected)
        decreases |ids|
      {
        var id :| id in ids;
        var r := headends[id];
        Election.OneMoreRegion(b, seen, bestLatency, elected, id);
        assert r.listing.id == id && r.latency == b.latency[id];
        ids, seen := ids - {id}, seen + {id};
        if excludeID != "" && r.listing.id == excludeID {
          continue;
        }
        if r.listing.id in failedRegions && now - failedRegions[r.listing.id] < Election.CONNECT_FAILURE_COOLDOWN {
          continue;
        }
        if preferVPN != "" && r.listing.id == preferVPN {
          Election.PreferredSeen(b);
          return r.latency, Some(id);
        }
        if r.latency > 0 && r.latency < bestLatency {
          bestLatency, elected := r.latency, Some(id);
        }
      }
      assert seen == b.latency.Keys;
      Election.AllSeen(b, bestLatency, elected);
    }

    method BestHeadend(excludeID: string, now: int) returns (found: bool)
      requires Valid()
      modifies this`winner
      ensures Valid()
      ensures found == Election.Finds(Ballot(excludeID, now))
      ensures !found ==> winner == old(winner)
      ensures found ==> winner != null && fresh(winner) && !winner.connected
      ensures found ==> Election.Elects(Ballot(excludeID, now), winner.listing.id)
                        && winner.listing == headends[winner.listing.id].listing
                        && winner.latency == headends[winner.listing.id].latency
      // Nobody is found only while everybody in reach is excluded or within five
      // minutes of a connect failure, or a preferred region sits at the maximum.
      ensures !found && (preferVPN == "" || preferVPN !in headends || headends[preferVPN].latency != maxBestLatency) ==>
        forall id :: id in headends && 0 < headends[id].latency < maxBestLatency ==>
          (excludeID != "" && id == excludeID)
          || (id in failedRegions && now - failedRegions[id] < 300_000_000_000)
      // Whoever is found is neither, and but for a preferred region nobody faster
      // is free.
      ensures found ==>
        && (excludeID != "" ==> winner.listing.id != excludeID)
        && (winner.listing.id in failedRegions ==> now - failedRegions[winner.listing.id] >= 300_000_000_000)
      ensures found && !(preferVPN != "" && winner.listing.id == preferVPN) ==>
        && 0 < winner.latency < maxBestLatency
        && forall id :: id in headends && 0 < headends[id].latency < winner.latency ==>
             (excludeID != "" && id == excludeID)
             || (id in failedRegions && now - failedRegions[id] < 300_000_000_000)
    {
      hide Election.Finds, Election.Elects;
      ghost var b := Ballot(excludeID, now);
      var bestLatency, elected := Pick(excludeID, now);
      if bestLatency == maxBestLatency {
        if preferVPN == "" || preferVPN !in headends || headends[preferVPN].latency != maxBestLatency {
          forall id | id in headends && 0 < headends[id].latency < maxBestLatency
            ensures (excludeID != "" && id == excludeID)
                    || (id in failedRegions && now - failedRegions[id] < 300_000_000_000)
          {
            Election.NobodyFree(b, id);
          }
        }
        return false;
      }
      Election.ElectedIsFastestFree(b, elected.value);
      var w := new Region.Copy(headends[elected.value]);
      winner := w;
      return true;
    }

    // --- Connection --------------------------------------------------------

    // The winner counts as connected once its routes are in place, even if
    // masquerading then fails.
    method Connect(tokenOk: bool, server: Option<ServerConf>) returns (ok: bool)
      requires Valid() && winner != null
      modifies winner`connected, wg, wg.kernel
      ensures Valid()
      ensures (wg.View(), ok) == Connected(Config(), old(wg.View()), tokenOk, server)
      ensures ok ==> winner.connected
      ensures winner.connected <==> old(winner.connected)
                                    || (tokenOk && server.Some? && GetsRouted(old(wg.View()), wg.bypass, server.value))
    {
      if !tokenOk {
        return false;
      }
      if server.None? {
        return false;
      }
      var c := server.value;
      var up := wg.Up(c);
      if !up {
        return false;
      }
      var routed := wg.EnsureRouting(c.gateway);
      if !routed {
        return false;
      }
      winner.connected := true;
      if !c.natOk {
        return false;
      }
      wg.EnsureMasquerade();
      return true;
    }

    method Cleanup()
      modifies wg`link, wg`bypassRulePresent, wg.kernel
      ensures wg.View() == Netspace.Cleanup(old(wg.View()), wg.bypass)
    {
      wg.Cleanup();
    }

    // --- The two compound moves: monitor.go ---------------------------------

    // Discover, Measure and bestHeadend, as both moves begin.
    method Rediscover(a: Answers, excludeID: string) returns (discovered: bool, found: bool)
      requires Valid()
      modifies this`headends, this`winner, wg.kernel
      ensures Valid() && Renewed()
      ensures wg.kernel.net == EnsureDiscovery(old(wg.kernel.net))
      ensures found == Chosen(Config(), failedRegions, a, excludeID) && (found ==> discovered)
      ensures !discovered ==> headends == old(headends)
      ensures !found ==> winner == old(winner)
      ensures found ==> winner != null && fresh(winner) && !winner.connected
                        && Electable(Config(), failedRegions, a, excludeID, winner.listing)
    {
      hide Election.Finds, Election.Elects, Measured, Kept, Regions;
      discovered := Discover(a.regions);
      found := false;
      if !discovered {
        return;
      }
      Measure(a.dials);
      assert Latencies() == Measurements(a.regions.value, ignores, a.dials);
      assert Ballot(excludeID, a.electedAt) == BallotOf(Config(), failedRegions, a, excludeID);
      found := BestHeadend(excludeID, a.electedAt);
      if found {
        ElectedKnown(BallotOf(Config(), failedRegions, a, excludeID), winner.listing.id);
      }
    }

    static lemma ElectedKnown(b: Election.Ballot, id: string)
      requires Election.Finds(b) && Election.Elects(b, id)
      ensures id in b.latency
    {
    }

    // A name is announced exactly when the region elected was connected to.
    method DiscoverAndConnect(a: Answers) returns (announced: Option<string>, ghost outcome: Outcome)
      requires Valid()
      modifies this`headends, this`winner, this`failedRegions, wg, wg.kernel
      ensures Valid() && Renewed()
      ensures Possible(Config(), old(failedRegions), a, "", Prepared(Config(), old(State()).world), outcome)
      ensures State() == AfterDiscovery(Config(), old(State()), a, outcome)
      ensures announced == Announced(outcome)
      ensures announced.Some? ==> winner != null && fresh(winner) && winner.connected
    {
      hide Chosen, Electable, Connected, GetsRouted, Netspace.Cleanup, EnsureDiscovery;
      Cleanup();
      var discovered, found := Rediscover(a, "");
      if !found {
        return None, NoElection;
      }
      var ok := Connect(a.tokenOk, a.server);
      if !ok {
        if winner != null {
          failedRegions := failedRegions[winner.listing.id := a.failedAt];
        }
        return None, ConnectFailed(winner.listing);
      }
      announced, outcome := None, Switched(winner.listing);
      if winner.connected {
        announced := Some(DisplayName(winner.listing));
      }
    }

    method ReelectNext(a: Answers) returns (announced: Option<string>, ghost outcome: Outcome)
      requires Valid()
      modifies this`headends, this`winner, this`failedRegions, wg, wg.kernel
      ensures Valid() && Renewed()
      ensures Possible(Config(), old(failedRegions), a, CurrentID(old(State())),
                       Netspace.Cleanup(Discovered(old(State()).world), wg.bypass), outcome)
      ensures State() == AfterReelection(Config(), old(State()), a, outcome)
      ensures announced == Announced(outcome)
      ensures announced.Some? ==> winner != null && fresh(winner) && winner.connected
    {
      hide Chosen, Electable, Connected, GetsRouted, Netspace.Cleanup, EnsureDiscovery;
      var excludeID := "";
      if winner != null {
        excludeID := winner.listing.id;
      }
      var discovered, found := Rediscover(a, excludeID);
      if !found {
        return None, NoElection;
      }
      Cleanup();
      var ok := Connect(a.tokenOk, a.server);
      if !ok {
        ghost var elected := winner.listing;
        failedRegions := failedRegions[winner.listing.id := a.failedAt];
        winner := null;
        return None, ConnectFailed(elected);
      }
      announced, outcome := None, Switched(winner.listing);
      if winner.connected {
        announced := Some(DisplayName(winner.listing));
      }
    }
  }
}
