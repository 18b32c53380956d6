// Concrete runs in which the agent does not restore a host, does not connect to
// it as it would have the first time, or sends its own packets into the tunnel;
// and one where all is well.
module Witnesses {
  import opened Common
  import opened Fib
  import opened Rules
  import opened Netspace
  import opened Routing
  import opened NoLoop
  import opened History
  import opened Independence
  import opened Service

  const CONFIG := BypassConfig(9, 51821)
  const ON_ETH0 := Key(MAIN_TABLE, Prefix(0, 31))

  // A host with one link, one route, to the addresses 0 and 1, and these rules.
  function SmallHost(rules: seq<Rule>): Netns {
    Netns(rules, map[ON_ETH0 := Hop(None, 1)], map["eth0" := 1], 2, {}, [])
  }

  function Answer(endpoint: Addr): ServerConf {
    ServerConf(Some(Some(endpoint)), true, true, Some(5), Some(6), true)
  }

  const STOCK := [Rule(0, 0, LOCAL_TABLE, -1), Rule(32766, 0, MAIN_TABLE, -1)]

  lemma SmallHostFacts(rules: seq<Rule>)
    requires rules == STOCK || rules == []
    ensures Untouched(SmallHost(rules), CONFIG) && ConfigOk(CONFIG)
    ensures forall e: Addr :: HostKey(e) !in SmallHost(rules).routes
  {
    var f := SmallHost(rules);
    assert LinkExists(f, f.links["eth0"]);
    assert BlockSize(31) == 2;
  }

  lemma TableMatch(e: Addr, table: int)
    ensures Lpm(SmallHost([]).routes, table, e)
         == if table == MAIN_TABLE && e < 2 then Some(Match(31, Hop(None, 1))) else None
  {
    var routes := SmallHost([]).routes;
    assert BlockSize(31) == 2;
    LpmKey(routes, table, e, 32);
    if table == MAIN_TABLE && e < 2 {
      assert Around(e, 31) == Prefix(0, 31);
      assert LpmFrom(routes, table, e, 31) == Some(Match(31, Hop(None, 1)));
      assert Key(table, Around(e, 32)) !in routes;
    } else {
      assert Around(e, 31).net == e - e % 2;
    }
  }

  lemma Reaches(e: Addr)
    ensures RouteGet(SmallHost(STOCK), e) == if e < 2 then Some(Hop(None, 1)) else None
    ensures RouteGet(SmallHost([]), e) == None
    ensures RouteGet(WithLocal(SmallHost([])), e) == if e < 2 then Some(Hop(None, 1)) else None
  {
    TableMatch(e, MAIN_TABLE);
    TableMatch(e, LOCAL_TABLE);
    var routes := SmallHost([]).routes;
    assert STOCK[1..] == [Rule(32766, 0, MAIN_TABLE, -1)];
    assert Lookup([Rule(32766, 0, MAIN_TABLE, -1)], routes, e, 0) == if e < 2 then Some(Hop(None, 1)) else None by {
      assert [Rule(32766, 0, MAIN_TABLE, -1)][1..] == [];
    }
    assert Insert([], LOCAL_RULE) == [LOCAL_RULE] && [LOCAL_RULE][1..] == [];
  }

  // Connected to 1, reconnected without a cleanup to 0, cleaned up: the route to
  // 1 stays behind.
  lemma StrayPin()
    ensures var f := SmallHost(STOCK);
            var w := Connect(Connect(World(f, NEW_TUNNEL), CONFIG, Answer(1)).0, CONFIG, Answer(0)).0;
            HostKey(1) !in f.routes && HostKey(1) in Cleanup(w, CONFIG).net.routes
  {
    var f := SmallHost(STOCK);
    SmallHostFacts(STOCK);
    Reaches(1);
    PinsIff(f, CONFIG, Answer(1));
    RoundTripTwiceIff(f, CONFIG, Answer(1), Answer(0));
  }

  // Connected to 1, cleaned up, connected to 8, to which there is no path: the
  // bypass table gets a default where a new tunnel would not give it one.
  lemma CapturedPath()
    ensures var f := SmallHost(STOCK);
            var w := ApplyAll(World(f, NEW_TUNNEL), CONFIG, [Connecting(Answer(1)), Cleaning]);
            && w.net == f.(nextIndex := w.net.nextIndex)
            && BypassKey(CONFIG) in Connect(w, CONFIG, Answer(8)).0.net.routes
            && BypassKey(CONFIG) !in Connect(Anew(f, w.net.nextIndex), CONFIG, Answer(8)).0.net.routes
  {
    SmallHostFacts(STOCK);
    Reaches(1);
    Reaches(8);
    CapturedPathOutlivesItsServer(SmallHost(STOCK), CONFIG, Answer(1), Answer(8));
  }

  // On a host none of whose rules consults the main table there is no path to 1.
  // Reconnecting to it, the agent finds one - by its own rule, in place since
  // the first connection - and pins it.
  lemma PathOpensOnReconnect()
    ensures var f := SmallHost([]);
            var w := ApplyAll(World(f, NEW_TUNNEL), CONFIG, [Connecting(Answer(1))]);
            && Connect(w, CONFIG, Answer(1)).1
            && Connect(w, CONFIG, Answer(1)).0.net != Connect(Anew(f, w.net.nextIndex), CONFIG, Answer(1)).0.net
  {
    hide Connect, RouteGet, Known;
    var f, c := SmallHost([]), Answer(1);
    var ops := [Connecting(c)];
    SmallHostFacts([]);
    Reaches(1);
    OneOp(f, CONFIG, Connecting(c));
    assert ops[..|ops| - 1] == [] && CleanBetween([]) && LastEndpoint([]) == None;
    var w := ApplyAll(World(f, NEW_TUNNEL), CONFIG, ops);
    NewTunnelSettled(f, CONFIG);
    ConnectResult(f, CONFIG, World(f, NEW_TUNNEL), c, None, NOTHING);
    LayerMembers(f.rules, CONFIG, Everything(CONFIG));
    HistoryIndependence(f, CONFIG, ops, c);
  }

  // The ordinary case: connected to 1 on the stock host, the endpoint's packets
  // are routed, and not into the tunnel.
  lemma OrdinaryConnection()
    ensures var (w, ok) := Connect(World(SmallHost(STOCK), NEW_TUNNEL), CONFIG, Answer(1));
            var hop := Lookup(w.net.rules, w.net.routes, 1, 0);
            ok && hop.Some? && WG_NAME in w.net.links && hop.value.link != w.net.links[WG_NAME]
  {
    hide Connect, RouteGet, Known, Lookup, NetnsOk;
    var f, c := SmallHost(STOCK), Answer(1);
    var w0 := World(f, NEW_TUNNEL);
    SmallHostFacts(STOCK);
    Reaches(1);
    NewTunnelSettled(f, CONFIG);
    ConnectResult(f, CONFIG, w0, c, None, NOTHING);
    PinsIff(f, CONFIG, c);
    assert ApplyAll(w0, CONFIG, []) == w0 && Allowed(w0, CONFIG, []);
    EncryptedPacketsAvoidTunnel(w0, CONFIG, [], c);
  }

  // The stock rules leave every packet for elsewhere alone.
  lemma SmallHostUndisturbed(dst: Addr, mark: int)
    ensures HostUndisturbed(SmallHost(STOCK), dst, mark)
  {
    TableMatch(dst, LOCAL_TABLE);
  }

  // After a connection without a path, the main table still has nothing for an
  // address that is neither on the host's network nor the gateway's.
  lemma StillNoRoute(routes: Routes, endpoint: Addr, gateway: Addr, link: nat, dst: Addr)
    requires routes == Overwritten(SmallHost(STOCK).routes, CONFIG, Some(endpoint), gateway, link, None, None)
    requires dst >= 2 && dst != gateway
    ensures !Specific(routes, MAIN_TABLE, dst)
  {
    LpmKey(routes, MAIN_TABLE, dst, 32);
    HostCovers(gateway, dst);
    assert BlockSize(31) == 2;
    assert Around(dst, 31).net == dst - dst % 2;
  }

  // The routing loop: connected to 8, to which there is no path, the endpoint's
  // own packets enter the tunnel.
  lemma TunnelledEndpoint()
    ensures var (w, ok) := Connect(World(SmallHost(STOCK), NEW_TUNNEL), CONFIG, Answer(8));
            && ok && WG_NAME in w.net.links
            && Lookup(w.net.rules, w.net.routes, 8, 0) == Some(Hop(None, w.net.links[WG_NAME]))
  {
    NoPathLoops(8);
  }

  lemma NoPathLoops(e: Addr)
    requires e >= 2 && e != 6
    ensures var (w, ok) := Connect(World(SmallHost(STOCK), NEW_TUNNEL), CONFIG, Answer(e));
            && ok && WG_NAME in w.net.links
            && Lookup(w.net.rules, w.net.routes, e, 0) == Some(Hop(None, w.net.links[WG_NAME]))
  {
    hide Connect, RouteGet, Lookup, NetnsOk, IsUp, LpmFrom, Specific, Intended, HostUndisturbed, Layered;
    var f, c := SmallHost(STOCK), Answer(e);
    var w0 := World(f, NEW_TUNNEL);
    var w := Connect(w0, CONFIG, c).0;
    SmallHostFacts(STOCK);
    Reaches(e);
    NewTunnelSettled(f, CONFIG);
    ConnectResult(f, CONFIG, w0, c, None, NOTHING);
    var on := ConnectingLeftover(f, CONFIG, w0, c, NOTHING);
    ConnectEstablishesIsUp(w0, CONFIG, c);
    SmallHostUndisturbed(e, 0);
    UpRoutesFrom(f, CONFIG, w, on, e, 0);
    StillNoRoute(w.net.routes, e, 6, w.net.links[WG_NAME], e);
    IntendedReadings(w.net.routes, CONFIG, e, 0, w.net.links[WG_NAME]);
  }

  // The same host with a route of its own to 1.
  function OwnRouteHost(): Netns {
    SmallHost(STOCK).(routes := SmallHost(STOCK).routes[HostKey(1) := Hop(None, 1)])
  }

  lemma OwnRouteHostFacts()
    ensures Untouched(OwnRouteHost(), CONFIG) && HostKey(1) in OwnRouteHost().routes
  {
    hide NetnsOk;
    SmallHostFacts(STOCK);
    HostWellFormed(1);
    assert LinkExists(SmallHost(STOCK), SmallHost(STOCK).links["eth0"]);
    ReplaceRouteOk(SmallHost(STOCK), HostKey(1), Hop(None, 1));
  }

  // Connected to 1 and cleaned up, it has lost it.
  lemma OwnRouteLost()
    ensures var f := OwnRouteHost();
            var w := Connect(World(f, NEW_TUNNEL), CONFIG, Answer(1)).0;
            Untouched(f, CONFIG) && HostKey(1) in f.routes && HostKey(1) !in Cleanup(w, CONFIG).net.routes
  {
    hide Cleanup, Connect, Untouched, OwnRouteHost;
    var w0 := World(OwnRouteHost(), NEW_TUNNEL);
    OwnRouteHostFacts();
    ConnectKeepsEndpoint(w0, CONFIG, Answer(1));
    CleanupShape(Connect(w0, CONFIG, Answer(1)).0, CONFIG);
  }

  // A server whose address is its own gateway's: the path captured as native is
  // the tunnel, the bypass default leads into it, and once a further connection
  // has recreated the link and failed, the gauge vouches for a route that is
  // gone.
  lemma OwnGateway()
    ensures var (w, ok) := Connect(World(SmallHost(STOCK), NEW_TUNNEL), CONFIG, Answer(6));
            var w' := Connect(w, CONFIG, Answer(6).(remote := None)).0;
            && ok && WG_NAME in w.net.links && w.tun.nativeLink == w.net.links[WG_NAME]
            && OnTunnel(w, BypassKey(CONFIG))
            && w'.tun.gauge && !BypassInstalled(w'.net, CONFIG)
  {
    hide Connect, Lookup, NetnsOk, LpmFrom, EnsureRules, InstallRoutes, BypassInstalled, Layered;
    var f, c := SmallHost(STOCK), Answer(6);
    var w0 := World(f, NEW_TUNNEL);
    var w1, w := Up(w0, c).0, Connect(w0, CONFIG, c).0;
    SmallHostFacts(STOCK);
    NewTunnelSettled(f, CONFIG);
    UpShape(f, w0, c);
    UpFresh(w0, c);
    ConnectSteps(w0, CONFIG, c);
    assert w1.net.rules == STOCK && w1.net.routes == f.routes by { UpKeepsRoutes(c); }
    GatewayPath(w1);
    EnsureRoutingRoutes(w1, CONFIG, 6, Some(Hop(None, 2)));
    EnsureRoutingShape(w1, CONFIG, 6);
    RoutedWorld(w1, CONFIG, 6);
    var on := ConnectingLeftover(f, CONFIG, w0, c, NOTHING);
    LayerMembers(f.rules, CONFIG, on);
    FirstOfMeans(w.net.rules, BypassKind(CONFIG));
    assert on == Everything(CONFIG) && BypassRule(CONFIG) in w.net.rules;
    assert BypassInstalled(w.net, CONFIG) by { InstalledBy(w.net); }
    NewTunnelGauge(f, CONFIG);
    GaugeAfterConnectIff(w0, CONFIG, c);
    UpGauge(w, CONFIG, c.(remote := None));
    ConnectSteps(w, CONFIG, c.(remote := None));
  }

  lemma InstalledBy(n: Netns)
    requires FirstOf(n.rules, BypassKind(CONFIG)).Some? && BypassKey(CONFIG) in n.routes
    ensures BypassInstalled(n, CONFIG)
  {
  }

  lemma UpKeepsRoutes(c: ServerConf)
    ensures var w1 := Up(World(SmallHost(STOCK), NEW_TUNNEL), c).0;
            w1.net.rules == STOCK && w1.net.routes == SmallHost(STOCK).routes
  {
  }

  lemma GatewayPath(w: World)
    requires w.net.rules == STOCK && w.net.routes == SmallHost(STOCK).routes
    requires w.tun.link == Some(2) && LinkExists(w.net, 2)
    ensures RouteGet(WithGateway(w, 6), 6) == Some(Hop(None, 2))
  {
    hide LpmFrom;
    var routes := WithGateway(w, 6).routes;
    LpmKey(routes, LOCAL_TABLE, 6, 32);
    LpmHost(routes, MAIN_TABLE, 6);
    assert Key(MAIN_TABLE, Host(6)) == HostKey(6) && HostKey(6) in routes && routes[HostKey(6)] == Hop(None, 2);
    assert Decision(STOCK[0], routes, 6, 0) == None;
    assert Decision(STOCK[1], routes, 6, 0) == Some(Hop(None, 2));
    assert STOCK[1..] == [STOCK[1]];
    assert Lookup([STOCK[1]], routes, 6, 0) == Some(Hop(None, 2));
  }
}
