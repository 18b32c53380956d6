// What a host gets from the agent at any moment of a run: where its packets go
// while the tunnel is up, and what the bypass gauge says.
module Service {
  import opened Common
  import opened Fib
  import opened Rules
  import opened Netspace
  import opened Routing
  import opened NoLoop
  import opened History
  import opened Independence

  // --- While the tunnel is up -----------------------------------------------

  // The rules of the host's owner leave this packet alone at the catch-all's
  // priority and before, and do not send it to the main table, whose host routes
  // are the agent's to change.
  ghost predicate HostUndisturbed(f: Netns, dst: Addr, mark: int) {
    forall r :: r in f.rules && r.priority <= DEFAULT_PRIO && (r.mark == 0 || r.mark == mark) ==>
      r.table != MAIN_TABLE && Decision(r, f.routes, dst, mark).None?
  }

  // Only a host with all of the agent's rules passes IsUp.
  lemma UpMeansEverything(f: Netns, cfg: BypassConfig, w: World, on: Installed)
    requires Untouched(f, cfg) && ConfigOk(cfg) && Leftover(f, cfg, w, on) && IsUp(w, cfg).1
    ensures on == Everything(cfg)
  {
    LayerMembers(f.rules, cfg, on);
    FirstOfMeans(w.net.rules, LocalKind);
  }

  // Outside the main table and the agent's own, nothing has changed.
  lemma OtherTableKept(f: Netns, cfg: BypassConfig, w: World, table: int, dst: Addr)
    requires LeftoverRoutes(f, cfg, w) && table != MAIN_TABLE && table != WG_TABLE && table != cfg.table
    ensures Lpm(w.net.routes, table, dst) == Lpm(f.routes, table, dst)
  {
    forall l | 0 <= l <= 32 ensures SameAt(w.net.routes, f.routes, Key(table, Around(dst, l))) {
      assert SameAt(f.routes, w.net.routes, Key(table, Around(dst, l)));
    }
    LpmSame(w.net.routes, f.routes, table, dst);
  }

  lemma StillUndisturbed(f: Netns, cfg: BypassConfig, w: World, on: Installed, dst: Addr, mark: int)
    requires Untouched(f, cfg) && ConfigOk(cfg) && Leftover(f, cfg, w, on) && HostUndisturbed(f, dst, mark)
    requires on.bypass ==> cfg.Enabled()
    ensures Undisturbed(w.net, cfg, dst, mark)
  {
    LayerMembers(f.rules, cfg, on);
    forall r | r in w.net.rules && r.priority <= DEFAULT_PRIO && !Own(r, cfg)
      ensures Decision(r, w.net.routes, dst, mark).None?
    {
      assert r in f.rules;
      if r.mark == 0 || r.mark == mark {
        OtherTableKept(f, cfg, w, r.table, dst);
      }
    }
  }

  // The tunnel's own table holds its default at most.
  lemma OnlyDefaultInTunnelTable(f: Netns, cfg: BypassConfig, w: World, dst: Addr)
    requires Untouched(f, cfg) && ConfigOk(cfg) && LeftoverRoutes(f, cfg, w)
    ensures !Specific(w.net.routes, WG_TABLE, dst)
  {
    LpmKey(w.net.routes, WG_TABLE, dst, 32);
    var m := Lpm(w.net.routes, WG_TABLE, dst);
    assert m.Some? && m.value.len > 0 ==> SameAt(f.routes, w.net.routes, Key(WG_TABLE, Around(dst, m.value.len)));
  }

  lemma UpRoutesFrom(f: Netns, cfg: BypassConfig, w: World, on: Installed, dst: Addr, mark: int)
    requires Untouched(f, cfg) && ConfigOk(cfg) && Leftover(f, cfg, w, on) && IsUp(w, cfg).1
    requires HostUndisturbed(f, dst, mark)
    ensures Lookup(w.net.rules, w.net.routes, dst, mark) == Intended(w.net.routes, cfg, dst, mark)
    ensures DEFAULT_KEY in w.net.routes && w.net.routes[DEFAULT_KEY].link == w.net.links[WG_NAME]
  {
    hide Decision, Lookup, LpmFrom, Intended, Undisturbed, HostUndisturbed;
    UpMeansEverything(f, cfg, w, on);
    LayerMembers(f.rules, cfg, on);
    StillUndisturbed(f, cfg, w, on, dst, mark);
    OnlyDefaultInTunnelTable(f, cfg, w, dst);
    LookupAsIntended(w.net, cfg, dst, mark);
  }

  // At any moment of any run of the agent's operations, to any servers, at which
  // the tunnel is up: every packet the host's own rules leave alone goes where
  // it is meant to, and the catch-all is the tunnel.
  lemma UpRoutesAsIntended(f: Netns, cfg: BypassConfig, ops: seq<Op>, dst: Addr, mark: int)
    requires Untouched(f, cfg) && ConfigOk(cfg) && OwnOps(ops) && HostUndisturbed(f, dst, mark)
    requires IsUp(ApplyAll(World(f, NEW_TUNNEL), cfg, ops), cfg).1
    ensures var n := ApplyAll(World(f, NEW_TUNNEL), cfg, ops).net;
            && Lookup(n.rules, n.routes, dst, mark) == Intended(n.routes, cfg, dst, mark)
            && DEFAULT_KEY in n.routes && n.routes[DEFAULT_KEY].link == n.links[WG_NAME]
  {
    hide IsUp, Intended, Lookup;
    var on := RunLeftover(f, cfg, ops);
    UpRoutesFrom(f, cfg, ApplyAll(World(f, NEW_TUNNEL), cfg, ops), on, dst, mark);
  }

  // A rule behind one that decides makes no difference.
  lemma {:induction false} LaterRule(rules: seq<Rule>, r: Rule, d: Rule, routes: Routes, dst: Addr, mark: int)
    requires Sorted(rules) && d in rules && d.priority <= r.priority && Decision(d, routes, dst, mark).Some?
    ensures Lookup(Insert(rules, r), routes, dst, mark) == Lookup(rules, routes, dst, mark)
  {
    var i :| 0 <= i < |rules| && rules[i] == d;
    assert rules[0].priority <= d.priority;
    assert Insert(rules, r)[1..] == Insert(rules[1..], r);
    if Decision(rules[0], routes, dst, mark).None? {
      assert rules[1..][i - 1] == d;
      LaterRule(rules[1..], r, d, routes, dst, mark);
    }
  }

  // The pinned endpoint, on the host with all of the agent's rules.
  lemma PinnedPathKept(f: Netns, cfg: BypassConfig, w: World, e: Addr)
    requires Untouched(f, cfg) && ConfigOk(cfg) && Leftover(f, cfg, w, Everything(cfg))
    requires RouteGet(f, e).Some? && PinSettled(f, w, e)
    ensures Lookup(w.net.rules, w.net.routes, e, 0) == RouteGet(f, e)
  {
    hide LpmFrom;
    var routes, h := w.net.routes, RouteGet(f, e).value;
    var r1 := Insert(f.rules, LOCAL_RULE);
    var r2 := Insert(r1, DEFAULT_RULE);
    var r3 := Insert(r2, DISCOVERY_RULE);
    forall r | r in f.rules && r.table != MAIN_TABLE ensures Lpm(f.routes, r.table, e) == Lpm(routes, r.table, e) {
      OtherTableKept(f, cfg, w, r.table, e);
    }
    PinnedLookup(f.rules, f.routes, routes, e, h);
    LpmHost(routes, MAIN_TABLE, e);
    AgreeingRule(f.rules, LOCAL_RULE, routes, e, h);
    InsertAdds(f.rules, LOCAL_RULE);
    LaterRule(r1, DEFAULT_RULE, LOCAL_RULE, routes, e, 0);
    SilentRule(r2, DISCOVERY_RULE, routes, e, 0);
    if cfg.Enabled() {
      SilentRule(r3, BypassRule(cfg), routes, e, 0);
    }
  }

  // At any moment of a run with cleanups in between at which the tunnel is up:
  // its own packets take the very path the untouched host would give them, if it
  // has one - and so not the tunnel.
  lemma EndpointKeepsItsPath(f: Netns, cfg: BypassConfig, ops: seq<Op>, e: Addr)
    requires Untouched(f, cfg) && ConfigOk(cfg) && OwnOps(ops) && Servers(f, ops) && CleanBetween(ops)
    requires LastEndpoint(ops) == Some(Some(e)) && RouteGet(f, e).Some?
    requires IsUp(ApplyAll(World(f, NEW_TUNNEL), cfg, ops), cfg).1
    ensures var n := ApplyAll(World(f, NEW_TUNNEL), cfg, ops).net;
            && Lookup(n.rules, n.routes, e, 0) == RouteGet(f, e)
            && WG_NAME in n.links && RouteGet(f, e).value.link != n.links[WG_NAME]
  {
    hide RouteGet, Lookup, PinSettled, NetnsOk, Layered;
    var w := ApplyAll(World(f, NEW_TUNNEL), cfg, ops);
    var on := RunSettled(f, cfg, ops);
    UpMeansEverything(f, cfg, w, on);
    PinnedPathKept(f, cfg, w, e);
    UntouchedOk(f, cfg);
    PathBeforeLink(f, e);
  }

  lemma UntouchedOk(f: Netns, cfg: BypassConfig)
    requires Untouched(f, cfg)
    ensures NetnsOk(f)
  {
  }

  // --- The gauge ------------------------------------------------------------

  // It says whether the bypass is installed, and the bypass does not depend on
  // the tunnel's link.
  ghost predicate GaugeSound(w: World, cfg: BypassConfig) {
    w.tun.gauge == BypassInstalled(w.net, cfg) && !OnTunnel(w, BypassKey(cfg))
  }

  lemma NewTunnelGauge(f: Netns, cfg: BypassConfig)
    requires Untouched(f, cfg)
    ensures GaugeSound(World(f, NEW_TUNNEL), cfg)
  {
  }

  lemma UpGauge(w: World, cfg: BypassConfig, c: ServerConf)
    requires Consistent(w)
    ensures var w1 := Up(w, c).0;
            && w1.tun.gauge == w.tun.gauge && !OnTunnel(w1, BypassKey(cfg))
            && (BypassInstalled(w1.net, cfg) <==> BypassInstalled(w.net, cfg) && !OnTunnel(w, BypassKey(cfg)))
  {
    FlushShape(w);
    assert !OnTunnel(NewWgLink(w), BypassKey(cfg));
  }

  lemma RoutedGauge(w: World, cfg: BypassConfig, gateway: Option<Addr>)
    requires w.tun.link.Some? && EnsureRouting(w, cfg, gateway).1
    ensures var w' := EnsureRouting(w, cfg, gateway).0;
            w'.tun.gauge == BypassInstalled(w'.net, cfg) && w'.net.links == w.net.links
  {
    hide FirstOf, Insert, Lookup, EnsureThree;
    var w2 := InstallRoutes(w, gateway.value);
    InstallsDefault(w, gateway.value);
    var w3 := w2.(net := EnsureThree(w2.net));
    assert EnsureRules(w2, cfg) == EnsureBypass(w3, cfg) by { ThreeThenBypass(w2, cfg); }
    BypassTouches(w3, cfg);
    ThreeKeepsLinks(w2.net);
  }

  lemma ThreeThenBypass(w: World, cfg: BypassConfig)
    ensures EnsureRules(w, cfg) == EnsureBypass(w.(net := EnsureThree(w.net)), cfg)
  {
  }

  lemma ThreeKeepsLinks(n: Netns)
    ensures EnsureThree(n).links == n.links
  {
  }

  // One connection, from any state in which the gauge is right: it is right
  // afterwards unless the connection stops short of its routes after flushing,
  // with the old link, the very route the gauge stands for.
  lemma GaugeAfterConnectIff(w: World, cfg: BypassConfig, c: ServerConf)
    requires Consistent(w) && w.tun.gauge == BypassInstalled(w.net, cfg)
    ensures var w' := Connect(w, cfg, c).0;
            (w'.tun.gauge == BypassInstalled(w'.net, cfg)) <==>
              GetsRouted(w, cfg, c) || !w.tun.gauge || !OnTunnel(w, BypassKey(cfg))
  {
    hide EnsureRouting, BypassInstalled, Up, Connect, NetnsOk;
    var w1 := Up(w, c).0;
    UpGauge(w, cfg, c);
    UpFresh(w, c);
    ConnectSteps(w, cfg, c);
    if GetsRouted(w, cfg, c) {
      GatewayGiven(w1, cfg, c);
      RoutedGauge(w1, cfg, c.gateway);
      var w2 := EnsureRouting(w1, cfg, c.gateway).0;
      NatKeepsBypass(w2.net, EnsureMasquerade(w2.net), cfg);
    }
  }

  lemma NatKeepsBypass(n: Netns, n': Netns, cfg: BypassConfig)
    requires n'.rules == n.rules && n'.routes == n.routes
    ensures BypassInstalled(n', cfg) == BypassInstalled(n, cfg)
  {
  }

  lemma ConnectGauge(w: World, cfg: BypassConfig, c: ServerConf)
    requires Consistent(w) && ConfigOk(cfg) && GaugeSound(w, cfg) && Distinct(c)
    ensures GaugeSound(Connect(w, cfg, c).0, cfg)
  {
    hide EnsureRouting, BypassInstalled, Up, Connect, NetnsOk;
    var w1 := Up(w, c).0;
    GaugeAfterConnectIff(w, cfg, c);
    UpGauge(w, cfg, c);
    UpFresh(w, c);
    ConnectSteps(w, cfg, c);
    if GetsRouted(w, cfg, c) {
      GatewayGiven(w1, cfg, c);
      UpEndpoint(w, c);
      InstallRoutesConfined(w1, c.gateway.value);
      InstallsDefault(w1, c.gateway.value);
      EnsureRulesConfined(InstallRoutes(w1, c.gateway.value), cfg, w.net.nextIndex, c.gateway.value);
      RoutedGauge(w1, cfg, c.gateway);
      RoutedWorld(w1, cfg, c.gateway.value);
    }
  }

  lemma UpEndpoint(w: World, c: ServerConf)
    ensures Up(w, c).1 ==> c.remote.Some? && Up(w, c).0.tun.endpoint == c.remote.value
  {
  }

  lemma RoutedWorld(w: World, cfg: BypassConfig, gateway: Addr)
    requires w.tun.link.Some? && EnsureRouting(w, cfg, Some(gateway)).1
    ensures EnsureRouting(w, cfg, Some(gateway)).0 == EnsureRules(InstallRoutes(w, gateway), cfg)
  {
  }

  lemma CleanupGauge(w: World, cfg: BypassConfig)
    requires ConfigOk(cfg)
    ensures GaugeSound(Cleanup(w, cfg), cfg)
  {
    CleanupShape(w, cfg);
  }

  lemma CheckingGauge(w: World, cfg: BypassConfig)
    requires GaugeSound(w, cfg)
    ensures GaugeSound(IsUp(w, cfg).0, cfg)
  {
  }

  lemma DiscoveryGauge(w: World, cfg: BypassConfig)
    requires GaugeSound(w, cfg)
    ensures GaugeSound(w.(net := EnsureDiscovery(w.net)), cfg)
  {
    OtherKindUntouched(w.net.rules, DISCOVERY_RULE, BypassKind(cfg));
  }

  // In every state of every run of the agent's operations, to servers that can
  // be told from their gateways: the gauge says whether the bypass is installed.
  lemma {:induction false} GaugeInAnyRun(w: World, cfg: BypassConfig, ops: seq<Op>)
    requires Consistent(w) && ConfigOk(cfg) && GaugeSound(w, cfg) && OwnOps(ops)
    requires forall i :: 0 <= i < |ops| && ops[i].Connecting? ==> Distinct(ops[i].c)
    ensures GaugeSound(ApplyAll(w, cfg, ops), cfg)
  {
    if ops != [] {
      hide GaugeSound, Cleanup, Connect, IsUp, EnsureDiscovery, Consistent;
      var front, op := ops[..|ops| - 1], ops[|ops| - 1];
      GaugeInAnyRun(w, cfg, front);
      OwnIsAllowed(w, cfg, front);
      RunConsistent(w, cfg, front);
      var p := ApplyAll(w, cfg, front);
      match op
      case Connecting(c) => ConnectGauge(p, cfg, c);
      case Cleaning => CleanupGauge(p, cfg);
      case Checking => CheckingGauge(p, cfg);
      case Discovering => DiscoveryGauge(p, cfg);
    }
  }
}
