// Exactly when what a connection makes of a host does not depend on what the
// agent did before it.
module Independence {
  import opened Common
  import opened Fib
  import opened Rules
  import opened Netspace
  import opened Routing
  import opened NoLoop
  import opened History

  // --- The path to the endpoint --------------------------------------------

  // An address pinned to the hop a lookup gave keeps that hop, whatever rules
  // consult the pin.
  lemma {:induction false} PinnedLookup(rules: seq<Rule>, before: Routes, after: Routes, e: Addr, h: Hop)
    requires Lookup(rules, before, e, 0) == Some(h)
    requires HostKey(e) in after && after[HostKey(e)] == h
    requires forall r :: r in rules && r.table != MAIN_TABLE ==> Lpm(before, r.table, e) == Lpm(after, r.table, e)
    ensures Lookup(rules, after, e, 0) == Some(h)
  {
    LpmHost(after, MAIN_TABLE, e);
    LpmKey(before, MAIN_TABLE, e, 32);
    assert rules == [rules[0]] + rules[1..];
    if Decision(rules[0], before, e, 0).None? {
      PinnedLookup(rules[1..], before, after, e, h);
    }
  }

  // A rule that decides alike may be added anywhere.
  lemma {:induction false} AgreeingRule(rules: seq<Rule>, r: Rule, routes: Routes, e: Addr, h: Hop)
    requires Lookup(rules, routes, e, 0) == Some(h) && Decision(r, routes, e, 0) == Some(h)
    ensures Lookup(Insert(rules, r), routes, e, 0) == Some(h)
  {
    if rules[0].priority <= r.priority {
      assert Insert(rules, r)[1..] == Insert(rules[1..], r);
      if Decision(rules[0], routes, e, 0).None? {
        AgreeingRule(rules[1..], r, routes, e, h);
      }
    }
  }

  lemma {:induction false} LookupFrame(rules: seq<Rule>, r1: Routes, r2: Routes, e: Addr)
    requires forall r :: r in rules ==> Lpm(r1, r.table, e) == Lpm(r2, r.table, e)
    ensures Lookup(rules, r1, e, 0) == Lookup(rules, r2, e, 0)
  {
    if rules != [] {
      assert rules == [rules[0]] + rules[1..];
      LookupFrame(rules[1..], r1, r2, e);
    }
  }

  lemma LpmSame(r1: Routes, r2: Routes, table: int, e: Addr)
    requires forall l :: 0 <= l <= 32 ==> SameAt(r1, r2, Key(table, Around(e, l)))
    ensures Lpm(r1, table, e) == Lpm(r2, table, e)
  {
    forall l | 0 <= l <= 32
      ensures var k := Key(table, Around(e, l)); (k in r1 <==> k in r2) && (k in r1 ==> r1[k] == r2[k])
    {
      assert SameAt(r1, r2, Key(table, Around(e, l)));
    }
    LpmFrame(r1, r2, table, e, 32);
  }

  // The host with the agent's rule that consults the main table first.
  function WithLocal(f: Netns): Netns {
    f.(rules := Insert(f.rules, LOCAL_RULE))
  }

  // The path a connection finds to its endpoint: the host's own, or, with the
  // agent's rules still in place, one that only the main table has.
  function Path(f: Netns, endpoint: Option<Addr>, routed: bool): Option<Hop> {
    if endpoint.None? then None
    else if RouteGet(f, endpoint.value).Some? || !routed then RouteGet(f, endpoint.value)
    else RouteGet(WithLocal(f), endpoint.value)
  }

  // Routes as they are when the path is looked up: the host's, the gateway's,
  // maybe the bypass default and the pinned endpoint.
  ghost predicate AtPinning(
    f: Netns, cfg: BypassConfig, routes: Routes, e: Addr, gateway: Addr, pin: Option<Hop>)
  {
    && (forall k :: k in f.routes ==> SameAt(f.routes, routes, k))
    && (forall k :: k in routes && k !in f.routes ==>
        k == HostKey(gateway) || k == BypassKey(cfg) || (pin.Some? && k == HostKey(e)))
    && (pin.Some? ==> HostKey(e) in routes && routes[HostKey(e)] == pin.value)
  }

  lemma TableAtPinning(
    f: Netns, cfg: BypassConfig, routes: Routes, e: Addr, gateway: Addr, pin: Option<Hop>, table: int)
    requires AtPinning(f, cfg, routes, e, gateway, pin) && ConfigOk(cfg)
    requires HostKey(gateway) !in f.routes && e != gateway
    requires table != cfg.table && (pin.Some? ==> table != MAIN_TABLE)
    ensures Lpm(f.routes, table, e) == Lpm(routes, table, e)
  {
    forall l | 0 <= l <= 32 ensures SameAt(f.routes, routes, Key(table, Around(e, l))) {
      HostCovers(e, e);
      var k := Key(table, Around(e, l));
      if k in f.routes {
        assert SameAt(f.routes, routes, k);
      }
    }
    LpmSame(f.routes, routes, table, e);
  }

  // Whatever the agent left, the path is that of Path.
  lemma PathFound(f: Netns, cfg: BypassConfig, n: Netns, e: Addr, gateway: Addr, on: Installed, pin: Option<Hop>)
    requires Untouched(f, cfg) && ConfigOk(cfg)
    requires HostKey(gateway) !in f.routes && e != gateway
    requires n.rules == Layered(f.rules, cfg, on)
    requires on == NOTHING.(discovery := on.discovery) || on == Everything(cfg)
    requires AtPinning(f, cfg, n.routes, e, gateway, pin)
    requires pin.Some? ==> on.default && pin == Path(f, Some(e), true)
    requires on.default && RouteGet(f, e).Some? ==> pin.Some?
    ensures RouteGet(n, e) == Path(f, Some(e), on.default)
  {
    forall r | r in f.rules && (pin.Some? ==> r.table != MAIN_TABLE)
      ensures Lpm(f.routes, r.table, e) == Lpm(n.routes, r.table, e)
    {
      TableAtPinning(f, cfg, n.routes, e, gateway, pin, r.table);
    }
    if on == Everything(cfg) {
      if pin.None? {
        TableAtPinning(f, cfg, n.routes, e, gateway, pin, MAIN_TABLE);
      }
      LocalPathFound(f, n.routes, e, pin);
      OtherLayersSilent(f, cfg, n, e, gateway, pin);
    } else {
      LookupFrame(f.rules, f.routes, n.routes, e);
      SilentRule(f.rules, DISCOVERY_RULE, n.routes, e, 0);
    }
  }

  lemma LocalPathFound(f: Netns, routes: Routes, e: Addr, pin: Option<Hop>)
    requires pin.Some? ==> HostKey(e) in routes && routes[HostKey(e)] == pin.value && pin == Path(f, Some(e), true)
    requires RouteGet(f, e).Some? ==> pin.Some?
    requires forall r :: r in f.rules && (pin.Some? ==> r.table != MAIN_TABLE) ==>
               Lpm(f.routes, r.table, e) == Lpm(routes, r.table, e)
    requires pin.None? ==> Lpm(f.routes, MAIN_TABLE, e) == Lpm(routes, MAIN_TABLE, e)
    ensures RouteGet(WithLocal(f).(routes := routes), e) == Path(f, Some(e), true)
  {
    var rules := Insert(f.rules, LOCAL_RULE);
    InsertAdds(f.rules, LOCAL_RULE);
    LpmHost(routes, MAIN_TABLE, e);
    if RouteGet(f, e).Some? {
      PinnedLookup(f.rules, f.routes, routes, e, pin.value);
      AgreeingRule(f.rules, LOCAL_RULE, routes, e, pin.value);
    } else if pin.Some? {
      PinnedLookup(rules, f.routes, routes, e, pin.value);
    } else {
      LookupFrame(rules, f.routes, routes, e);
    }
  }

  lemma OtherLayersSilent(f: Netns, cfg: BypassConfig, n: Netns, e: Addr, gateway: Addr, pin: Option<Hop>)
    requires Untouched(f, cfg) && ConfigOk(cfg) && HostKey(gateway) !in f.routes && e != gateway
    requires AtPinning(f, cfg, n.routes, e, gateway, pin) && n.rules == Layered(f.rules, cfg, Everything(cfg))
    ensures RouteGet(n, e) == RouteGet(WithLocal(f).(routes := n.routes), e)
  {
    var r1 := Insert(f.rules, LOCAL_RULE);
    var r2 := Insert(r1, DEFAULT_RULE);
    var r3 := Insert(r2, DISCOVERY_RULE);
    TableAtPinning(f, cfg, n.routes, e, gateway, pin, WG_TABLE);
    LpmKey(f.routes, WG_TABLE, e, 32);
    SilentRule(r1, DEFAULT_RULE, n.routes, e, 0);
    SilentRule(r2, DISCOVERY_RULE, n.routes, e, 0);
    if cfg.Enabled() {
      SilentRule(r3, BypassRule(cfg), n.routes, e, 0);
    }
  }

  // --- What a connection writes ---------------------------------------------

  function Usable(n: Netns, native: Option<Hop>): Option<Hop> {
    if native.Some? && LinkExists(n, native.value.link) then native else None
  }

  // The main table's default, as far as it has a device.
  function Fallback(f: Netns): Option<Hop> {
    var key := Key(MAIN_TABLE, ANY);
    if key in f.routes && f.routes[key].link != 0 then Some(f.routes[key]) else None
  }

  // The native path as a tunnel knows it: captured, or the fallback.
  function Known(f: Netns, t: Tun): Option<Hop> {
    if t.nativeLink != 0 then Usable(f, Some(Hop(t.nativeGw, t.nativeLink))) else Fallback(f)
  }

  function Overwritten(
    routes: Routes, cfg: BypassConfig, endpoint: Option<Addr>, gateway: Addr, link: nat,
    path: Option<Hop>, native: Option<Hop>): Routes
    requires path.Some? ==> endpoint.Some?
  {
    var onLink := Hop(None, link);
    var r1 := routes[HostKey(gateway) := onLink];
    var r2 := if path.Some? then r1[HostKey(endpoint.value) := path.value] else r1;
    var r3 := r2[DEFAULT_KEY := onLink];
    if cfg.Enabled() && native.Some? then r3[BypassKey(cfg) := native.value] else r3
  }

  lemma EnsureRoutingRoutes(w: World, cfg: BypassConfig, gateway: Addr, path: Option<Hop>)
    requires NetnsOk(w.net) && ConfigOk(cfg) && w.tun.link.Some? && LinkExists(w.net, w.tun.link.value)
    requires path == if w.tun.endpoint.None? then None else RouteGet(WithGateway(w, gateway), w.tun.endpoint.value)
    requires path.Some? ==> LinkExists(w.net, path.value.link)
    ensures var w' := EnsureRules(InstallRoutes(w, gateway), cfg);
            && w'.net.routes == Overwritten(w.net.routes, cfg, w.tun.endpoint, gateway, w.tun.link.value, path,
                                            if path.Some? then path else Usable(w.net, NativeDefault(w)))
            && w'.tun == (if path.Some?
                          then w.tun.(nativeGw := path.value.gw, nativeLink := path.value.link, gauge := w'.tun.gauge)
                          else w.tun.(gauge := w'.tun.gauge))
  {
    hide Lookup, FirstOf, Insert;
    var w1 := w.(net := WithGateway(w, gateway));
    var w2 := InstallRoutes(w, gateway);
    var w3 := w2.(net := EnsureThree(w2.net));
    assert EnsureRules(w2, cfg) == EnsureBypass(w3, cfg);
    assert path.None? ==> PinEndpoint(w1) == w1;
    assert NativeDefault(w3) == if path.Some? then path else NativeDefault(w);
  }

  // --- A run that cleans up in between --------------------------------------

  // A connection whose server can be told from its own gateway.
  predicate Distinct(c: ServerConf) {
    c.gateway.Some? ==> c.remote != Some(c.gateway)
  }

  ghost predicate Servers(f: Netns, ops: seq<Op>) {
    NoOwnRoutes(f, ops) && forall i :: 0 <= i < |ops| && ops[i].Connecting? ==> Distinct(ops[i].c)
  }

  // What such a run leaves: the host's routes, routes on the agent's link, the
  // bypass default by the known native path, and, while the agent's rules are in
  // place, the endpoint pinned to the path found.
  ghost predicate Settled(f: Netns, cfg: BypassConfig, w: World, last: Option<Option<Addr>>, on: Installed) {
    && Leftover(f, cfg, w, on)
    && (last.Some? ==> w.tun.endpoint == last.value) && (on.default ==> last.Some?)
    && SettledRoutes(f, cfg, w, on.default)
  }

  ghost predicate SettledRoutes(f: Netns, cfg: BypassConfig, w: World, routed: bool) {
    && (forall k :: k in f.routes ==> SameAt(f.routes, w.net.routes, k))
    && (forall k :: k in w.net.routes && k !in f.routes ==>
        OnTunnel(w, k) || k == BypassKey(cfg) || (routed && w.tun.endpoint.Some? && k == HostKey(w.tun.endpoint.value)))
    && (BypassKey(cfg) in w.net.routes ==>
        cfg.Enabled() && (OnTunnel(w, BypassKey(cfg)) || Known(f, w.tun) == Some(w.net.routes[BypassKey(cfg)])))
    && (routed && w.tun.endpoint.Some? ==> PinSettled(f, w, w.tun.endpoint.value))
  }

  ghost predicate PinSettled(f: Netns, w: World, e: Addr) {
    && HostKey(e) !in f.routes
    && (RouteGet(f, e).Some? ==> HostKey(e) in w.net.routes && w.net.routes[HostKey(e)] == RouteGet(f, e).value)
    && (HostKey(e) in w.net.routes && !OnTunnel(w, HostKey(e)) ==>
        Some(w.net.routes[HostKey(e)]) == Path(f, Some(e), true))
  }

  lemma NewTunnelSettled(f: Netns, cfg: BypassConfig)
    requires Untouched(f, cfg)
    ensures Settled(f, cfg, World(f, NEW_TUNNEL), None, NOTHING)
  {
    NewTunnelLeftover(f, cfg);
  }

  lemma KnownByCapture(f: Netns, t: Tun, t': Tun)
    requires t.nativeGw == t'.nativeGw && t.nativeLink == t'.nativeLink
    ensures Known(f, t) == Known(f, t')
  {
  }

  lemma FlushSettled(f: Netns, cfg: BypassConfig, w: World, routed: bool)
    requires NetnsOk(f) && Consistent(w) && LeftoverLink(f, w.net) && SettledRoutes(f, cfg, w, routed)
    ensures SettledRoutes(f, cfg, NewWgLink(w), routed)
  {
    hide Known, Path, RouteGet, PinSettled;
    var w1 := NewWgLink(w);
    FlushShape(w);
    KnownByCapture(f, w.tun, w1.tun);
    forall k | k in f.routes ensures SameAt(f.routes, w1.net.routes, k) {
      assert SameAt(f.routes, w.net.routes, k);
      assert f.routes[k].link == 0 || LinkExists(f, f.routes[k].link);
    }
    if routed && w.tun.endpoint.Some? {
      PinSurvives(f, w, w.tun.endpoint.value);
    }
  }

  // SettledRoutes looks at no more than this.
  lemma SettledRoutesFrame(f: Netns, cfg: BypassConfig, w: World, w': World, routed: bool)
    requires SettledRoutes(f, cfg, w, routed)
    requires w'.net.routes == w.net.routes && w'.net.links == w.net.links
    requires w'.tun.nativeGw == w.tun.nativeGw && w'.tun.nativeLink == w.tun.nativeLink
    requires routed ==> w'.tun.endpoint == w.tun.endpoint
    ensures SettledRoutes(f, cfg, w', routed)
  {
    hide Known, Path, RouteGet;
    KnownByCapture(f, w.tun, w'.tun);
    assert forall k :: OnTunnel(w', k) <==> OnTunnel(w, k);
  }

  lemma UpSettled(f: Netns, cfg: BypassConfig, w: World, c: ServerConf, last: Option<Option<Addr>>, on: Installed)
    requires Untouched(f, cfg) && Settled(f, cfg, w, last, on) && SameEndpoint(c, last)
    ensures Settled(f, cfg, Up(w, c).0, AfterUp(c, last), on)
    ensures forall k :: !OnTunnel(Up(w, c).0, k)
  {
    hide SettledRoutes, Layered, Up, NewWgLink, NetnsOk;
    var w1 := Up(w, c).0;
    UpLeftover(f, cfg, w, c, on);
    UpShape(f, w, c);
    LinkAfterFlush(f, w);
    FlushShape(w);
    FlushSettled(f, cfg, w, on.default);
    NewWgLinkFresh(w);
    SettledRoutesFrame(f, cfg, NewWgLink(w), w1, on.default);
    forall k ensures !OnTunnel(w1, k) {
      assert !OnTunnel(NewWgLink(w), k);
    }
  }

  lemma PinSurvives(f: Netns, w: World, e: Addr)
    requires NetnsOk(f) && Consistent(w) && LeftoverLink(f, w.net) && PinSettled(f, w, e)
    ensures PinSettled(f, NewWgLink(w), e)
  {
    FlushShape(w);
    if RouteGet(f, e).Some? {
      RouteGetExists(f, e);
    }
  }

  // The native path, found on the host with the agent's new link.
  lemma NativeIsKnown(f: Netns, cfg: BypassConfig, w: World, on: Installed)
    requires Untouched(f, cfg) && ConfigOk(cfg) && Leftover(f, cfg, w, on)
    requires WG_NAME in w.net.links && w.tun.link == Some(w.net.links[WG_NAME])
    requires w.net.links == f.links[WG_NAME := w.net.links[WG_NAME]] && w.tun.nativeLink != w.net.links[WG_NAME]
    ensures Usable(w.net, NativeDefault(w)) == Known(f, w.tun)
  {
    var key, link := Key(MAIN_TABLE, ANY), w.net.links[WG_NAME];
    assert SameAt(f.routes, w.net.routes, key);
    forall i: nat | i != link ensures LinkExists(f, i) <==> LinkExists(w.net, i) {
      if LinkExists(f, i) {
        var name :| name in f.links && f.links[name] == i;
        assert w.net.links[name] == i;
      }
      if LinkExists(w.net, i) {
        var name :| name in w.net.links && w.net.links[name] == i;
        assert f.links[name] == i;
      }
    }
    assert key in f.routes ==> f.routes[key].link == 0 || LinkExists(f, f.routes[key].link);
  }

  // The settled routes differ from the host's only where the connection writes.
  lemma OverwrittenAlike(
    f: Netns, cfg: BypassConfig, w: World, on: Installed, gateway: Addr, link: nat,
    path: Option<Hop>, native: Option<Hop>)
    requires SettledRoutes(f, cfg, w, on.default) && forall k :: !OnTunnel(w, k)
    requires path == Path(f, w.tun.endpoint, on.default)
    requires native == if path.Some? then path else Known(f, w.tun)
    ensures path.Some? ==> w.tun.endpoint.Some?
    ensures Overwritten(w.net.routes, cfg, w.tun.endpoint, gateway, link, path, native)
         == Overwritten(f.routes, cfg, w.tun.endpoint, gateway, link, path, native)
  {
    hide RouteGet, Known;
    var r1 := Overwritten(w.net.routes, cfg, w.tun.endpoint, gateway, link, path, native);
    var r2 := Overwritten(f.routes, cfg, w.tun.endpoint, gateway, link, path, native);
    forall k ensures SameAt(r1, r2, k) {
      assert k in f.routes ==> SameAt(f.routes, w.net.routes, k);
    }
    assert r1 == r2 by {
      assert forall k :: k in r1 ==> SameAt(r1, r2, k);
      assert forall k :: k in r2 ==> SameAt(r1, r2, k);
    }
  }

  // Everything the connection needs came back from the server, and the host has
  // no route of its own to the gateway.
  predicate Complete(f: Netns, c: ServerConf) {
    RoutingComplete(f, c) && c.natOk
  }

  predicate RoutingComplete(f: Netns, c: ServerConf) {
    c.remote.Some? && c.keyOk && c.deviceOk && c.peer.Some? && c.gateway.Some? && HostKey(c.gateway.value) !in f.routes
  }

  // What a connection makes of a host, given the link index, the path found to
  // the endpoint and the native path.
  function ConnectedNet(
    f: Netns, cfg: BypassConfig, c: ServerConf, link: nat, path: Option<Hop>, native: Option<Hop>): Netns
    requires RoutingComplete(f, c) && (path.Some? ==> c.remote.value.Some?)
  {
    Netns(Layered(f.rules, cfg, Everything(cfg)),
          Overwritten(f.routes, cfg, c.remote.value, c.gateway.value, link, path, native),
          f.links[WG_NAME := link], link + 1, f.addrs + {(link, c.peer.value)}, [WG_MASQUERADE] + f.postrouting)
  }

  function NativeOr(path: Option<Hop>, native: Option<Hop>): Option<Hop> {
    if path.Some? then path else native
  }

  // From the recreated link on.
  lemma RoutedFrom(f: Netns, cfg: BypassConfig, w: World, c: ServerConf, on: Installed)
    requires Untouched(f, cfg) && ConfigOk(cfg) && RoutingComplete(f, c) && Distinct(c)
    requires Settled(f, cfg, w, Some(c.remote.value), on) && forall k :: !OnTunnel(w, k)
    requires WG_NAME in w.net.links && w.tun.link == Some(w.net.links[WG_NAME])
    requires w.tun.nativeLink != w.net.links[WG_NAME]
    requires w.net.links == f.links[WG_NAME := w.net.links[WG_NAME]]
    ensures var (w', ok) := EnsureRouting(w, cfg, c.gateway);
            var path := Path(f, c.remote.value, on.default);
            && ok && (path.Some? ==> c.remote.value.Some?)
            && w'.net == w.net.(rules := Layered(f.rules, cfg, Everything(cfg)),
                                routes := Overwritten(f.routes, cfg, c.remote.value, c.gateway.value, w.tun.link.value,
                                                      path, NativeOr(path, Known(f, w.tun))))
            && w'.tun == (if path.Some?
                          then w.tun.(nativeGw := path.value.gw, nativeLink := path.value.link, gauge := w'.tun.gauge)
                          else w.tun.(gauge := w'.tun.gauge))
  {
    hide RouteGet, EnsureRules, InstallRoutes, Known, Usable, Overwritten, NetnsOk, Layered;
    var gateway, link := c.gateway.value, w.tun.link.value;
    assert LinkExists(w.net, link);
    NoCollision(f, cfg, w, c, on);
    var path := if w.tun.endpoint.None? then None else RouteGet(WithGateway(w, gateway), w.tun.endpoint.value);
    PathAfterLeftover(f, cfg, w, c, on);
    if path.Some? {
      PathLinkExists(f, w, w.tun.endpoint.value, on.default, path.value);
    }
    LeftoverConsistent(f, cfg, w, on);
    EnsureRoutingRoutes(w, cfg, gateway, path);
    NativeIsKnown(f, cfg, w, on);
    OverwrittenAlike(f, cfg, w, on, gateway, link, path, NativeOr(path, Known(f, w.tun)));
    EnsureRoutingShape(w, cfg, gateway);
    InstallsRoutesOnly(w, gateway);
    EnsureRulesLayers(InstallRoutes(w, gateway), cfg, f.rules, on);
  }

  lemma LeftoverConsistent(f: Netns, cfg: BypassConfig, w: World, on: Installed)
    requires Untouched(f, cfg) && Leftover(f, cfg, w, on)
    ensures NetnsOk(w.net) && Sorted(f.rules) && ForeignRules(f.rules, cfg) && (on.bypass ==> cfg.Enabled())
  {
  }

  lemma NoCollision(f: Netns, cfg: BypassConfig, w: World, c: ServerConf, on: Installed)
    requires ConfigOk(cfg) && RoutingComplete(f, c) && Distinct(c)
    requires Settled(f, cfg, w, Some(c.remote.value), on) && forall k :: !OnTunnel(w, k)
    ensures HostKey(c.gateway.value) !in w.net.routes
  {
    assert !OnTunnel(w, HostKey(c.gateway.value));
  }

  lemma PathAfterLeftover(f: Netns, cfg: BypassConfig, w: World, c: ServerConf, on: Installed)
    requires Untouched(f, cfg) && ConfigOk(cfg) && RoutingComplete(f, c) && Distinct(c)
    requires Settled(f, cfg, w, Some(c.remote.value), on) && forall k :: !OnTunnel(w, k)
    requires w.tun.link.Some? && LinkExists(w.net, w.tun.link.value)
    ensures c.remote.value.Some? ==>
              RouteGet(WithGateway(w, c.gateway.value), c.remote.value.value) == Path(f, c.remote.value, on.default)
  {
    hide RouteGet, NetnsOk;
    if c.remote.value.Some? {
      var e, gateway, n := c.remote.value.value, c.gateway.value, WithGateway(w, c.gateway.value);
      var pin := if on.default && HostKey(e) in w.net.routes then Some(w.net.routes[HostKey(e)]) else None;
      assert !OnTunnel(w, HostKey(e));
      forall k | k in f.routes ensures SameAt(f.routes, n.routes, k) {
        assert SameAt(f.routes, w.net.routes, k);
      }
      forall k | k in n.routes && k !in f.routes
        ensures k == HostKey(gateway) || k == BypassKey(cfg) || (pin.Some? && k == HostKey(e))
      {
        assert !OnTunnel(w, k);
      }
      PathFound(f, cfg, n, e, gateway, on, pin);
    }
  }

  lemma PathLinkExists(f: Netns, w: World, e: Addr, routed: bool, h: Hop)
    requires NetnsOk(f) && Path(f, Some(e), routed) == Some(h)
    requires WG_NAME !in f.links && WG_NAME in w.net.links && w.net.links == f.links[WG_NAME := w.net.links[WG_NAME]]
    ensures LinkExists(w.net, h.link) && LinkExists(f, h.link)
  {
    InsertAdds(f.rules, LOCAL_RULE);
    if RouteGet(f, e).Some? || !routed {
      RouteGetExists(f, e);
    } else {
      RulesChangeOk(f, WithLocal(f).rules);
      RouteGetExists(WithLocal(f), e);
    }
    var name :| name in f.links && f.links[name] == h.link;
    assert w.net.links[name] == h.link;
  }

  // A connection on top of a settled state: its outcome and its result.
  lemma ConnectResult(f: Netns, cfg: BypassConfig, w: World, c: ServerConf, last: Option<Option<Addr>>, on: Installed)
    requires Untouched(f, cfg) && ConfigOk(cfg) && Distinct(c)
    requires Settled(f, cfg, w, last, on) && SameEndpoint(c, last)
    ensures Connect(w, cfg, c).1 <==> Complete(f, c)
    ensures !RoutingComplete(f, c) ==> Connect(w, cfg, c).0 == Up(w, c).0
    ensures RoutingComplete(f, c) ==>
            var w' := Connect(w, cfg, c).0;
            var path := Path(f, c.remote.value, on.default);
            var net := ConnectedNet(f, cfg, c, w.net.nextIndex, path, NativeOr(path, Known(f, w.tun)));
            && w'.net == (if c.natOk then net else net.(postrouting := w.net.postrouting))
            && w'.tun.endpoint == c.remote.value
            && (if path.Some? then w'.tun.nativeGw == path.value.gw && w'.tun.nativeLink == path.value.link
                else w'.tun.nativeGw == w.tun.nativeGw && w'.tun.nativeLink == w.tun.nativeLink)
  {
    hide Connect, EnsureRouting, Path, Known, Overwritten, Layered, NetnsOk, SettledRoutes;
    var w1 := Up(w, c).0;
    UpSettled(f, cfg, w, c, last, on);
    UpShape(f, w, c);
    UpFresh(w, c);
    ConnectSteps(w, cfg, c);
    LinkAfterFlush(f, w);
    KnownByCapture(f, w.tun, w1.tun);
    if RoutingComplete(f, c) {
      RoutedFrom(f, cfg, w1, c, on);
      var w2 := EnsureRouting(w1, cfg, c.gateway).0;
      MasqueradeAdded(f, cfg, w, w2, on);
    } else if Up(w, c).1 && c.gateway.Some? {
      GatewayCollides(f, cfg, w1, c.gateway.value, on.default);
    }
  }

  lemma MasqueradeAdded(f: Netns, cfg: BypassConfig, w: World, w2: World, on: Installed)
    requires Untouched(f, cfg) && Leftover(f, cfg, w, on) && w2.net.postrouting == w.net.postrouting
    ensures EnsureMasquerade(w2.net) == w2.net.(postrouting := [WG_MASQUERADE] + f.postrouting)
  {
  }

  // The host's own route to the gateway is the one thing the agent runs into.
  lemma GatewayCollides(f: Netns, cfg: BypassConfig, w: World, gateway: Addr, routed: bool)
    requires SettledRoutes(f, cfg, w, routed) && HostKey(gateway) in f.routes && w.tun.link.Some?
    ensures EnsureRouting(w, cfg, Some(gateway)) == (w, false)
  {
    assert SameAt(f.routes, w.net.routes, HostKey(gateway));
  }

  lemma OverwrittenSettled(
    f: Netns, cfg: BypassConfig, w: World, c: ServerConf, link: nat, native: Option<Hop>, routed: bool)
    requires Untouched(f, cfg) && ConfigOk(cfg) && RoutingComplete(f, c) && Distinct(c) && NoOwnRoute(f, c)
    requires w.tun.endpoint == c.remote.value && WG_NAME in w.net.links && w.net.links[WG_NAME] == link
    requires var path := Path(f, c.remote.value, routed);
             && w.net.routes == Overwritten(f.routes, cfg, c.remote.value, c.gateway.value, link, path, native)
             && (path.Some? ==> native == path)
    requires native.Some? ==> Known(f, w.tun) == native
    ensures SettledRoutes(f, cfg, w, true)
  {
    hide RouteGet, Known, NetnsOk, ForeignRules, WithLocal;
    forall k | k in f.routes ensures SameAt(f.routes, w.net.routes, k) {
    }
    if c.remote.value.Some? {
      assert PinSettled(f, w, c.remote.value.value);
    }
  }

  lemma ConnectingSettled(
    f: Netns, cfg: BypassConfig, w: World, c: ServerConf, last: Option<Option<Addr>>, on: Installed)
    returns (on': Installed)
    requires Untouched(f, cfg) && ConfigOk(cfg) && Distinct(c) && NoOwnRoute(f, c)
    requires Settled(f, cfg, w, last, on) && SameEndpoint(c, last)
    ensures Settled(f, cfg, Connect(w, cfg, c).0, AfterUp(c, last), on')
  {
    hide Connect, Path, Known, Overwritten, Layered, NetnsOk, SettledRoutes, Leftover;
    ConnectResult(f, cfg, w, c, last, on);
    if RoutingComplete(f, c) {
      var w', path := Connect(w, cfg, c).0, Path(f, c.remote.value, on.default);
      on' := ConnectingLeftover(f, cfg, w, c, on);
      assert on' == Everything(cfg) by { RoutingCompleteRoutes(f, cfg, w, c, last, on); }
      KnownAfter(f, cfg, w, w', c, on, path);
      OverwrittenSettled(f, cfg, w', c, w.net.nextIndex, NativeOr(path, Known(f, w.tun)), on.default);
    } else {
      UpSettled(f, cfg, w, c, last, on);
      on' := on;
    }
  }

  lemma RoutingCompleteRoutes(
    f: Netns, cfg: BypassConfig, w: World, c: ServerConf, last: Option<Option<Addr>>, on: Installed)
    requires Untouched(f, cfg) && ConfigOk(cfg) && RoutingComplete(f, c) && Distinct(c)
    requires Settled(f, cfg, w, last, on) && SameEndpoint(c, last)
    ensures GetsRouted(w, cfg, c)
  {
    hide EnsureRouting, Path, Known, Overwritten, Layered, NetnsOk, SettledRoutes;
    UpSettled(f, cfg, w, c, last, on);
    UpShape(f, w, c);
    UpFresh(w, c);
    RoutedFrom(f, cfg, Up(w, c).0, c, on);
  }

  // The path found is what the tunnel knows from then on.
  lemma KnownAfter(f: Netns, cfg: BypassConfig, w: World, w': World, c: ServerConf, on: Installed, path: Option<Hop>)
    requires Untouched(f, cfg) && c.remote.Some? && path == Path(f, c.remote.value, on.default)
    requires if path.Some? then w'.tun.nativeGw == path.value.gw && w'.tun.nativeLink == path.value.link
             else w'.tun.nativeGw == w.tun.nativeGw && w'.tun.nativeLink == w.tun.nativeLink
    ensures Known(f, w'.tun) == NativeOr(path, Known(f, w.tun))
  {
    if path.Some? {
      var n := f.(links := f.links[WG_NAME := f.nextIndex]);
      PathLinkExists(f, World(n, NEW_TUNNEL), c.remote.value.value, on.default, path.value);
    }
  }

  lemma CleaningSettled(f: Netns, cfg: BypassConfig, w: World, last: Option<Option<Addr>>, on: Installed)
    requires Untouched(f, cfg) && ConfigOk(cfg) && Settled(f, cfg, w, last, on)
    requires w.tun.endpoint.Some? ==> HostKey(w.tun.endpoint.value) !in f.routes
    ensures Settled(f, cfg, Cleanup(w, cfg), None, NOTHING)
  {
    hide Cleanup, Known, Path, RouteGet;
    CleaningLeftover(f, cfg, w, on);
    CleanupShape(w, cfg);
    var w' := Cleanup(w, cfg);
    forall k | k in f.routes ensures SameAt(f.routes, w'.net.routes, k) {
      assert SameAt(f.routes, w.net.routes, k);
      assert f.routes[k].link == 0 || LinkExists(f, f.routes[k].link);
    }
  }

  lemma {:induction false} RunSettled(f: Netns, cfg: BypassConfig, ops: seq<Op>) returns (on: Installed)
    requires Untouched(f, cfg) && ConfigOk(cfg) && OwnOps(ops) && Servers(f, ops) && CleanBetween(ops)
    ensures Settled(f, cfg, ApplyAll(World(f, NEW_TUNNEL), cfg, ops), LastEndpoint(ops), on)
  {
    if ops == [] {
      NewTunnelSettled(f, cfg);
      on := NOTHING;
    } else {
      hide Settled, HostRoutesAre;
      var front, op := ops[..|ops| - 1], ops[|ops| - 1];
      var w, last := ApplyAll(World(f, NEW_TUNNEL), cfg, front), LastEndpoint(front);
      on := RunSettled(f, cfg, front);
      RunHostRoutes(f, cfg, front);
      match op
      case Connecting(c) => on := ConnectingSettled(f, cfg, w, c, last, on);
      case Cleaning => CleaningSettled(f, cfg, w, last, on); on := NOTHING;
      case Checking => CheckingSettled(f, cfg, w, last, on);
      case Discovering =>
        DiscoverySettled(f, cfg, w, last, on);
        on := on.(discovery := true);
    }
  }

  lemma CheckingSettled(f: Netns, cfg: BypassConfig, w: World, last: Option<Option<Addr>>, on: Installed)
    requires Settled(f, cfg, w, last, on)
    ensures Settled(f, cfg, IsUp(w, cfg).0, last, on)
  {
    var w' := IsUp(w, cfg).0;
    CheckingLeftover(f, cfg, w, on);
    SettledRoutesFrame(f, cfg, w, w', on.default);
  }

  lemma DiscoverySettled(f: Netns, cfg: BypassConfig, w: World, last: Option<Option<Addr>>, on: Installed)
    requires Untouched(f, cfg) && ConfigOk(cfg) && Settled(f, cfg, w, last, on)
    ensures Settled(f, cfg, w.(net := EnsureDiscovery(w.net)), last, on.(discovery := true))
  {
    DiscoveringLeftover(f, cfg, w, on);
    var w' := w.(net := EnsureDiscovery(w.net));
    SettledRoutesFrame(f, cfg, w, w', on.default);
  }

  // --- History independence -------------------------------------------------

  // A new tunnel on the untouched host, the link counter standing where it does.
  function Anew(f: Netns, nextIndex: nat): World {
    World(f.(nextIndex := nextIndex), NEW_TUNNEL)
  }

  // What a connection leaves is what a new tunnel would leave there: with a path
  // to the endpoint always; without one, unless the agent's rule has opened one
  // or the tunnel knows another native path than the host's default.
  predicate ForgetsHistory(f: Netns, cfg: BypassConfig, w: World, endpoint: Option<Addr>) {
    || (endpoint.Some? && RouteGet(f, endpoint.value).Some?)
    || (&& (endpoint.None? || DEFAULT_RULE !in w.net.rules || RouteGet(WithLocal(f), endpoint.value).None?)
        && (!cfg.Enabled() || Known(f, w.tun) == Fallback(f)))
  }

  lemma NetsAgreeIff(
    f: Netns, cfg: BypassConfig, c: ServerConf, link: nat,
    path: Option<Hop>, native: Option<Hop>, path': Option<Hop>, native': Option<Hop>)
    requires Untouched(f, cfg) && ConfigOk(cfg) && RoutingComplete(f, c) && Distinct(c)
    requires (path.Some? ==> c.remote.value.Some?) && (path'.Some? ==> c.remote.value.Some?)
    requires path != path' ==> path'.None? && NoOwnRoute(f, c)
    ensures ConnectedNet(f, cfg, c, link, path, native) == ConnectedNet(f, cfg, c, link, path', native')
            <==> path == path' && (!cfg.Enabled() || native == native')
  {
    var r1 := Overwritten(f.routes, cfg, c.remote.value, c.gateway.value, link, path, native);
    var r2 := Overwritten(f.routes, cfg, c.remote.value, c.gateway.value, link, path', native');
    if path != path' {
      assert HostKey(c.remote.value.value) in r1 && HostKey(c.remote.value.value) !in r2;
    } else if cfg.Enabled() && native != native' {
      assert !SameAt(r1, r2, BypassKey(cfg));
    }
  }

  // After a sequence of the agent's operations that cleans up before each change
  // of endpoint - failed connections included, and servers the host cannot reach
  // - a connection succeeds exactly when it would on the untouched host; and this
  // is exactly when its result is what a new tunnel's would be.
  lemma {:induction false} HistoryIndependence(f: Netns, cfg: BypassConfig, ops: seq<Op>, c: ServerConf)
    requires Untouched(f, cfg) && ConfigOk(cfg) && OwnOps(ops) && Servers(f, ops) && CleanBetween(ops)
    requires Distinct(c) && SameEndpoint(c, LastEndpoint(ops))
    ensures var w := ApplyAll(World(f, NEW_TUNNEL), cfg, ops);
            var anew := Connect(Anew(f, w.net.nextIndex), cfg, c);
            && (Connect(w, cfg, c).1 <==> Complete(f, c)) && (anew.1 <==> Complete(f, c))
            && (Complete(f, c) ==>
                (Connect(w, cfg, c).0.net == anew.0.net <==> ForgetsHistory(f, cfg, w, c.remote.value)))
  {
    hide Settled, Connect, Known, RouteGet, ConnectedNet, Layered;
    var w := ApplyAll(World(f, NEW_TUNNEL), cfg, ops);
    var on := RunSettled(f, cfg, ops);
    SettledFacts(f, cfg, w, LastEndpoint(ops), on);
    ConnectResult(f, cfg, w, c, LastEndpoint(ops), on);
    var f' := f.(nextIndex := w.net.nextIndex);
    LaterHost(f, cfg, f'.nextIndex);
    NewTunnelSettled(f', cfg);
    ConnectResult(f', cfg, World(f', NEW_TUNNEL), c, None, NOTHING);
    if Complete(f, c) {
      SamePaths(f, cfg, c, f'.nextIndex);
      var path, path' := Path(f, c.remote.value, on.default), Path(f, c.remote.value, false);
      NetsAgreeIff(f, cfg, c, f'.nextIndex, path, NativeOr(path, Known(f, w.tun)), path', NativeOr(path', Fallback(f)));
      SameNets(f, cfg, c, f'.nextIndex, path', NativeOr(path', Fallback(f)));
    }
  }

  lemma SettledFacts(f: Netns, cfg: BypassConfig, w: World, last: Option<Option<Addr>>, on: Installed)
    requires Untouched(f, cfg) && ConfigOk(cfg) && Settled(f, cfg, w, last, on)
    ensures w.net.nextIndex >= f.nextIndex
    ensures on.default <==> DEFAULT_RULE in w.net.rules
    ensures on.default ==> last.Some? && (last.value.Some? ==> HostKey(last.value.value) !in f.routes)
  {
    LayerMembers(f.rules, cfg, on);
  }

  lemma LaterHost(f: Netns, cfg: BypassConfig, nextIndex: nat)
    requires Untouched(f, cfg) && nextIndex >= f.nextIndex
    ensures Untouched(f.(nextIndex := nextIndex), cfg)
  {
    var f' := f.(nextIndex := nextIndex);
    assert forall i :: LinkExists(f', i) <==> LinkExists(f, i);
  }

  lemma SamePaths(f: Netns, cfg: BypassConfig, c: ServerConf, nextIndex: nat)
    requires c.remote.Some?
    ensures var f' := f.(nextIndex := nextIndex);
            && Path(f', c.remote.value, false) == Path(f, c.remote.value, false)
            && Known(f', NEW_TUNNEL) == Fallback(f)
            && (RoutingComplete(f', c) <==> RoutingComplete(f, c))
  {
  }

  lemma SameNets(f: Netns, cfg: BypassConfig, c: ServerConf, nextIndex: nat, path: Option<Hop>, native: Option<Hop>)
    requires RoutingComplete(f, c) && (path.Some? ==> c.remote.value.Some?)
    ensures var f' := f.(nextIndex := nextIndex);
            && RoutingComplete(f', c)
            && ConnectedNet(f', cfg, c, nextIndex, path, native) == ConnectedNet(f, cfg, c, nextIndex, path, native)
  {
  }

  // On the untouched host a connection pins its endpoint exactly if its answer
  // is complete and the host has a path to the endpoint.
  lemma PinsIff(f: Netns, cfg: BypassConfig, c: ServerConf)
    requires Untouched(f, cfg) && ConfigOk(cfg) && Distinct(c)
    ensures Pins(World(f, NEW_TUNNEL), cfg, c) <==>
              RoutingComplete(f, c) && c.remote.value.Some? && RouteGet(f, c.remote.value.value).Some?
  {
    hide RouteGet, EnsureRouting, NetnsOk, SettledRoutes, Layered, Up;
    var w0 := World(f, NEW_TUNNEL);
    var w1 := Up(w0, c).0;
    NewTunnelSettled(f, cfg);
    UpSettled(f, cfg, w0, c, None, NOTHING);
    UpShape(f, w0, c);
    UpFresh(w0, c);
    if RoutingComplete(f, c) {
      RoutingCompleteRoutes(f, cfg, w0, c, None, NOTHING);
      PathAfterLeftover(f, cfg, w1, c, NOTHING);
      if c.remote.value.Some? && RouteGet(f, c.remote.value.value).Some? {
        PathBeforeLink(f, c.remote.value.value);
      }
    } else if Up(w0, c).1 {
      NoFreeGateway(f, cfg, w1, c);
    }
  }

  lemma NoFreeGateway(f: Netns, cfg: BypassConfig, w: World, c: ServerConf)
    requires SettledRoutes(f, cfg, w, false) && w.tun.link.Some?
    requires c.gateway.Some? ==> HostKey(c.gateway.value) in f.routes
    ensures !EnsureRouting(w, cfg, c.gateway).1
  {
    if c.gateway.Some? {
      GatewayCollides(f, cfg, w, c.gateway.value, false);
    }
  }

  lemma PathBeforeLink(f: Netns, e: Addr)
    requires NetnsOk(f) && RouteGet(f, e).Some?
    ensures 0 < RouteGet(f, e).value.link < f.nextIndex
  {
    RouteGetExists(f, e);
  }

  // The failing run without a path: the native path captured for a first server
  // survives the cleanup, and a second server the host cannot reach gets a
  // bypass default from it, where a new tunnel would find none.
  lemma CapturedPathOutlivesItsServer(f: Netns, cfg: BypassConfig, c1: ServerConf, c2: ServerConf)
    requires Untouched(f, cfg) && ConfigOk(cfg) && cfg.Enabled() && Key(MAIN_TABLE, ANY) !in f.routes
    requires Distinct(c1) && NoOwnRoute(f, c1) && RoutingComplete(f, c1) && c1.remote.value.Some?
    requires RouteGet(f, c1.remote.value.value).Some?
    requires Distinct(c2) && Complete(f, c2) && (c2.remote.value.Some? ==> RouteGet(f, c2.remote.value.value).None?)
    ensures var w := ApplyAll(World(f, NEW_TUNNEL), cfg, [Connecting(c1), Cleaning]);
            && w.net == f.(nextIndex := w.net.nextIndex)
            && w.tun.nativeLink == RouteGet(f, c1.remote.value.value).value.link != 0
            && BypassKey(cfg) in Connect(w, cfg, c2).0.net.routes
            && BypassKey(cfg) !in Connect(Anew(f, w.net.nextIndex), cfg, c2).0.net.routes
  {
    hide Connect, Cleanup, RouteGet, Layered, NetnsOk, SettledRoutes, Leftover;
    var w0, ops := World(f, NEW_TUNNEL), [Connecting(c1), Cleaning];
    var w1 := Connect(w0, cfg, c1).0;
    var w := Cleanup(w1, cfg);
    assert ops[..1] == [Connecting(c1)] && [Connecting(c1)][..0] == [];
    OneOp(f, cfg, Connecting(c1));
    assert ApplyAll(w0, cfg, ops) == Apply(ApplyAll(w0, cfg, ops[..1]), cfg, ops[1]) == w;
    NewTunnelSettled(f, cfg);
    ConnectResult(f, cfg, w0, c1, None, NOTHING);
    RoundTripOnceIff(f, cfg, c1);
    CleanupKeepsCapture(w1, cfg);
    var on := ConnectingSettled(f, cfg, w0, c1, None, NOTHING);
    CleaningSettled(f, cfg, w1, AfterUp(c1, None), on);
    ConnectResult(f, cfg, w, c2, None, NOTHING);
    var h := RouteGet(f, c1.remote.value.value).value;
    PathLinkExists(f, World(f.(links := f.links[WG_NAME := f.nextIndex]), NEW_TUNNEL), c1.remote.value.value, false, h);
    PathBeforeLink(f, c1.remote.value.value);
    assert Known(f, w.tun) == Some(h);
    SettledFacts(f, cfg, w, None, NOTHING);
    var f' := f.(nextIndex := w.net.nextIndex);
    LaterHost(f, cfg, f'.nextIndex);
    NewTunnelSettled(f', cfg);
    SamePaths(f, cfg, c2, f'.nextIndex);
    ConnectResult(f', cfg, World(f', NEW_TUNNEL), c2, None, NOTHING);
  }

  lemma CleanupKeepsCapture(w: World, cfg: BypassConfig)
    ensures var t := Cleanup(w, cfg).tun;
            t.nativeGw == w.tun.nativeGw && t.nativeLink == w.tun.nativeLink
  {
  }
}
