// Whether the encrypted packets re-enter the tunnel, in runs of the agent's
// operations interleaved with changes others make to the namespace. First who
// owns which route; then where a lookup sends the packets, and exactly when that
// is not the tunnel.
module NoLoop {
  import opened Common
  import opened Fib
  import opened Rules
  import opened Netspace
  import opened Routing

  // --- The namespace stays consistent --------------------------------------

  lemma DeleteLinkOk(n: Netns, name: string)
    requires NetnsOk(n) && name in n.links
    ensures var n' := DeleteLink(n, name);
            && NetnsOk(n') && name !in n'.links
            && (forall k :: k in n'.routes ==> n'.routes[k].link != n.links[name])
  {
    var n' := DeleteLink(n, name);
    forall i | LinkExists(n, i) && i != n.links[name] ensures LinkExists(n', i) {
      var other :| other in n.links && n.links[other] == i;
      assert n'.links[other] == i;
    }
  }

  lemma AddLinkOk(n: Netns, name: string)
    requires NetnsOk(n) && name !in n.links && n.nextIndex > 0
    ensures NetnsOk(AddLink(n, name)) && LinkExists(AddLink(n, name), n.nextIndex)
  {
    var n' := AddLink(n, name);
    assert n'.links[name] == n.nextIndex;
    forall i | LinkExists(n, i) ensures LinkExists(n', i) {
      var other :| other in n.links && n.links[other] == i;
      assert n'.links[other] == i;
    }
  }

  lemma ReplaceRouteOk(n: Netns, key: Key, hop: Hop)
    requires NetnsOk(n) && WellFormed(key.dst)
    ensures NetnsOk(ReplaceRoute(n, key, hop))
  {
  }

  lemma RulesChangeOk(n: Netns, rules: seq<Rule>)
    requires NetnsOk(n) && Sorted(rules)
    ensures NetnsOk(n.(rules := rules))
  {
  }

  lemma DeleteRouteOk(n: Netns, key: Key)
    requires NetnsOk(n)
    ensures NetnsOk(DeleteRoute(n, key))
  {
  }

  lemma HostWellFormed(a: Addr)
    ensures WellFormed(Host(a)) && WellFormed(ANY)
  {
    AroundCovers(a, 32);
    HostCovers(a, a);
  }

  // The device a lookup selects is that of a route covering the address.
  lemma SelectedRoute(n: Netns, dst: Addr, mark: int) returns (k: Key)
    requires Lookup(n.rules, n.routes, dst, mark).Some?
    ensures k in n.routes && Lookup(n.rules, n.routes, dst, mark) == Some(n.routes[k])
    ensures k.dst.len <= 32 && k.dst == Around(dst, k.dst.len)
  {
    var i := DecidedBy(n.rules, n.routes, dst, mark);
    var r := n.rules[i];
    LpmKey(n.routes, r.table, dst, 32);
    k := Key(r.table, Around(dst, Lpm(n.routes, r.table, dst).value.len));
  }

  lemma RouteGetExists(n: Netns, dst: Addr)
    requires NetnsOk(n) && RouteGet(n, dst).Some?
    ensures LinkExists(n, RouteGet(n, dst).value.link)
  {
    var k := SelectedRoute(n, dst, 0);
  }

  // --- One connection ------------------------------------------------------

  // The captured native path was a link of its time.
  ghost predicate NativeKnown(w: World) {
    w.tun.nativeLink < w.net.nextIndex
  }

  ghost predicate Consistent(w: World) {
    NetnsOk(w.net) && w.net.nextIndex > 0 && NativeKnown(w)
  }

  // Nothing is routed to the link, and the captured path is another one.
  ghost predicate Unused(w: World, link: nat) {
    (forall k :: k in w.net.routes ==> w.net.routes[k].link != link) && w.tun.nativeLink != link
  }

  // Recreating the link is what makes reconnecting sound: the new one has a
  // fresh index and no routes.
  lemma NewWgLinkFresh(w: World)
    requires Consistent(w)
    ensures var w1 := NewWgLink(w);
            && Consistent(w1) && w1.tun == w.tun.(link := Some(w.net.nextIndex))
            && Unused(w1, w.net.nextIndex) && LinkExists(w1.net, w.net.nextIndex)
            && w1.net.rules == w.net.rules
  {
    var n := w.net;
    if WG_NAME in n.links {
      DeleteLinkOk(n, WG_NAME);
      n := DeleteLink(n, WG_NAME);
    }
    AddLinkOk(n, WG_NAME);
    assert forall i: nat :: LinkExists(n, i) ==> i < n.nextIndex;
  }

  lemma UpFresh(w: World, c: ServerConf)
    requires Consistent(w)
    ensures var w1 := Up(w, c).0;
            && Consistent(w1) && w1.tun.link == Some(w.net.nextIndex)
            && Unused(w1, w.net.nextIndex) && LinkExists(w1.net, w.net.nextIndex)
            && w1.net.rules == w.net.rules && w1.net.nextIndex == w.net.nextIndex + 1
  {
    NewWgLinkFresh(w);
  }

  // Routes to the tunnel are at most the gateway's and the tunnel table's
  // default, and the captured path leads elsewhere.
  ghost predicate TunnelConfined(w: World, link: nat, gateway: Addr) {
    && (forall k :: k in w.net.routes && w.net.routes[k].link == link ==> k == HostKey(gateway) || k == DEFAULT_KEY)
    && w.tun.nativeLink != link
  }

  lemma InstallRoutesConsistent(w: World, gateway: Addr)
    requires Consistent(w) && w.tun.link.Some?
    ensures Consistent(InstallRoutes(w, gateway))
    ensures InstallRoutes(w, gateway).net == w.net.(routes := InstallRoutes(w, gateway).net.routes)
    ensures InstallRoutes(w, gateway).tun.link == w.tun.link
  {
    var onLink := Hop(None, w.tun.link.value);
    HostWellFormed(gateway);
    ReplaceRouteOk(w.net, HostKey(gateway), onLink);
    var w1 := w.(net := ReplaceRoute(w.net, HostKey(gateway), onLink));
    PinConsistent(w1);
    PinKeepsLinks(w1);
    ReplaceRouteOk(PinEndpoint(w1).net, DEFAULT_KEY, onLink);
  }

  lemma PinConsistent(w: World)
    requires Consistent(w)
    ensures Consistent(PinEndpoint(w))
  {
    if w.tun.endpoint.Some? && RouteGet(w.net, w.tun.endpoint.value).Some? {
      var e := w.tun.endpoint.value;
      HostWellFormed(e);
      RouteGetExists(w.net, e);
      ReplaceRouteOk(w.net, HostKey(e), RouteGet(w.net, e).value);
    }
  }

  // The path to the endpoint, looked up while the gateway's is the only route
  // to the tunnel, is not the tunnel.
  lemma InstallRoutesConfined(w: World, gateway: Addr)
    requires Consistent(w) && w.tun.link.Some? && Unused(w, w.tun.link.value)
    requires w.tun.endpoint != Some(gateway)
    ensures TunnelConfined(InstallRoutes(w, gateway), w.tun.link.value, gateway)
  {
    var n := ReplaceRoute(w.net, HostKey(gateway), Hop(None, w.tun.link.value));
    if w.tun.endpoint.Some? && RouteGet(n, w.tun.endpoint.value).Some? {
      var e := w.tun.endpoint.value;
      var k := SelectedRoute(n, e, 0);
      HostCovers(e, e);
    }
  }

  // ensureRules up to the bypass.
  function EnsureThree(n: Netns): Netns {
    var r1 := EnsureRule(n.rules, LocalKind, LOCAL_RULE);
    var r2 := EnsureRule(r1, DefaultKind, DEFAULT_RULE);
    n.(rules := EnsureRule(r2, DiscoveryKind, DISCOVERY_RULE))
  }

  lemma EnsureThreeOk(n: Netns)
    requires NetnsOk(n)
    ensures NetnsOk(EnsureThree(n))
  {
    var r1 := EnsureRule(n.rules, LocalKind, LOCAL_RULE);
    var r2 := EnsureRule(r1, DefaultKind, DEFAULT_RULE);
    EnsureInstallsIff(n.rules, LocalKind, LOCAL_RULE);
    EnsureInstallsIff(r1, DefaultKind, DEFAULT_RULE);
    EnsureInstallsIff(r2, DiscoveryKind, DISCOVERY_RULE);
    RulesChangeOk(n, EnsureThree(n).rules);
  }

  lemma EnsureBypassOk(w: World, cfg: BypassConfig)
    requires NetnsOk(w.net)
    ensures NetnsOk(EnsureBypass(w, cfg).net)
  {
    if cfg.Enabled() {
      HostWellFormed(0);
      var native := NativeDefault(w);
      var n1 := if native.None? then w.net else ReplaceRoute(w.net, BypassKey(cfg), native.value);
      if native.Some? {
        ReplaceRouteOk(w.net, BypassKey(cfg), native.value);
      }
      EnsureInstallsIff(n1.rules, BypassKind(cfg), BypassRule(cfg));
      RulesChangeOk(n1, EnsureRule(n1.rules, BypassKind(cfg), BypassRule(cfg)));
    }
  }

  lemma EnsureRulesConsistent(w: World, cfg: BypassConfig)
    requires Consistent(w)
    ensures Consistent(EnsureRules(w, cfg))
    ensures EnsureRules(w, cfg).net.links == w.net.links && EnsureRules(w, cfg).net.nextIndex == w.net.nextIndex
  {
    EnsureThreeOk(w.net);
    var w3 := w.(net := EnsureThree(w.net));
    assert EnsureRules(w, cfg) == EnsureBypass(w3, cfg);
    EnsureBypassOk(w3, cfg);
    BypassTouches(w3, cfg);
  }

  // The bypass table's default, from the captured path or by the fallback, is
  // never the tunnel.
  lemma EnsureRulesConfined(w: World, cfg: BypassConfig, link: nat, gateway: Addr)
    requires TunnelConfined(w, link, gateway) && ConfigOk(cfg) && w.tun.link == Some(link)
    ensures TunnelConfined(EnsureRules(w, cfg), link, gateway)
    ensures var routes := EnsureRules(w, cfg).net.routes;
            BypassKey(cfg) in routes ==> routes[BypassKey(cfg)].link != link
  {
  }

  // Connecting, whatever was there before: the captured native link and the
  // bypass table's default are not the tunnel, which carries exactly the
  // gateway and the tunnel table's default.
  lemma {:induction false} ConnectConfined(w: World, cfg: BypassConfig, c: ServerConf)
    requires Consistent(w) && ConfigOk(cfg) && Connect(w, cfg, c).1
    requires c.remote != Some(c.gateway)
    ensures var w' := Connect(w, cfg, c).0;
            && WG_NAME in w'.net.links && w'.net.links[WG_NAME] == w.net.nextIndex
            && TunnelConfined(w', w.net.nextIndex, c.gateway.value)
            && (BypassKey(cfg) in w'.net.routes ==> w'.net.routes[BypassKey(cfg)].link != w.net.nextIndex)
            && Consistent(w')
  {
    hide NetnsOk, EnsureRules, InstallRoutes;
    UpFresh(w, c);
    var w1 := Up(w, c).0;
    InstallRoutesConsistent(w1, c.gateway.value);
    InstallRoutesConfined(w1, c.gateway.value);
    var w2 := InstallRoutes(w1, c.gateway.value);
    EnsureRulesConfined(w2, cfg, w.net.nextIndex, c.gateway.value);
    EnsureRulesConsistent(w2, cfg);
    MasqueradeConsistent(EnsureRules(w2, cfg));
    UpNamesLink(w, c);
  }

  lemma UpNamesLink(w: World, c: ServerConf)
    ensures var w1 := Up(w, c).0;
            WG_NAME in w1.net.links && w1.net.links[WG_NAME] == w.net.nextIndex
  {
  }

  // --- Runs ----------------------------------------------------------------

  // Others may do anything that leaves a consistent namespace and takes no
  // link index back.
  datatype Op = Connecting(c: ServerConf) | Cleaning | Checking | Discovering | Foreign(net: Netns)

  function Apply(w: World, cfg: BypassConfig, op: Op): World {
    match op
    case Connecting(c) => Connect(w, cfg, c).0
    case Cleaning => Cleanup(w, cfg)
    case Checking => IsUp(w, cfg).0
    case Discovering => w.(net := EnsureDiscovery(w.net))
    case Foreign(net) => w.(net := net)
  }

  function ApplyAll(w: World, cfg: BypassConfig, ops: seq<Op>): World {
    if ops == [] then w else Apply(ApplyAll(w, cfg, ops[..|ops| - 1]), cfg, ops[|ops| - 1])
  }

  ghost predicate Allowed(w: World, cfg: BypassConfig, ops: seq<Op>) {
    ops == [] ||
    var front, op := ops[..|ops| - 1], ops[|ops| - 1];
    Allowed(w, cfg, front) &&
    (op.Foreign? ==> NetnsOk(op.net) && op.net.nextIndex >= ApplyAll(w, cfg, front).net.nextIndex)
  }

  lemma DelRulesOk(w: World, cfg: BypassConfig)
    requires NetnsOk(w.net)
    ensures NetnsOk(DelRules(w, cfg).net)
  {
    var r1 := RemoveFirst(w.net.rules, LocalKind);
    var r2 := RemoveFirst(r1, DefaultKind);
    var r3 := if cfg.table == 0 then r2 else Without(r2, BypassIn(cfg.table));
    RemovalSorted(w.net.rules, LocalKind);
    RemovalSorted(r1, DefaultKind);
    RemovalSorted(r2, BypassIn(cfg.table));
    RemovalSorted(r3, DiscoveryKind);
    var n := w.net.(rules := RemoveFirst(r3, DiscoveryKind));
    RulesChangeOk(w.net, n.rules);
    DeleteRouteOk(n, BypassKey(cfg));
  }

  lemma CleanupConsistent(w: World, cfg: BypassConfig)
    requires Consistent(w)
    ensures Consistent(Cleanup(w, cfg))
  {
    hide NetnsOk;
    var n1 := if w.tun.endpoint.Some? then DeleteRoute(w.net, HostKey(w.tun.endpoint.value)) else w.net;
    if w.tun.endpoint.Some? {
      DeleteRouteOk(w.net, HostKey(w.tun.endpoint.value));
    }
    var w1 := w.(net := n1);
    DelRulesOk(w1, cfg);
    var n2 := DelRules(w1, cfg).net;
    var n3 := if WG_NAME in n2.links then DeleteLink(n2, WG_NAME) else n2;
    if WG_NAME in n2.links {
      DeleteLinkOk(n2, WG_NAME);
    }
    NatChangeOk(n3, RemoveFirstNat(n3.postrouting, WG_MASQUERADE));
  }

  lemma NatChangeOk(n: Netns, postrouting: seq<NatRule>)
    requires NetnsOk(n)
    ensures NetnsOk(n.(postrouting := postrouting))
  {
  }

  lemma EnsureRoutingConsistent(w: World, cfg: BypassConfig, gateway: Addr)
    requires Consistent(w) && w.tun.link.Some?
    ensures Consistent(EnsureRouting(w, cfg, Some(gateway)).0)
  {
    InstallRoutesConsistent(w, gateway);
    EnsureRulesConsistent(InstallRoutes(w, gateway), cfg);
  }

  lemma ConnectConsistent(w: World, cfg: BypassConfig, c: ServerConf)
    requires Consistent(w)
    ensures Consistent(Connect(w, cfg, c).0)
  {
    UpFresh(w, c);
    var w1 := Up(w, c).0;
    if c.gateway.Some? {
      EnsureRoutingConsistent(w1, cfg, c.gateway.value);
    }
    var w2 := EnsureRouting(w1, cfg, c.gateway).0;
    assert Consistent(w2);
    MasqueradeConsistent(w2);
  }

  lemma MasqueradeConsistent(w: World)
    requires Consistent(w)
    ensures Consistent(w.(net := EnsureMasquerade(w.net)))
  {
  }

  lemma {:induction false} RunConsistent(w: World, cfg: BypassConfig, ops: seq<Op>)
    requires Consistent(w) && Allowed(w, cfg, ops)
    ensures Consistent(ApplyAll(w, cfg, ops))
  {
    if ops != [] {
      var front, op := ops[..|ops| - 1], ops[|ops| - 1];
      RunConsistent(w, cfg, front);
      var p := ApplyAll(w, cfg, front);
      match op
      case Connecting(c) => ConnectConsistent(p, cfg, c);
      case Cleaning => CleanupConsistent(p, cfg);
      case Discovering => EnsureInstallsIff(p.net.rules, DiscoveryKind, DISCOVERY_RULE);
      case _ =>
    }
  }

  // Every connection of every run: first, after a cleanup, on top of the last
  // one, with the native path captured or found by the fallback.
  lemma NoLoopInAnyRun(w: World, cfg: BypassConfig, ops: seq<Op>, c: ServerConf)
    requires Consistent(w) && ConfigOk(cfg) && Allowed(w, cfg, ops)
    requires c.remote != Some(c.gateway)
    requires Connect(ApplyAll(w, cfg, ops), cfg, c).1
    ensures var w' := Connect(ApplyAll(w, cfg, ops), cfg, c).0;
            && WG_NAME in w'.net.links
            && w'.tun.nativeLink != w'.net.links[WG_NAME]
            && (BypassKey(cfg) in w'.net.routes ==> w'.net.routes[BypassKey(cfg)].link != w'.net.links[WG_NAME])
            && TunnelConfined(w', w'.net.links[WG_NAME], c.gateway.value)
  {
    RunConsistent(w, cfg, ops);
    ConnectConfined(ApplyAll(w, cfg, ops), cfg, c);
  }

  // --- The endpoint's own packets ------------------------------------------

  // Once the endpoint is pinned, no foreign rule short of one into the tunnel's
  // own table can send its packets into the tunnel.
  lemma PinnedEndpointAvoidsTunnel(w: World, e: Addr, link: nat, gateway: Addr)
    requires Sorted(w.net.rules) && TunnelConfined(w, link, gateway) && e != gateway
    requires HostKey(e) in w.net.routes && LOCAL_RULE in w.net.rules
    requires forall r :: r in w.net.rules && r.priority <= LOCAL_PRIO ==> r.table != WG_TABLE
    ensures var hop := Lookup(w.net.rules, w.net.routes, e, 0);
            hop.Some? && hop.value.link != link
  {
    LpmHost(w.net.routes, MAIN_TABLE, e);
    NoneDecides(w.net.rules, w.net.routes, e, 0);
    var i := DecidedBy(w.net.rules, w.net.routes, e, 0);
    var j :| 0 <= j < |w.net.rules| && w.net.rules[j] == LOCAL_RULE;
    assert i <= j;
    var r := w.net.rules[i];
    assert r.priority <= LOCAL_PRIO;
    LpmKey(w.net.routes, r.table, e, 32);
    HostCovers(e, e);
  }

  // The host's routes when the path to the endpoint is looked up.
  function WithGateway(w: World, gateway: Addr): Netns
    requires w.tun.link.Some?
  {
    ReplaceRoute(w.net, HostKey(gateway), Hop(None, w.tun.link.value))
  }

  lemma MainTableAfter(w: World, cfg: BypassConfig, gateway: Addr)
    requires w.tun.link.Some? && ConfigOk(cfg) && EnsureRouting(w, cfg, Some(gateway)).1
    ensures var n1 := PinEndpoint(w.(net := WithGateway(w, gateway))).net;
            forall k: Key :: k.table == MAIN_TABLE ==>
              SameAt(n1.routes, EnsureRouting(w, cfg, Some(gateway)).0.net.routes, k)
  {
    var w2 := InstallRoutes(w, gateway);
    var w3 := w2.(net := EnsureThree(w2.net));
    assert EnsureRules(w2, cfg) == EnsureBypass(w3, cfg);
    BypassTouches(w3, cfg);
  }

  lemma PinMakesSpecific(w: World, cfg: BypassConfig, gateway: Addr)
    requires Consistent(w) && ConfigOk(cfg) && w.tun.link.Some? && w.tun.endpoint.Some?
    requires EnsureRouting(w, cfg, Some(gateway)).1
    ensures var e := w.tun.endpoint.value;
            Specific(EnsureRouting(w, cfg, Some(gateway)).0.net.routes, MAIN_TABLE, e) <==>
              RouteGet(WithGateway(w, gateway), e).Some? || Specific(WithGateway(w, gateway).routes, MAIN_TABLE, e)
  {
    var e, before := w.tun.endpoint.value, WithGateway(w, gateway);
    var n := EnsureRouting(w, cfg, Some(gateway)).0.net;
    MainTableAfter(w, cfg, gateway);
    if RouteGet(before, e).Some? {
      HostWellFormed(gateway);
      ReplaceRouteOk(w.net, HostKey(gateway), Hop(None, w.tun.link.value));
      RouteGetExists(before, e);
      assert SameAt(PinEndpoint(w.(net := before)).net.routes, n.routes, HostKey(e));
      LpmHost(n.routes, MAIN_TABLE, e);
    } else {
      forall l | 0 <= l <= 32 ensures SameAt(before.routes, n.routes, Key(MAIN_TABLE, Around(e, l))) {
      }
      LpmFrame(before.routes, n.routes, MAIN_TABLE, e, 32);
    }
  }

  // The endpoint's packets stay out of the tunnel exactly when the host had a
  // path to it to pin, or a specific main-table route to it.
  lemma EndpointAvoidsTunnelIff(w: World, cfg: BypassConfig, gateway: Addr)
    requires Consistent(w) && ConfigOk(cfg) && w.tun.link.Some? && Unused(w, w.tun.link.value)
    requires NoLookalikes(w.net.rules, cfg) && EnsureRouting(w, cfg, Some(gateway)).1
    requires w.tun.endpoint.Some? && w.tun.endpoint.value != gateway
    requires var n := EnsureRouting(w, cfg, Some(gateway)).0.net;
             Undisturbed(n, cfg, w.tun.endpoint.value, 0) && !Specific(n.routes, WG_TABLE, w.tun.endpoint.value)
    ensures var n, e := EnsureRouting(w, cfg, Some(gateway)).0.net, w.tun.endpoint.value;
            Lookup(n.rules, n.routes, e, 0) != Some(Hop(None, w.tun.link.value)) <==>
              RouteGet(WithGateway(w, gateway), e).Some? || Specific(WithGateway(w, gateway).routes, MAIN_TABLE, e)
  {
    hide Lookup, LpmFrom;
    var e, link := w.tun.endpoint.value, w.tun.link.value;
    var w2 := InstallRoutes(w, gateway);
    InstallRoutesConfined(w, gateway);
    EnsureRulesConfined(w2, cfg, link, gateway);
    EnsureRoutingMeaning(w, cfg, gateway, e, 0);
    PinMakesSpecific(w, cfg, gateway);
    SpecificAvoidsTunnel(EnsureRules(w2, cfg), cfg, e, link, gateway);
  }

  lemma SpecificAvoidsTunnel(w: World, cfg: BypassConfig, e: Addr, link: nat, gateway: Addr)
    requires ConfigOk(cfg) && TunnelConfined(w, link, gateway) && e != gateway
    requires DEFAULT_KEY in w.net.routes && w.net.routes[DEFAULT_KEY] == Hop(None, link)
    ensures Intended(w.net.routes, cfg, e, 0) != Some(Hop(None, link)) <==> Specific(w.net.routes, MAIN_TABLE, e)
  {
    IntendedReadings(w.net.routes, cfg, e, 0, link);
    LpmKey(w.net.routes, MAIN_TABLE, e, 32);
    HostCovers(e, e);
  }

  // --- The endpoint's packets in any run -----------------------------------

  // What a successful connection does to rules and routes, step by step.
  lemma ConnectIsRouted(p: World, cfg: BypassConfig, c: ServerConf)
    requires Connect(p, cfg, c).1
    ensures var w1, n := Up(p, c).0, Connect(p, cfg, c).0.net;
            var routed := EnsureRouting(w1, cfg, c.gateway);
            && c.remote.Some? && c.gateway.Some? && routed.1 && w1.tun.endpoint == c.remote.value
            && n.rules == routed.0.net.rules && n.routes == routed.0.net.routes
  {
  }

  lemma LocalRuleInstalled(w: World, cfg: BypassConfig)
    requires forall r :: r in w.net.rules && Is(LocalKind, r) ==> r == LOCAL_RULE
    ensures LOCAL_RULE in EnsureRules(w, cfg).net.rules
    ensures forall r :: r in EnsureRules(w, cfg).net.rules && r.priority <= LOCAL_PRIO ==>
              r in w.net.rules || r == LOCAL_RULE || r == DISCOVERY_RULE
  {
    var r1 := EnsureRule(w.net.rules, LocalKind, LOCAL_RULE);
    var r2 := EnsureRule(r1, DefaultKind, DEFAULT_RULE);
    var r3 := EnsureRule(r2, DiscoveryKind, DISCOVERY_RULE);
    EnsureInstallsIff(w.net.rules, LocalKind, LOCAL_RULE);
    EnsureInstallsIff(r1, DefaultKind, DEFAULT_RULE);
    EnsureInstallsIff(r2, DiscoveryKind, DISCOVERY_RULE);
    EnsureInstallsIff(r3, BypassKind(cfg), BypassRule(cfg));
    BypassTouches(w.(net := EnsureThree(w.net)), cfg);
    assert EnsureRules(w, cfg) == EnsureBypass(w.(net := EnsureThree(w.net)), cfg);
  }

  // The pin outlives the rest of EnsureRouting.
  lemma PinStays(w: World, cfg: BypassConfig, gateway: Addr)
    requires Consistent(w) && ConfigOk(cfg) && w.tun.link.Some? && w.tun.endpoint.Some?
    requires EnsureRouting(w, cfg, Some(gateway)).1 && RouteGet(WithGateway(w, gateway), w.tun.endpoint.value).Some?
    ensures HostKey(w.tun.endpoint.value) in EnsureRouting(w, cfg, Some(gateway)).0.net.routes
  {
    var e := w.tun.endpoint.value;
    HostWellFormed(gateway);
    ReplaceRouteOk(w.net, HostKey(gateway), Hop(None, w.tun.link.value));
    RouteGetExists(WithGateway(w, gateway), e);
    MainTableAfter(w, cfg, gateway);
    assert SameAt(PinEndpoint(w.(net := WithGateway(w, gateway))).net.routes,
                  EnsureRouting(w, cfg, Some(gateway)).0.net.routes, HostKey(e));
  }

  // The main result. After every connection of every run, whatever others did
  // in between, the tunnel's own packets are routed and not into the tunnel,
  // provided there was a path to the endpoint to pin, nobody's rule passed for
  // the agent's local one, and nobody's early rule uses the tunnel's table.
  lemma EncryptedPacketsAvoidTunnel(w: World, cfg: BypassConfig, ops: seq<Op>, c: ServerConf)
    requires Consistent(w) && ConfigOk(cfg) && Allowed(w, cfg, ops)
    requires Connect(ApplyAll(w, cfg, ops), cfg, c).1
    requires c.remote.value.Some? && c.remote != Some(c.gateway)
    requires var p := ApplyAll(w, cfg, ops);
             && RouteGet(WithGateway(Up(p, c).0, c.gateway.value), c.remote.value.value).Some?
             && (forall r :: r in p.net.rules && Is(LocalKind, r) ==> r == LOCAL_RULE)
             && (forall r :: r in p.net.rules && r.priority <= LOCAL_PRIO ==> r.table != WG_TABLE)
    ensures var n := Connect(ApplyAll(w, cfg, ops), cfg, c).0.net;
            var hop := Lookup(n.rules, n.routes, c.remote.value.value, 0);
            hop.Some? && WG_NAME in n.links && hop.value.link != n.links[WG_NAME]
  {
    hide Lookup, Connect, Up, EnsureRouting, EnsureRules, NetnsOk;
    var p := ApplyAll(w, cfg, ops);
    RunConsistent(w, cfg, ops);
    ConnectConfined(p, cfg, c);
    ConnectIsRouted(p, cfg, c);
    UpFresh(p, c);
    var w1 := Up(p, c).0;
    PinStays(w1, cfg, c.gateway.value);
    RoutedRules(w1, cfg, c.gateway.value);
    var w' := Connect(p, cfg, c).0;
    SortedRules(w');
    PinnedEndpointAvoidsTunnel(w', c.remote.value.value, w'.net.links[WG_NAME], c.gateway.value);
  }

  lemma SortedRules(w: World)
    requires Consistent(w)
    ensures Sorted(w.net.rules)
  {
  }

  lemma RoutedRules(w: World, cfg: BypassConfig, gateway: Addr)
    requires w.tun.link.Some? && EnsureRouting(w, cfg, Some(gateway)).1
    requires forall r :: r in w.net.rules && Is(LocalKind, r) ==> r == LOCAL_RULE
    ensures var rules := EnsureRouting(w, cfg, Some(gateway)).0.net.rules;
            && LOCAL_RULE in rules
            && (forall r :: r in rules && r.priority <= LOCAL_PRIO ==>
                  r in w.net.rules || r == LOCAL_RULE || r == DISCOVERY_RULE)
  {
    hide EnsureRules;
    InstallsRoutesOnly(w, gateway);
    LocalRuleInstalled(InstallRoutes(w, gateway), cfg);
  }

  lemma InstallsRoutesOnly(w: World, gateway: Addr)
    requires w.tun.link.Some?
    ensures InstallRoutes(w, gateway).net.rules == w.net.rules
  {
  }

  // Without a path to pin it is the host's routes that decide: for every run
  // whose other rules leave these packets alone, they avoid the tunnel exactly
  // if there was a path, or a specific main-table route that leads nowhere.
  lemma EncryptedPacketsAvoidTunnelIff(w: World, cfg: BypassConfig, ops: seq<Op>, c: ServerConf)
    requires Consistent(w) && ConfigOk(cfg) && Allowed(w, cfg, ops)
    requires Connect(ApplyAll(w, cfg, ops), cfg, c).1
    requires c.remote.value.Some? && c.remote != Some(c.gateway)
    requires NoLookalikes(ApplyAll(w, cfg, ops).net.rules, cfg)
    requires var n := Connect(ApplyAll(w, cfg, ops), cfg, c).0.net;
             Undisturbed(n, cfg, c.remote.value.value, 0) && !Specific(n.routes, WG_TABLE, c.remote.value.value)
    ensures var p := ApplyAll(w, cfg, ops);
            var n, e := Connect(p, cfg, c).0.net, c.remote.value.value;
            var before := WithGateway(Up(p, c).0, c.gateway.value);
            Lookup(n.rules, n.routes, e, 0) != Some(Hop(None, p.net.nextIndex)) <==>
              RouteGet(before, e).Some? || Specific(before.routes, MAIN_TABLE, e)
  {
    hide Lookup, Connect, Up, EnsureRouting, NetnsOk, Specific, Intended;
    var p := ApplyAll(w, cfg, ops);
    RunConsistent(w, cfg, ops);
    ConnectIsRouted(p, cfg, c);
    UpFresh(p, c);
    var n, n' := Connect(p, cfg, c).0.net, EnsureRouting(Up(p, c).0, cfg, c.gateway).0.net;
    assert Undisturbed(n', cfg, c.remote.value.value, 0);
    EndpointAvoidsTunnelIff(Up(p, c).0, cfg, c.gateway.value);
  }
}
