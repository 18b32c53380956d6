// What a run of the agent leaves behind, and exactly when cleaning up restores
// the host.
module History {
  import opened Common
  import opened Fib
  import opened Rules
  import opened Netspace
  import opened Routing
  import opened NoLoop

  // --- The agent's rules on top of a host's ---------------------------------

  function Layer(rules: seq<Rule>, on: bool, r: Rule): seq<Rule> {
    if on then Insert(rules, r) else rules
  }

  // Which of the agent's rules are installed.
  datatype Installed = Installed(local: bool, default: bool, discovery: bool, bypass: bool)

  const NOTHING := Installed(false, false, false, false)

  function Everything(cfg: BypassConfig): Installed {
    Installed(true, true, true, cfg.Enabled())
  }

  function Layered(rules: seq<Rule>, cfg: BypassConfig, on: Installed): seq<Rule> {
    Layer(Layer(Layer(Layer(rules, on.local, LOCAL_RULE), on.default, DEFAULT_RULE),
                on.discovery, DISCOVERY_RULE), on.bypass, BypassRule(cfg))
  }

  // Nobody else's rule looks like one of the agent's or uses its tables.
  ghost predicate ForeignRules(rules: seq<Rule>, cfg: BypassConfig) {
    forall r :: r in rules ==>
      r.table != WG_TABLE && r.table != cfg.table && !Is(LocalKind, r) && !Is(DiscoveryKind, r)
  }

  lemma LayersCommute(rules: seq<Rule>, on: bool, a: Rule, b: Rule)
    requires a.priority != b.priority
    ensures Insert(Layer(rules, on, a), b) == Layer(Insert(rules, b), on, a)
  {
    InsertCommutes(rules, a, b);
  }

  lemma LayerMembers(rules: seq<Rule>, cfg: BypassConfig, on: Installed)
    requires Sorted(rules)
    ensures Sorted(Layered(rules, cfg, on))
    ensures forall r :: r in Layered(rules, cfg, on) <==>
      r in rules || (on.local && r == LOCAL_RULE) || (on.default && r == DEFAULT_RULE)
      || (on.discovery && r == DISCOVERY_RULE) || (on.bypass && r == BypassRule(cfg))
  {
    var r1 := Layer(rules, on.local, LOCAL_RULE);
    var r2 := Layer(r1, on.default, DEFAULT_RULE);
    var r3 := Layer(r2, on.discovery, DISCOVERY_RULE);
    InsertAdds(rules, LOCAL_RULE);
    InsertAdds(r1, DEFAULT_RULE);
    InsertAdds(r2, DISCOVERY_RULE);
    InsertAdds(r3, BypassRule(cfg));
  }

  // Whatever is installed, ensuring a rule installs it: the order in which the
  // agent's rules arrive leaves no trace. A missing rule passes below the later
  // layers.
  lemma EnsureLocalLayer(rules: seq<Rule>, cfg: BypassConfig, on: Installed)
    requires Sorted(rules) && ForeignRules(rules, cfg) && ConfigOk(cfg)
    ensures EnsureRule(Layered(rules, cfg, on), LocalKind, LOCAL_RULE) == Layered(rules, cfg, on.(local := true))
  {
    var r1 := Layer(rules, on.local, LOCAL_RULE);
    var r2 := Layer(r1, on.default, DEFAULT_RULE);
    LayerMembers(rules, cfg, on);
    FirstOfMeans(Layered(rules, cfg, on), LocalKind);
    LayersCommute(Layer(r2, on.discovery, DISCOVERY_RULE), on.bypass, BypassRule(cfg), LOCAL_RULE);
    LayersCommute(r2, on.discovery, DISCOVERY_RULE, LOCAL_RULE);
    LayersCommute(r1, on.default, DEFAULT_RULE, LOCAL_RULE);
  }

  lemma EnsureDefaultLayer(rules: seq<Rule>, cfg: BypassConfig, on: Installed)
    requires Sorted(rules) && ForeignRules(rules, cfg) && ConfigOk(cfg)
    ensures EnsureRule(Layered(rules, cfg, on), DefaultKind, DEFAULT_RULE) == Layered(rules, cfg, on.(default := true))
  {
    var r2 := Layer(Layer(rules, on.local, LOCAL_RULE), on.default, DEFAULT_RULE);
    LayerMembers(rules, cfg, on);
    FirstOfMeans(Layered(rules, cfg, on), DefaultKind);
    LayersCommute(Layer(r2, on.discovery, DISCOVERY_RULE), on.bypass, BypassRule(cfg), DEFAULT_RULE);
    LayersCommute(r2, on.discovery, DISCOVERY_RULE, DEFAULT_RULE);
  }

  lemma EnsureDiscoveryLayer(rules: seq<Rule>, cfg: BypassConfig, on: Installed)
    requires Sorted(rules) && ForeignRules(rules, cfg) && ConfigOk(cfg)
    ensures EnsureRule(Layered(rules, cfg, on), DiscoveryKind, DISCOVERY_RULE)
         == Layered(rules, cfg, on.(discovery := true))
  {
    var r3 := Layer(Layer(Layer(rules, on.local, LOCAL_RULE), on.default, DEFAULT_RULE), on.discovery, DISCOVERY_RULE);
    LayerMembers(rules, cfg, on);
    FirstOfMeans(Layered(rules, cfg, on), DiscoveryKind);
    LayersCommute(r3, on.bypass, BypassRule(cfg), DISCOVERY_RULE);
  }

  lemma EnsureBypassLayer(rules: seq<Rule>, cfg: BypassConfig, on: Installed)
    requires Sorted(rules) && ForeignRules(rules, cfg) && ConfigOk(cfg)
    ensures EnsureRule(Layered(rules, cfg, on), BypassKind(cfg), BypassRule(cfg))
         == Layered(rules, cfg, on.(bypass := true))
  {
    LayerMembers(rules, cfg, on);
    FirstOfMeans(Layered(rules, cfg, on), BypassKind(cfg));
  }

  // In front of rules that all come later, insertion goes to the front.
  lemma InsertFirst(rules: seq<Rule>, r: Rule)
    requires forall q :: q in rules ==> q.priority > r.priority
    ensures Insert(rules, r) == [r] + rules
  {
  }

  lemma {:induction false} RemoveFirstBelow(rules: seq<Rule>, r: Rule, kind: Kind)
    requires Sorted(rules) && !Is(kind, r)
    ensures RemoveFirst(Insert(rules, r), kind) == Insert(RemoveFirst(rules, kind), r)
  {
    if rules == [] || rules[0].priority > r.priority {
      assert ([r] + rules)[1..] == rules;
      RemovalMembers(rules, kind);
      assert forall q :: q in rules ==> q.priority > r.priority;
      InsertFirst(RemoveFirst(rules, kind), r);
    } else {
      assert Insert(rules, r) == [rules[0]] + Insert(rules[1..], r);
      assert Insert(rules, r)[0] == rules[0] && Insert(rules, r)[1..] == Insert(rules[1..], r);
      if !Is(kind, rules[0]) {
        RemoveFirstBelow(rules[1..], r, kind);
        assert RemoveFirst(rules, kind)[0] == rules[0];
        assert RemoveFirst(rules, kind)[1..] == RemoveFirst(rules[1..], kind);
      }
    }
  }

  lemma {:induction false} WithoutBelow(rules: seq<Rule>, r: Rule, kind: Kind)
    requires Sorted(rules) && !Is(kind, r)
    ensures Without(Insert(rules, r), kind) == Insert(Without(rules, kind), r)
  {
    if rules == [] || rules[0].priority > r.priority {
      assert ([r] + rules)[1..] == rules;
      RemovalMembers(rules, kind);
      assert forall q :: q in rules ==> q.priority > r.priority;
      InsertFirst(Without(rules, kind), r);
    } else {
      assert Insert(rules, r)[1..] == Insert(rules[1..], r);
      WithoutBelow(rules[1..], r, kind);
      assert ([rules[0]] + Without(rules[1..], kind))[1..] == Without(rules[1..], kind);
    }
  }

  lemma RemoveBelowLayer(rules: seq<Rule>, on: bool, r: Rule, kind: Kind)
    requires Sorted(rules) && !Is(kind, r)
    ensures RemoveFirst(Layer(rules, on, r), kind) == Layer(RemoveFirst(rules, kind), on, r)
    ensures Without(Layer(rules, on, r), kind) == Layer(Without(rules, kind), on, r)
  {
    RemoveFirstBelow(rules, r, kind);
    WithoutBelow(rules, r, kind);
  }

  lemma RemoveLayer(rules: seq<Rule>, on: bool, r: Rule, kind: Kind)
    requires Is(kind, r) && forall q :: q in rules ==> !Is(kind, q)
    ensures RemoveFirst(Layer(rules, on, r), kind) == rules && Without(Layer(rules, on, r), kind) == rules
  {
    FirstOfMeans(rules, kind);
    RemoveUndoesInsert(rules, r, kind);
  }

  // Deleting the agent's rules gives the host's list back, order included.
  lemma DelRulesRestores(w: World, cfg: BypassConfig, rules: seq<Rule>, on: Installed)
    requires Sorted(rules) && ForeignRules(rules, cfg) && ConfigOk(cfg)
    requires w.net.rules == Layered(rules, cfg, on)
    ensures DelRules(w, cfg).net.rules == rules
  {
    var r1 := Layer(rules, on.local, LOCAL_RULE);
    var r2 := Layer(r1, on.default, DEFAULT_RULE);
    var r3 := Layer(r2, on.discovery, DISCOVERY_RULE);
    var bypass := BypassRule(cfg);
    LayerMembers(rules, cfg, on.(default := false, discovery := false, bypass := false));
    LayerMembers(rules, cfg, on.(discovery := false, bypass := false));
    LayerMembers(rules, cfg, on.(bypass := false));
    RemoveBelowLayer(r3, on.bypass, bypass, LocalKind);
    RemoveBelowLayer(r2, on.discovery, DISCOVERY_RULE, LocalKind);
    RemoveBelowLayer(r1, on.default, DEFAULT_RULE, LocalKind);
    RemoveLayer(rules, on.local, LOCAL_RULE, LocalKind);
    var s2 := Layer(rules, on.default, DEFAULT_RULE);
    var s3 := Layer(s2, on.discovery, DISCOVERY_RULE);
    LayerMembers(rules, cfg, Installed(false, on.default, false, false));
    LayerMembers(rules, cfg, Installed(false, on.default, on.discovery, false));
    RemoveBelowLayer(s3, on.bypass, bypass, DefaultKind);
    RemoveBelowLayer(s2, on.discovery, DISCOVERY_RULE, DefaultKind);
    RemoveLayer(rules, on.default, DEFAULT_RULE, DefaultKind);
    var t3 := Layer(rules, on.discovery, DISCOVERY_RULE);
    LayerMembers(rules, cfg, Installed(false, false, on.discovery, false));
    RemoveLayer(t3, on.bypass, bypass, BypassIn(cfg.table));
    RemoveLayer(rules, on.discovery, DISCOVERY_RULE, DiscoveryKind);
  }

  // --- Hosts and runs ------------------------------------------------------

  // A host the agent has not touched, whose owner keeps off the agent's tables,
  // link and masquerade rule.
  ghost predicate Untouched(f: Netns, cfg: BypassConfig) {
    && NetnsOk(f) && f.nextIndex > 0
    && ForeignRules(f.rules, cfg)
    && (forall k :: k in f.routes ==> k.table != WG_TABLE && k.table != cfg.table)
    && WG_NAME !in f.links && WG_MASQUERADE !in f.postrouting
  }

  const NEW_TUNNEL := Tun(None, None, None, 0, false)

  ghost predicate OwnOps(ops: seq<Op>) {
    forall i :: 0 <= i < |ops| ==> !ops[i].Foreign?
  }

  lemma {:induction false} OwnIsAllowed(w: World, cfg: BypassConfig, ops: seq<Op>)
    requires OwnOps(ops)
    ensures Allowed(w, cfg, ops)
  {
    if ops != [] {
      OwnIsAllowed(w, cfg, ops[..|ops| - 1]);
    }
  }

  // What the agent may have left on a host, whatever servers it was sent to:
  // some of its rules, its link, its masquerade rule, its two defaults, and any
  // host routes in the main table.
  ghost predicate Leftover(f: Netns, cfg: BypassConfig, w: World, on: Installed) {
    && Consistent(w)
    && w.net.rules == Layered(f.rules, cfg, on) && (on == NOTHING.(discovery := on.discovery) || on == Everything(cfg))
    && LeftoverRoutes(f, cfg, w)
    && LeftoverLink(f, w.net)
    && (w.net.postrouting == f.postrouting || w.net.postrouting == [WG_MASQUERADE] + f.postrouting)
  }

  predicate IsHostRoute(k: Key) {
    k.table == MAIN_TABLE && k.dst.len == 32
  }

  ghost predicate LeftoverRoutes(f: Netns, cfg: BypassConfig, w: World) {
    && (forall k :: !IsHostRoute(k) && k != DEFAULT_KEY && k != BypassKey(cfg) ==> SameAt(f.routes, w.net.routes, k))
    && (DEFAULT_KEY in w.net.routes ==> OnTunnel(w, DEFAULT_KEY))
  }

  // At most one link more, with the index and the addresses of one.
  ghost predicate LeftoverLink(f: Netns, n: Netns) {
    && n.nextIndex >= f.nextIndex
    && n.links - {WG_NAME} == f.links && (WG_NAME in n.links ==> n.links[WG_NAME] >= f.nextIndex)
    && (forall p :: p in f.addrs ==> p in n.addrs)
    && (forall p :: p in n.addrs && p !in f.addrs ==> WG_NAME in n.links && n.links[WG_NAME] == p.0)
  }

  ghost predicate OnTunnel(w: World, k: Key) {
    k in w.net.routes && WG_NAME in w.net.links && w.net.routes[k].link == w.net.links[WG_NAME]
  }

  lemma NewTunnelLeftover(f: Netns, cfg: BypassConfig)
    requires Untouched(f, cfg)
    ensures Leftover(f, cfg, World(f, NEW_TUNNEL), NOTHING)
  {
    assert f.links - {WG_NAME} == f.links;
  }

  // Recreating the link flushes exactly the routes to the old one.
  lemma FlushShape(w: World)
    requires Consistent(w)
    ensures var w1 := NewWgLink(w);
            && (forall k :: k in w1.net.routes <==> k in w.net.routes && !OnTunnel(w, k))
            && (forall k :: k in w1.net.routes ==> w1.net.routes[k] == w.net.routes[k])
            && (forall k :: !OnTunnel(w1, k))
  {
    NewWgLinkFresh(w);
  }

  lemma RoutesAfterFlush(f: Netns, cfg: BypassConfig, w: World)
    requires NetnsOk(f) && Consistent(w) && LeftoverRoutes(f, cfg, w) && LeftoverLink(f, w.net)
    ensures LeftoverRoutes(f, cfg, NewWgLink(w))
  {
    FlushShape(w);
    var w1 := NewWgLink(w);
    forall k | !IsHostRoute(k) && k != DEFAULT_KEY && k != BypassKey(cfg) ensures SameAt(f.routes, w1.net.routes, k) {
      assert SameAt(f.routes, w.net.routes, k);
      assert k in f.routes ==> f.routes[k].link == 0 || LinkExists(f, f.routes[k].link);
    }
  }

  // The new link: the old one's routes and addresses are gone.
  lemma LinkAfterFlush(f: Netns, w: World)
    requires NetnsOk(f) && NetnsOk(w.net) && LeftoverLink(f, w.net) && WG_NAME !in f.links
    ensures var w1 := NewWgLink(w);
            && LeftoverLink(f, w1.net)
            && w1.net.links == f.links[WG_NAME := w.net.nextIndex] && w1.net.addrs == f.addrs
  {
    var w1 := NewWgLink(w);
    assert w1.net.links - {WG_NAME} == f.links;
    forall p: (nat, Addr) ensures p in w1.net.addrs <==> p in f.addrs {
      assert p in f.addrs ==> LinkExists(f, p.0);
    }
    assert w1.net.addrs == f.addrs;
  }

  lemma NewLinkLeftover(f: Netns, cfg: BypassConfig, w: World, on: Installed)
    requires Untouched(f, cfg) && Leftover(f, cfg, w, on)
    ensures Leftover(f, cfg, NewWgLink(w), on)
  {
    NewWgLinkFresh(w);
    RoutesAfterFlush(f, cfg, w);
    LinkAfterFlush(f, w);
  }

  // Up sets the endpoint and the tunnel's address on the new link.
  lemma UpShape(f: Netns, w: World, c: ServerConf)
    requires NetnsOk(f) && Consistent(w) && LeftoverLink(f, w.net) && WG_NAME !in f.links
    ensures var w1 := Up(w, c).0;
            && w1.net == NewWgLink(w).net.(addrs := w1.net.addrs)
            && (Up(w, c).1 <==> c.remote.Some? && c.keyOk && c.deviceOk && c.peer.Some?)
            && w1.net.links == f.links[WG_NAME := w.net.nextIndex]
            && w1.net.nextIndex == w.net.nextIndex + 1
            && w1.net.addrs == (if Up(w, c).1 then f.addrs + {(w.net.nextIndex, c.peer.value)} else f.addrs)
            && w1.tun == w.tun.(link := Some(w.net.nextIndex),
                                endpoint := if c.remote.Some? then c.remote.value else w.tun.endpoint)
  {
    LinkAfterFlush(f, w);
  }

  lemma UpLeftover(f: Netns, cfg: BypassConfig, w: World, c: ServerConf, on: Installed)
    requires Untouched(f, cfg) && Leftover(f, cfg, w, on)
    ensures Leftover(f, cfg, Up(w, c).0, on)
  {
    NewLinkLeftover(f, cfg, w, on);
    UpShape(f, w, c);
    UpFresh(w, c);
    LinkAfterFlush(f, w);
    assert LeftoverRoutes(f, cfg, Up(w, c).0);
  }

  lemma EnsureRulesLayers(w: World, cfg: BypassConfig, rules: seq<Rule>, on: Installed)
    requires Sorted(rules) && ForeignRules(rules, cfg) && ConfigOk(cfg)
    requires w.net.rules == Layered(rules, cfg, on) && (on.bypass ==> cfg.Enabled())
    ensures EnsureRules(w, cfg).net.rules == Layered(rules, cfg, Everything(cfg))
  {
    var on1 := on.(local := true);
    var on2 := on1.(default := true);
    var on3 := on2.(discovery := true);
    EnsureLocalLayer(rules, cfg, on);
    EnsureDefaultLayer(rules, cfg, on1);
    EnsureDiscoveryLayer(rules, cfg, on2);
    EnsureBypassLayer(rules, cfg, on3);
    var w3 := w.(net := EnsureThree(w.net));
    assert w3.net.rules == Layered(rules, cfg, on3);
    assert EnsureRules(w, cfg) == EnsureBypass(w3, cfg);
    BypassTouches(w3, cfg);
  }

  // What EnsureRouting leaves alone, and the default it installs.
  lemma EnsureRoutingShape(w: World, cfg: BypassConfig, gateway: Addr)
    requires ConfigOk(cfg) && w.tun.link.Some? && EnsureRouting(w, cfg, Some(gateway)).1
    ensures var w' := EnsureRouting(w, cfg, Some(gateway)).0;
            && w'.net == w.net.(rules := w'.net.rules, routes := w'.net.routes)
            && w'.tun.link == w.tun.link && w'.tun.endpoint == w.tun.endpoint
            && DEFAULT_KEY in w'.net.routes && w'.net.routes[DEFAULT_KEY] == Hop(None, w.tun.link.value)
  {
    var w2 := InstallRoutes(w, gateway);
    InstallsDefault(w, gateway);
    PinKeepsLinks(w.(net := WithGateway(w, gateway)));
    var w3 := w2.(net := EnsureThree(w2.net));
    assert EnsureRules(w2, cfg) == EnsureBypass(w3, cfg);
    BypassTouches(w3, cfg);
    assert SameAt(w3.net.routes, EnsureRules(w2, cfg).net.routes, DEFAULT_KEY);
  }

  lemma RoutedLeftover(f: Netns, cfg: BypassConfig, w: World, gateway: Addr, on: Installed)
    requires Untouched(f, cfg) && ConfigOk(cfg) && Leftover(f, cfg, w, on)
    requires w.tun.link.Some? && LinkIndex(w.net, WG_NAME) == w.tun.link
    requires EnsureRouting(w, cfg, Some(gateway)).1
    ensures Leftover(f, cfg, EnsureRouting(w, cfg, Some(gateway)).0, Everything(cfg))
  {
    var w' := EnsureRouting(w, cfg, Some(gateway)).0;
    EnsureRoutingShape(w, cfg, gateway);
    EnsureRoutingConsistent(w, cfg, gateway);
    RoutesFrame(w, cfg, gateway);
    InstallsDefault(w, gateway);
    EnsureRulesLayers(InstallRoutes(w, gateway), cfg, f.rules, on);
    RoutedRoutesLeftover(f, cfg, w, w', gateway);
  }

  lemma RoutedRoutesLeftover(f: Netns, cfg: BypassConfig, w: World, w': World, gateway: Addr)
    requires LeftoverRoutes(f, cfg, w)
    requires forall k :: k != HostKey(gateway) && k != DEFAULT_KEY && k != BypassKey(cfg)
                         && (w.tun.endpoint.Some? ==> k != HostKey(w.tun.endpoint.value))
                         ==> SameAt(w.net.routes, w'.net.routes, k)
    requires w'.net.links == w.net.links && w.tun.link.Some? && LinkIndex(w.net, WG_NAME) == w.tun.link
    requires DEFAULT_KEY in w'.net.routes && w'.net.routes[DEFAULT_KEY] == Hop(None, w.tun.link.value)
    ensures LeftoverRoutes(f, cfg, w')
  {
    forall k | !IsHostRoute(k) && k != DEFAULT_KEY && k != BypassKey(cfg) ensures SameAt(f.routes, w'.net.routes, k) {
      assert SameAt(f.routes, w.net.routes, k);
      assert SameAt(w.net.routes, w'.net.routes, k);
    }
  }

  lemma ConnectSteps(w: World, cfg: BypassConfig, c: ServerConf)
    ensures var (w1, up) := Up(w, c);
            if up && c.gateway.Some? then
              var (w2, routed) := EnsureRouting(w1, cfg, c.gateway);
              && (!routed ==> w2 == w1)
              && Connect(w, cfg, c) ==
                   if routed && c.natOk then (w2.(net := EnsureMasquerade(w2.net)), true) else (w2, false)
            else Connect(w, cfg, c) == (w1, false)
    ensures Up(w, c).0.tun.link == Some(w.net.nextIndex)
    ensures LinkIndex(Up(w, c).0.net, WG_NAME) == Some(w.net.nextIndex)
  {
  }

  lemma ConnectingLeftover(f: Netns, cfg: BypassConfig, w: World, c: ServerConf, on: Installed) returns (on': Installed)
    requires Untouched(f, cfg) && ConfigOk(cfg) && Leftover(f, cfg, w, on)
    ensures Leftover(f, cfg, Connect(w, cfg, c).0, on')
    ensures on' == if GetsRouted(w, cfg, c) then Everything(cfg) else on
  {
    hide Leftover, Connect, EnsureRouting;
    var w1 := Up(w, c).0;
    UpLeftover(f, cfg, w, c, on);
    ConnectSteps(w, cfg, c);
    on' := on;
    if GetsRouted(w, cfg, c) {
      GatewayGiven(w1, cfg, c);
      RoutedLeftover(f, cfg, w1, c.gateway.value, on);
      on' := Everything(cfg);
      var w2 := EnsureRouting(w1, cfg, c.gateway).0;
      MasqueradeLeftover(f, cfg, w2, on');
    }
  }

  lemma GatewayGiven(w: World, cfg: BypassConfig, c: ServerConf)
    requires w.tun.link.Some? && EnsureRouting(w, cfg, c.gateway).1
    ensures c.gateway.Some? && HostKey(c.gateway.value) !in w.net.routes && LinkExists(w.net, w.tun.link.value)
  {
  }

  lemma MasqueradeLeftover(f: Netns, cfg: BypassConfig, w: World, on: Installed)
    requires Untouched(f, cfg) && Leftover(f, cfg, w, on)
    ensures Leftover(f, cfg, w.(net := EnsureMasquerade(w.net)), on)
    ensures EnsureMasquerade(w.net) == w.net.(postrouting := [WG_MASQUERADE] + f.postrouting)
  {
    assert LeftoverRoutes(f, cfg, w.(net := EnsureMasquerade(w.net)));
  }

  lemma CleaningLeftover(f: Netns, cfg: BypassConfig, w: World, on: Installed)
    requires Untouched(f, cfg) && ConfigOk(cfg) && Leftover(f, cfg, w, on)
    ensures Leftover(f, cfg, Cleanup(w, cfg), NOTHING)
  {
    var w' := Cleanup(w, cfg);
    CleanupShape(w, cfg);
    CleanupConsistent(w, cfg);
    DelRulesRestores(w, cfg, f.rules, on);
    NatRestored(f.postrouting);
    assert ([WG_MASQUERADE] + f.postrouting)[1..] == f.postrouting;
    AddrsRestored(f, w);
    assert f.links - {WG_NAME} == f.links;
    forall k | !IsHostRoute(k) && k != DEFAULT_KEY && k != BypassKey(cfg) ensures SameAt(f.routes, w'.net.routes, k) {
      assert SameAt(f.routes, w.net.routes, k);
      assert k in f.routes ==> f.routes[k].link == 0 || LinkExists(f, f.routes[k].link);
    }
  }

  lemma CheckingLeftover(f: Netns, cfg: BypassConfig, w: World, on: Installed)
    requires Leftover(f, cfg, w, on)
    ensures Leftover(f, cfg, IsUp(w, cfg).0, on)
  {
    assert LeftoverRoutes(f, cfg, IsUp(w, cfg).0);
  }

  lemma DiscoveringLeftover(f: Netns, cfg: BypassConfig, w: World, on: Installed)
    requires Untouched(f, cfg) && ConfigOk(cfg) && Leftover(f, cfg, w, on)
    ensures Leftover(f, cfg, w.(net := EnsureDiscovery(w.net)), on.(discovery := true))
  {
    EnsureDiscoveryLayer(f.rules, cfg, on);
    EnsureInstallsIff(w.net.rules, DiscoveryKind, DISCOVERY_RULE);
    RulesChangeOk(w.net, EnsureDiscovery(w.net).rules);
    assert LeftoverRoutes(f, cfg, w.(net := EnsureDiscovery(w.net)));
  }

  lemma OneMoreOp(f: Netns, cfg: BypassConfig, w: World, op: Op, on: Installed) returns (on': Installed)
    requires Untouched(f, cfg) && ConfigOk(cfg) && Leftover(f, cfg, w, on) && !op.Foreign?
    ensures Leftover(f, cfg, Apply(w, cfg, op), on')
  {
    match op
    case Connecting(c) => on' := ConnectingLeftover(f, cfg, w, c, on);
    case Cleaning => CleaningLeftover(f, cfg, w, on); on' := NOTHING;
    case Checking => CheckingLeftover(f, cfg, w, on); on' := on;
    case Discovering => DiscoveringLeftover(f, cfg, w, on); on' := on.(discovery := true);
  }

  // Any run at all of the agent's operations leaves no more than that.
  lemma {:induction false} RunLeftover(f: Netns, cfg: BypassConfig, ops: seq<Op>) returns (on: Installed)
    requires Untouched(f, cfg) && ConfigOk(cfg) && OwnOps(ops)
    ensures Leftover(f, cfg, ApplyAll(World(f, NEW_TUNNEL), cfg, ops), on)
  {
    if ops == [] {
      NewTunnelLeftover(f, cfg);
      on := NOTHING;
    } else {
      var front, op := ops[..|ops| - 1], ops[|ops| - 1];
      on := RunLeftover(f, cfg, front);
      on := OneMoreOp(f, cfg, ApplyAll(World(f, NEW_TUNNEL), cfg, front), op, on);
    }
  }

  // --- Round trip ----------------------------------------------------------

  lemma {:induction false} NatRestored(rules: seq<NatRule>)
    requires WG_MASQUERADE !in rules
    ensures RemoveFirstNat(rules, WG_MASQUERADE) == rules
  {
    if rules != [] {
      NatRestored(rules[1..]);
    }
  }

  // The routes a cleanup deletes or flushes.
  ghost predicate Flushed(w: World, cfg: BypassConfig, k: Key) {
    k == BypassKey(cfg) || OnTunnel(w, k) || (w.tun.endpoint.Some? && k == HostKey(w.tun.endpoint.value))
  }

  lemma CleanupShape(w: World, cfg: BypassConfig)
    requires ConfigOk(cfg)
    ensures var n := Cleanup(w, cfg).net;
            && (forall k :: k in n.routes <==> k in w.net.routes && !Flushed(w, cfg, k))
            && (forall k :: k in n.routes ==> n.routes[k] == w.net.routes[k])
            && n.links == w.net.links - {WG_NAME} && n.nextIndex == w.net.nextIndex
            && n.rules == DelRules(w, cfg).net.rules
            && (forall p :: p in n.addrs <==>
                p in w.net.addrs && !(WG_NAME in w.net.links && p.0 == w.net.links[WG_NAME]))
            && n.postrouting == RemoveFirstNat(w.net.postrouting, WG_MASQUERADE)
  {
  }

  lemma AddrsRestored(f: Netns, w: World)
    requires NetnsOk(f) && LeftoverLink(f, w.net)
    ensures forall p :: p in f.addrs <==> p in w.net.addrs && !(WG_NAME in w.net.links && p.0 == w.net.links[WG_NAME])
  {
    assert forall p :: p in f.addrs ==> LinkExists(f, p.0);
  }

  // Every host route but the endpoint's is as the host's owner left it, and the
  // endpoint's is the agent's.
  ghost predicate HostRoutesIntact(f: Netns, w: World) {
    && (w.tun.endpoint.Some? ==> HostKey(w.tun.endpoint.value) !in f.routes)
    && (forall a: Addr :: w.tun.endpoint != Some(a) ==> HostRouteIntact(f, w, HostKey(a)))
  }

  ghost predicate HostRouteIntact(f: Netns, w: World, k: Key) {
    if k in f.routes then k in w.net.routes && f.routes[k] == w.net.routes[k]
    else k in w.net.routes ==> OnTunnel(w, k)
  }

  // From anything the agent may have left, Cleanup on the live tunnel restores
  // the host - rules in order, routes of every table, links, addresses and
  // masquerading; only the link counter has moved - exactly if the main table's
  // host routes are intact.
  lemma CleanupRestoresIff(f: Netns, cfg: BypassConfig, w: World, on: Installed)
    requires Untouched(f, cfg) && ConfigOk(cfg) && Leftover(f, cfg, w, on)
    ensures Cleanup(w, cfg).net == f.(nextIndex := w.net.nextIndex) <==> HostRoutesIntact(f, w)
  {
    hide Cleanup, NetnsOk;
    var n := Cleanup(w, cfg).net;
    CleanupShape(w, cfg);
    CleaningLeftover(f, cfg, w, on);
    AddrsRestored(f, w);
    assert n.addrs == f.addrs;
    NatRestored(f.postrouting);
    assert ([WG_MASQUERADE] + f.postrouting)[1..] == f.postrouting;
    assert n == f.(nextIndex := w.net.nextIndex, routes := n.routes);
    if HostRoutesIntact(f, w) {
      forall k ensures SameAt(f.routes, n.routes, k) {
        RouteRestored(f, cfg, w, k);
      }
      assert n.routes == f.routes by {
        assert forall k :: k in n.routes ==> SameAt(f.routes, n.routes, k);
        assert forall k :: k in f.routes ==> SameAt(f.routes, n.routes, k);
      }
    } else {
      DamageStays(f, cfg, w);
    }
  }

  lemma DamageStays(f: Netns, cfg: BypassConfig, w: World)
    requires ConfigOk(cfg) && !HostRoutesIntact(f, w)
    ensures Cleanup(w, cfg).net.routes != f.routes
  {
    hide Cleanup;
    CleanupShape(w, cfg);
    var n := Cleanup(w, cfg).net;
    if w.tun.endpoint.Some? && HostKey(w.tun.endpoint.value) in f.routes {
      assert HostKey(w.tun.endpoint.value) !in n.routes;
    } else {
      var a: Addr :| w.tun.endpoint != Some(a) && !HostRouteIntact(f, w, HostKey(a));
      assert !SameAt(f.routes, n.routes, HostKey(a));
    }
  }

  lemma RouteRestored(f: Netns, cfg: BypassConfig, w: World, k: Key)
    requires Untouched(f, cfg) && ConfigOk(cfg) && LeftoverRoutes(f, cfg, w) && HostRoutesIntact(f, w)
    requires LeftoverLink(f, w.net)
    ensures SameAt(f.routes, Cleanup(w, cfg).net.routes, k)
  {
    hide Cleanup;
    CleanupShape(w, cfg);
    assert k in f.routes ==> f.routes[k].link == 0 || LinkExists(f, f.routes[k].link);
    if IsHostRoute(k) {
      assert k == HostKey(k.dst.net);
      assert w.tun.endpoint != Some(k.dst.net) ==> HostRouteIntact(f, w, k);
    } else if k != DEFAULT_KEY && k != BypassKey(cfg) {
      assert SameAt(f.routes, w.net.routes, k);
    }
  }

  // Round trip: after any run, to any servers, failed connections included.
  lemma RoundTripIff(f: Netns, cfg: BypassConfig, ops: seq<Op>)
    requires Untouched(f, cfg) && ConfigOk(cfg) && OwnOps(ops)
    ensures var w := ApplyAll(World(f, NEW_TUNNEL), cfg, ops);
            Cleanup(w, cfg).net == f.(nextIndex := w.net.nextIndex) <==> HostRoutesIntact(f, w)
  {
    var on := RunLeftover(f, cfg, ops);
    CleanupRestoresIff(f, cfg, ApplyAll(World(f, NEW_TUNNEL), cfg, ops), on);
  }

  // --- Pins ----------------------------------------------------------------

  // Will this connection pin its endpoint? It gets as far as its routes, and
  // there is a path to the endpoint that is not the new tunnel.
  predicate Pins(w: World, cfg: BypassConfig, c: ServerConf) {
    GetsRouted(w, cfg, c) && c.remote.value.Some? &&
    var path := RouteGet(WithGateway(Up(w, c).0, c.gateway.value), c.remote.value.value);
    path.Some? && path.value.link != w.net.nextIndex
  }

  function EndpointAfter(ops: seq<Op>): Option<Addr> {
    if ops == [] then None
    else
      var op := ops[|ops| - 1];
      if op.Connecting? && op.c.remote.Some? then op.c.remote.value else EndpointAfter(ops[..|ops| - 1])
  }

  // The endpoints pinned and not cleaned up since: a cleanup takes only the
  // current one.
  function Pinned(f: Netns, cfg: BypassConfig, ops: seq<Op>): set<Addr> {
    if ops == [] then {}
    else
      var front, op := ops[..|ops| - 1], ops[|ops| - 1];
      match op
      case Connecting(c) =>
        if Pins(ApplyAll(World(f, NEW_TUNNEL), cfg, front), cfg, c)
        then Pinned(f, cfg, front) + {c.remote.value.value} else Pinned(f, cfg, front)
      case Cleaning =>
        if EndpointAfter(front).Some? then Pinned(f, cfg, front) - {EndpointAfter(front).value}
        else Pinned(f, cfg, front)
      case _ => Pinned(f, cfg, front)
  }

  // The host has no host route of its own to the server's address.
  ghost predicate NoOwnRoute(f: Netns, c: ServerConf) {
    c.remote.Some? && c.remote.value.Some? ==> HostKey(c.remote.value.value) !in f.routes
  }

  ghost predicate NoOwnRoutes(f: Netns, ops: seq<Op>) {
    forall i :: 0 <= i < |ops| && ops[i].Connecting? ==> NoOwnRoute(f, ops[i].c)
  }

  // The host's own host routes are untouched, and the agent's are the pinned
  // ones and those on its link.
  ghost predicate HostRoutesAre(f: Netns, w: World, pinned: set<Addr>) {
    forall a: Addr ::
      if HostKey(a) in f.routes then SameAt(f.routes, w.net.routes, HostKey(a)) && a !in pinned
      else a in pinned <==> HostKey(a) in w.net.routes && !OnTunnel(w, HostKey(a))
  }

  lemma UpHostRoutes(f: Netns, w: World, c: ServerConf, pinned: set<Addr>)
    requires NetnsOk(f) && Consistent(w) && LeftoverLink(f, w.net) && WG_NAME !in f.links && HostRoutesAre(f, w, pinned)
    ensures HostRoutesAre(f, Up(w, c).0, pinned)
  {
    FlushShape(w);
    UpShape(f, w, c);
    var w1 := Up(w, c).0;
    assert forall k :: !OnTunnel(w1, k);
    forall a: Addr
      ensures if HostKey(a) in f.routes then SameAt(f.routes, w1.net.routes, HostKey(a)) && a !in pinned
              else a in pinned <==> HostKey(a) in w1.net.routes && !OnTunnel(w1, HostKey(a))
    {
      var k := HostKey(a);
      assert k in f.routes ==> f.routes[k].link == 0 || LinkExists(f, f.routes[k].link);
    }
  }

  // The path to an address other than the gateway is never the new tunnel.
  lemma PathAvoidsNewLink(w: World, gateway: Addr, e: Addr)
    requires Consistent(w) && w.tun.link.Some? && Unused(w, w.tun.link.value)
    requires var path := RouteGet(WithGateway(w, gateway), e);
             path.Some? && path.value.link == w.tun.link.value
    ensures e == gateway
  {
    var k := SelectedRoute(WithGateway(w, gateway), e, 0);
    HostCovers(e, e);
  }

  // The main table's host routes after EnsureRouting.
  lemma RoutedHostRoute(w: World, cfg: BypassConfig, gateway: Addr, a: Addr)
    requires Consistent(w) && ConfigOk(cfg) && w.tun.link.Some? && EnsureRouting(w, cfg, Some(gateway)).1
    ensures var before, routes := WithGateway(w, gateway), EnsureRouting(w, cfg, Some(gateway)).0.net.routes;
            if w.tun.endpoint == Some(a) && RouteGet(before, a).Some?
            then HostKey(a) in routes && routes[HostKey(a)] == RouteGet(before, a).value
            else SameAt(before.routes, routes, HostKey(a))
  {
    var before := WithGateway(w, gateway);
    MainTableAfter(w, cfg, gateway);
    HostWellFormed(gateway);
    ReplaceRouteOk(w.net, HostKey(gateway), Hop(None, w.tun.link.value));
    if w.tun.endpoint.Some? && RouteGet(before, w.tun.endpoint.value).Some? {
      RouteGetExists(before, w.tun.endpoint.value);
    }
    assert SameAt(PinEndpoint(w.(net := before)).net.routes,
                  EnsureRouting(w, cfg, Some(gateway)).0.net.routes, HostKey(a));
  }

  lemma RoutedHostRoutes(f: Netns, cfg: BypassConfig, w: World, gateway: Addr, pinned: set<Addr>)
    requires Consistent(w) && ConfigOk(cfg) && w.tun.link.Some? && Unused(w, w.tun.link.value)
    requires LinkIndex(w.net, WG_NAME) == w.tun.link && EnsureRouting(w, cfg, Some(gateway)).1
    requires HostRoutesAre(f, w, pinned) && (w.tun.endpoint.Some? ==> HostKey(w.tun.endpoint.value) !in f.routes)
    ensures var path := if w.tun.endpoint.None? then None else RouteGet(WithGateway(w, gateway), w.tun.endpoint.value);
            HostRoutesAre(f, EnsureRouting(w, cfg, Some(gateway)).0,
              if path.Some? && path.value.link != w.tun.link.value then pinned + {w.tun.endpoint.value} else pinned)
  {
    hide RouteGet, EnsureRouting;
    var w' := EnsureRouting(w, cfg, Some(gateway)).0;
    EnsureRoutingShape(w, cfg, gateway);
    GatewayMissing(w, cfg, gateway);
    var path := if w.tun.endpoint.None? then None else RouteGet(WithGateway(w, gateway), w.tun.endpoint.value);
    var pinned' := if path.Some? && path.value.link != w.tun.link.value
                   then pinned + {w.tun.endpoint.value} else pinned;
    forall a: Addr
      ensures if HostKey(a) in f.routes then SameAt(f.routes, w'.net.routes, HostKey(a)) && a !in pinned'
              else a in pinned' <==> HostKey(a) in w'.net.routes && !OnTunnel(w', HostKey(a))
    {
      var k := HostKey(a);
      RoutedHostRoute(w, cfg, gateway, a);
      assert k in f.routes ==> SameAt(f.routes, w.net.routes, k);
      if w.tun.endpoint == Some(a) && path.Some? && path.value.link == w.tun.link.value {
        PathAvoidsNewLink(w, gateway, a);
      }
    }
  }

  lemma GatewayMissing(w: World, cfg: BypassConfig, gateway: Addr)
    requires w.tun.link.Some? && EnsureRouting(w, cfg, Some(gateway)).1
    ensures HostKey(gateway) !in w.net.routes && LinkExists(w.net, w.tun.link.value)
    ensures WithGateway(w, gateway).routes == w.net.routes[HostKey(gateway) := Hop(None, w.tun.link.value)]
  {
  }

  lemma ConnectingHostRoutes(f: Netns, cfg: BypassConfig, w: World, c: ServerConf, on: Installed, pinned: set<Addr>)
    requires Untouched(f, cfg) && ConfigOk(cfg) && Leftover(f, cfg, w, on)
    requires HostRoutesAre(f, w, pinned) && NoOwnRoute(f, c)
    ensures HostRoutesAre(f, Connect(w, cfg, c).0, if Pins(w, cfg, c) then pinned + {c.remote.value.value} else pinned)
  {
    hide Connect, EnsureRouting, HostRoutesAre, RouteGet, NetnsOk;
    var w1 := Up(w, c).0;
    UpHostRoutes(f, w, c, pinned);
    UpShape(f, w, c);
    UpFresh(w, c);
    ConnectSteps(w, cfg, c);
    if GetsRouted(w, cfg, c) {
      GatewayGiven(w1, cfg, c);
      RoutedHostRoutes(f, cfg, w1, c.gateway.value, pinned);
      var w2 := EnsureRouting(w1, cfg, c.gateway).0;
      var pinned' := if Pins(w, cfg, c) then pinned + {c.remote.value.value} else pinned;
      assert HostRoutesAre(f, w2, pinned');
      HostRoutesOnly(f, w2, EnsureMasquerade(w2.net), pinned');
    }
  }

  lemma HostRoutesOnly(f: Netns, w: World, n: Netns, pinned: set<Addr>)
    requires HostRoutesAre(f, w, pinned) && n.routes == w.net.routes && n.links == w.net.links
    ensures HostRoutesAre(f, w.(net := n), pinned)
  {
    forall a: Addr
      ensures if HostKey(a) in f.routes then SameAt(f.routes, n.routes, HostKey(a)) && a !in pinned
              else a in pinned <==> HostKey(a) in n.routes && !OnTunnel(w.(net := n), HostKey(a))
    {
      assert OnTunnel(w, HostKey(a)) <==> OnTunnel(w.(net := n), HostKey(a));
    }
  }

  lemma CleaningHostRoutes(f: Netns, cfg: BypassConfig, w: World, on: Installed, pinned: set<Addr>)
    requires Untouched(f, cfg) && ConfigOk(cfg) && Leftover(f, cfg, w, on) && HostRoutesAre(f, w, pinned)
    requires w.tun.endpoint.Some? ==> HostKey(w.tun.endpoint.value) !in f.routes
    ensures HostRoutesAre(f, Cleanup(w, cfg), if w.tun.endpoint.Some? then pinned - {w.tun.endpoint.value} else pinned)
  {
    hide Cleanup;
    CleanupShape(w, cfg);
    var w' := Cleanup(w, cfg);
    var pinned' := if w.tun.endpoint.Some? then pinned - {w.tun.endpoint.value} else pinned;
    forall a: Addr
      ensures if HostKey(a) in f.routes then SameAt(f.routes, w'.net.routes, HostKey(a)) && a !in pinned'
              else a in pinned' <==> HostKey(a) in w'.net.routes && !OnTunnel(w', HostKey(a))
    {
      var k := HostKey(a);
      assert k in f.routes ==> SameAt(f.routes, w.net.routes, k)
                               && (f.routes[k].link == 0 || LinkExists(f, f.routes[k].link));
    }
  }

  lemma {:induction false} RunHostRoutes(f: Netns, cfg: BypassConfig, ops: seq<Op>)
    requires Untouched(f, cfg) && ConfigOk(cfg) && OwnOps(ops) && NoOwnRoutes(f, ops)
    ensures var w := ApplyAll(World(f, NEW_TUNNEL), cfg, ops);
            && w.tun.endpoint == EndpointAfter(ops)
            && (w.tun.endpoint.Some? ==> HostKey(w.tun.endpoint.value) !in f.routes)
            && HostRoutesAre(f, w, Pinned(f, cfg, ops))
  {
    if ops != [] {
      hide HostRoutesAre, Cleanup, Connect;
      var front, op := ops[..|ops| - 1], ops[|ops| - 1];
      RunHostRoutes(f, cfg, front);
      var on := RunLeftover(f, cfg, front);
      var w := ApplyAll(World(f, NEW_TUNNEL), cfg, front);
      OpEndpoint(w, cfg, op);
      match op
      case Connecting(c) => ConnectingHostRoutes(f, cfg, w, c, on, Pinned(f, cfg, front));
      case Cleaning => CleaningHostRoutes(f, cfg, w, on, Pinned(f, cfg, front));
      case Checking => HostRoutesKept(f, w, IsUp(w, cfg).0, Pinned(f, cfg, front));
      case Discovering => HostRoutesKept(f, w, w.(net := EnsureDiscovery(w.net)), Pinned(f, cfg, front));
    }
  }

  lemma HostRoutesKept(f: Netns, w: World, w': World, pinned: set<Addr>)
    requires HostRoutesAre(f, w, pinned) && w'.net.routes == w.net.routes && w'.net.links == w.net.links
    ensures HostRoutesAre(f, w', pinned)
  {
    HostRoutesOnly(f, w, w'.net, pinned);
  }

  lemma OpEndpoint(w: World, cfg: BypassConfig, op: Op)
    requires !op.Foreign?
    ensures Apply(w, cfg, op).tun.endpoint ==
            if op.Connecting? && op.c.remote.Some? then op.c.remote.value else w.tun.endpoint
  {
    if op.Connecting? {
      ConnectKeepsEndpoint(w, cfg, op.c);
    }
  }

  lemma ConnectKeepsEndpoint(w: World, cfg: BypassConfig, c: ServerConf)
    ensures Connect(w, cfg, c).0.tun.endpoint == if c.remote.Some? then c.remote.value else w.tun.endpoint
  {
  }

  // Where no server's address has a host route of the host's own, what is left
  // behind is what was pinned and not cleaned: the host is restored exactly if
  // every endpoint pinned since its last cleanup is the one cleaned up now.
  lemma RoundTripPinnedIff(f: Netns, cfg: BypassConfig, ops: seq<Op>)
    requires Untouched(f, cfg) && ConfigOk(cfg) && OwnOps(ops) && NoOwnRoutes(f, ops)
    ensures var w := ApplyAll(World(f, NEW_TUNNEL), cfg, ops);
            && (Cleanup(w, cfg).net == f.(nextIndex := w.net.nextIndex)
                <==> forall a :: a in Pinned(f, cfg, ops) ==> EndpointAfter(ops) == Some(a))
            && (forall a :: a in Pinned(f, cfg, ops) && EndpointAfter(ops) != Some(a) ==>
                HostKey(a) in Cleanup(w, cfg).net.routes && HostKey(a) !in f.routes)
  {
    hide Cleanup;
    var w := ApplyAll(World(f, NEW_TUNNEL), cfg, ops);
    RoundTripIff(f, cfg, ops);
    RunHostRoutes(f, cfg, ops);
    CleanupShape(w, cfg);
    var pinned := Pinned(f, cfg, ops);
    if forall a :: a in pinned ==> EndpointAfter(ops) == Some(a) {
      forall a: Addr | w.tun.endpoint != Some(a) ensures HostRouteIntact(f, w, HostKey(a)) {
        assert HostKey(a) in f.routes ==> SameAt(f.routes, w.net.routes, HostKey(a));
      }
    } else {
      var a :| a in pinned && EndpointAfter(ops) != Some(a);
      assert HostKey(a) !in f.routes;
      assert !HostRouteIntact(f, w, HostKey(a));
    }
  }

  function AfterUp(c: ServerConf, last: Option<Option<Addr>>): Option<Option<Addr>> {
    if c.remote.Some? then Some(c.remote.value) else last
  }

  // The endpoint of the last connection attempt not followed by a cleanup.
  function LastEndpoint(ops: seq<Op>): Option<Option<Addr>> {
    if ops == [] then None
    else
      match ops[|ops| - 1]
      case Connecting(c) => AfterUp(c, LastEndpoint(ops[..|ops| - 1]))
      case Cleaning => None
      case _ => LastEndpoint(ops[..|ops| - 1])
  }

  // No other endpoint without a cleanup in between.
  predicate SameEndpoint(c: ServerConf, last: Option<Option<Addr>>) {
    c.remote.Some? && last.Some? ==> c.remote.value == last.value
  }

  predicate CleanBetween(ops: seq<Op>) {
    ops == [] ||
    var front, op := ops[..|ops| - 1], ops[|ops| - 1];
    CleanBetween(front) && (op.Connecting? ==> SameEndpoint(op.c, LastEndpoint(front)))
  }

  lemma {:induction false} PinnedIsLast(f: Netns, cfg: BypassConfig, ops: seq<Op>)
    requires CleanBetween(ops)
    ensures forall a :: a in Pinned(f, cfg, ops) ==> LastEndpoint(ops) == Some(Some(a))
    ensures LastEndpoint(ops).Some? ==> EndpointAfter(ops) == LastEndpoint(ops).value
  {
    if ops != [] {
      PinnedIsLast(f, cfg, ops[..|ops| - 1]);
    }
  }

  // So a cleanup before every change of endpoint is enough.
  lemma RoundTrip(f: Netns, cfg: BypassConfig, ops: seq<Op>)
    requires Untouched(f, cfg) && ConfigOk(cfg) && OwnOps(ops) && NoOwnRoutes(f, ops) && CleanBetween(ops)
    ensures var w := ApplyAll(World(f, NEW_TUNNEL), cfg, ops);
            Cleanup(w, cfg).net == f.(nextIndex := w.net.nextIndex)
  {
    PinnedIsLast(f, cfg, ops);
    RoundTripPinnedIff(f, cfg, ops);
  }

  // One connection, to any server and with any outcome: what Cleanup does not
  // give back is the host's own route to the endpoint.
  lemma RoundTripOnceIff(f: Netns, cfg: BypassConfig, c: ServerConf)
    requires Untouched(f, cfg) && ConfigOk(cfg)
    ensures var w := Connect(World(f, NEW_TUNNEL), cfg, c).0;
            Cleanup(w, cfg).net == f.(nextIndex := w.net.nextIndex) <==> NoOwnRoute(f, c)
  {
    hide Cleanup, Connect;
    var ops := [Connecting(c)];
    OneOp(f, cfg, Connecting(c));
    RoundTripIff(f, cfg, ops);
    ConnectKeepsEndpoint(World(f, NEW_TUNNEL), cfg, c);
    if NoOwnRoute(f, c) {
      var front := ops[..|ops| - 1];
      assert front == [] && CleanBetween(front) && LastEndpoint(front) == None;
      RoundTrip(f, cfg, ops);
    }
  }

  lemma OneOp(f: Netns, cfg: BypassConfig, op: Op)
    ensures ApplyAll(World(f, NEW_TUNNEL), cfg, [op]) == Apply(World(f, NEW_TUNNEL), cfg, op)
  {
    assert [op][..0] == [];
  }

  // A second connection without a cleanup in between, as the monitor makes when
  // the tunnel is down, may be answered with another address. Then, if the first
  // endpoint was pinned, Cleanup leaves its route on the host.
  lemma RoundTripTwiceIff(f: Netns, cfg: BypassConfig, c1: ServerConf, c2: ServerConf)
    requires Untouched(f, cfg) && ConfigOk(cfg) && NoOwnRoute(f, c1) && NoOwnRoute(f, c2) && c2.remote.Some?
    ensures var w0 := World(f, NEW_TUNNEL);
            var w := Connect(Connect(w0, cfg, c1).0, cfg, c2).0;
            && (Cleanup(w, cfg).net == f.(nextIndex := w.net.nextIndex)
                <==> !Pins(w0, cfg, c1) || c1.remote == c2.remote)
            && (Pins(w0, cfg, c1) && c1.remote != c2.remote ==>
                HostKey(c1.remote.value.value) in Cleanup(w, cfg).net.routes)
  {
    hide Cleanup, Connect, Pins;
    var ops := [Connecting(c1), Connecting(c2)];
    assert ops[..1] == [Connecting(c1)];
    assert [Connecting(c1)][..0] == [];
    OneOp(f, cfg, Connecting(c1));
    RoundTripPinnedIff(f, cfg, ops);
    PinsHasRemote(World(f, NEW_TUNNEL), cfg, c1);
    PinsHasRemote(Connect(World(f, NEW_TUNNEL), cfg, c1).0, cfg, c2);
    assert EndpointAfter(ops) == c2.remote.value;
    assert ApplyAll(World(f, NEW_TUNNEL), cfg, ops)
        == Apply(ApplyAll(World(f, NEW_TUNNEL), cfg, ops[..1]), cfg, ops[1]);
    assert Pinned(f, cfg, [Connecting(c1)]) ==
           if Pins(World(f, NEW_TUNNEL), cfg, c1) then {c1.remote.value.value} else {} by {
      assert Pinned(f, cfg, []) == {} && ApplyAll(World(f, NEW_TUNNEL), cfg, []) == World(f, NEW_TUNNEL);
    }
    if Pins(World(f, NEW_TUNNEL), cfg, c1) {
      assert c1.remote.value.value in Pinned(f, cfg, [Connecting(c1)]);
      assert c1.remote.value.value in Pinned(f, cfg, ops);
    }
  }

  lemma PinsHasRemote(w: World, cfg: BypassConfig, c: ServerConf)
    ensures Pins(w, cfg, c) ==> c.remote.Some? && c.remote.value.Some?
  {
  }
}
