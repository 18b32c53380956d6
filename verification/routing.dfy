// What the installed rules and routes mean for a packet, and what the state
// detectors guarantee.
module Routing {
  import opened Common
  import opened Fib
  import opened Rules
  import opened Netspace

  ghost predicate Own(r: Rule, cfg: BypassConfig) {
    r == LOCAL_RULE || r == DEFAULT_RULE || r == DISCOVERY_RULE || (cfg.Enabled() && r == BypassRule(cfg))
  }

  ghost predicate OwnRulesIn(rules: seq<Rule>, cfg: BypassConfig) {
    && LOCAL_RULE in rules && DEFAULT_RULE in rules && DISCOVERY_RULE in rules
    && (cfg.Enabled() ==> BypassRule(cfg) in rules)
  }

  // No rule of somebody else's, at the catch-all's priority or before, decides
  // for this packet.
  ghost predicate Undisturbed(n: Netns, cfg: BypassConfig, dst: Addr, mark: int) {
    forall r :: r in n.rules && r.priority <= DEFAULT_PRIO && !Own(r, cfg) ==> Decision(r, n.routes, dst, mark).None?
  }

  // The table has a route for the address other than its default.
  predicate Specific(routes: Routes, table: int, dst: Addr) {
    var m := Lpm(routes, table, dst);
    m.Some? && m.value.len > 0
  }

  // The design, in its own terms: where a packet is meant to go.
  function Intended(routes: Routes, cfg: BypassConfig, dst: Addr, mark: int): Option<Hop> {
    var main := Lpm(routes, MAIN_TABLE, dst);
    var bypass := Lpm(routes, cfg.table, dst);
    if Specific(routes, MAIN_TABLE, dst) then Some(main.value.hop)
    else if mark == DISCOVERY_MARK && main.Some? then Some(main.value.hop)
    else if cfg.Enabled() && mark == cfg.mark && bypass.Some? then Some(bypass.value.hop)
    else if DEFAULT_KEY in routes then Some(routes[DEFAULT_KEY])
    else None
  }

  // With the agent's rules in place and nobody else deciding, every packet,
  // whatever its destination and mark, goes where it is meant to.
  lemma LookupAsIntended(n: Netns, cfg: BypassConfig, dst: Addr, mark: int)
    requires Sorted(n.rules) && ConfigOk(cfg)
    requires OwnRulesIn(n.rules, cfg) && Undisturbed(n, cfg, dst, mark)
    requires DEFAULT_KEY in n.routes && !Specific(n.routes, WG_TABLE, dst)
    ensures Lookup(n.rules, n.routes, dst, mark) == Intended(n.routes, cfg, dst, mark)
  {
    hide LpmFrom, Lookup;
    LpmDefault(n.routes, WG_TABLE, dst, 32);
    if mark == DISCOVERY_MARK && Lpm(n.routes, MAIN_TABLE, dst).Some? {
      FirstToDecide(n.rules, n.routes, dst, mark, DISCOVERY_RULE);
    } else if Specific(n.routes, MAIN_TABLE, dst) {
      FirstToDecide(n.rules, n.routes, dst, mark, LOCAL_RULE);
    } else if cfg.Enabled() && mark == cfg.mark && Lpm(n.routes, cfg.table, dst).Some? {
      FirstToDecide(n.rules, n.routes, dst, mark, BypassRule(cfg));
    } else {
      FirstToDecide(n.rules, n.routes, dst, mark, DEFAULT_RULE);
    }
  }

  // On a host with the stock rules, nothing but the local table comes before
  // the agent's rules.
  lemma StockHostUndisturbed(n: Netns, cfg: BypassConfig, dst: Addr, mark: int)
    requires forall r :: r in n.rules ==> Own(r, cfg) || r == Rule(0, 0, LOCAL_TABLE, -1) || r.priority > DEFAULT_PRIO
    requires Lpm(n.routes, LOCAL_TABLE, dst).None?
    ensures Undisturbed(n, cfg, dst, mark)
  {
  }

  // --- Installing ----------------------------------------------------------

  // EnsureRule puts the agent's rule in place exactly when it was there already
  // or no look-alike passes for it.
  lemma EnsureInstallsIff(rules: seq<Rule>, kind: Kind, r: Rule)
    requires Is(kind, r)
    ensures r in EnsureRule(rules, kind, r) <==> r in rules || (forall q :: q in rules ==> !Is(kind, q))
    ensures forall q :: q in rules ==> q in EnsureRule(rules, kind, r)
    ensures forall q :: q in EnsureRule(rules, kind, r) ==> q in rules || q == r
    ensures Sorted(rules) ==> Sorted(EnsureRule(rules, kind, r))
  {
    FirstOfMeans(rules, kind);
    InsertAdds(rules, r);
  }

  // No rule that the get functions take for the agent's is another one.
  ghost predicate NoLookalikes(rules: seq<Rule>, cfg: BypassConfig) {
    forall r :: r in rules ==>
      && (Is(LocalKind, r) ==> r == LOCAL_RULE)
      && (Is(DefaultKind, r) ==> r == DEFAULT_RULE)
      && (Is(DiscoveryKind, r) ==> r == DISCOVERY_RULE)
      && (cfg.Enabled() && Is(BypassKind(cfg), r) ==> r == BypassRule(cfg))
  }

  lemma EnsureOne(rules: seq<Rule>, cfg: BypassConfig, kind: Kind, r: Rule)
    requires Is(kind, r) && ConfigOk(cfg)
    requires Own(r, cfg) && NoLookalikes(rules, cfg)
    requires kind == LocalKind || kind == DefaultKind || kind == DiscoveryKind
             || (cfg.Enabled() && kind == BypassKind(cfg))
    ensures var rules' := EnsureRule(rules, kind, r);
            && r in rules' && NoLookalikes(rules', cfg)
            && (forall q :: q in rules ==> q in rules')
            && (forall q :: q in rules' ==> q in rules || Own(q, cfg))
            && (Sorted(rules) ==> Sorted(rules'))
  {
    EnsureInstallsIff(rules, kind, r);
  }

  lemma EnsureRulesInstalls(w: World, cfg: BypassConfig)
    requires NoLookalikes(w.net.rules, cfg) && ConfigOk(cfg) && Sorted(w.net.rules)
    ensures var rules' := EnsureRules(w, cfg).net.rules;
            && OwnRulesIn(rules', cfg) && NoLookalikes(rules', cfg) && Sorted(rules')
            && (forall q :: q in rules' ==> q in w.net.rules || Own(q, cfg))
  {
    var r1 := EnsureRule(w.net.rules, LocalKind, LOCAL_RULE);
    var r2 := EnsureRule(r1, DefaultKind, DEFAULT_RULE);
    var r3 := EnsureRule(r2, DiscoveryKind, DISCOVERY_RULE);
    EnsureOne(w.net.rules, cfg, LocalKind, LOCAL_RULE);
    EnsureOne(r1, cfg, DefaultKind, DEFAULT_RULE);
    EnsureOne(r2, cfg, DiscoveryKind, DISCOVERY_RULE);
    if cfg.Enabled() {
      EnsureOne(r3, cfg, BypassKind(cfg), BypassRule(cfg));
      BypassTouches(w.(net := EnsureDiscovery(w.net.(rules := r2))), cfg);
    }
  }

  // ensureBypass changes its own rule, its own route and the gauge.
  lemma BypassTouches(w: World, cfg: BypassConfig)
    ensures var w' := EnsureBypass(w, cfg);
            && w'.net.rules == (if cfg.Enabled() then EnsureRule(w.net.rules, BypassKind(cfg), BypassRule(cfg))
                                                 else w.net.rules)
            && w'.net == w.net.(rules := w'.net.rules, routes := w'.net.routes)
            && w'.tun == w.tun.(gauge := w'.tun.gauge)
            && (forall k :: k != BypassKey(cfg) ==> SameAt(w.net.routes, w'.net.routes, k))
  {
  }

  ghost predicate SameAt(r1: Routes, r2: Routes, k: Key) {
    (k in r1 <==> k in r2) && (k in r1 ==> r1[k] == r2[k])
  }

  // EnsureRouting writes four routes and nothing else: the main table's default
  // route is among those left alone.
  lemma RoutesFrame(w: World, cfg: BypassConfig, gateway: Addr)
    requires w.tun.link.Some? && EnsureRouting(w, cfg, Some(gateway)).1
    ensures var w' := EnsureRouting(w, cfg, Some(gateway)).0;
            forall k :: k != HostKey(gateway) && k != DEFAULT_KEY && k != BypassKey(cfg)
                        && (w.tun.endpoint.Some? ==> k != HostKey(w.tun.endpoint.value))
                        ==> SameAt(w.net.routes, w'.net.routes, k)
  {
    var w1 := InstallRoutes(w, gateway);
    var r2 := EnsureRule(EnsureRule(w1.net.rules, LocalKind, LOCAL_RULE), DefaultKind, DEFAULT_RULE);
    BypassTouches(w1.(net := EnsureDiscovery(w1.net.(rules := r2))), cfg);
  }

  lemma PinKeepsLinks(w: World)
    ensures PinEndpoint(w).net == w.net.(routes := PinEndpoint(w).net.routes)
    ensures PinEndpoint(w).tun.link == w.tun.link
  {
  }

  // The whole of EnsureRouting, in a namespace configured in any way: unless a
  // foreign rule or a foreign route in the agent's table gets in between, every
  // packet goes where it is meant to, and the catch-all is the tunnel.
  lemma {:induction false} EnsureRoutingMeaning(w: World, cfg: BypassConfig, gateway: Addr, dst: Addr, mark: int)
    requires NetnsOk(w.net) && ConfigOk(cfg) && w.tun.link.Some?
    requires NoLookalikes(w.net.rules, cfg)
    requires EnsureRouting(w, cfg, Some(gateway)).1
    requires Undisturbed(EnsureRouting(w, cfg, Some(gateway)).0.net, cfg, dst, mark)
    requires !Specific(EnsureRouting(w, cfg, Some(gateway)).0.net.routes, WG_TABLE, dst)
    ensures var n := EnsureRouting(w, cfg, Some(gateway)).0.net;
            && n.routes[DEFAULT_KEY] == Hop(None, w.tun.link.value)
            && Lookup(n.rules, n.routes, dst, mark) == Intended(n.routes, cfg, dst, mark)
  {
    var w1 := InstallRoutes(w, gateway);
    InstallsDefault(w, gateway);
    EnsureRulesInstalls(w1, cfg);
    var r2 := EnsureRule(EnsureRule(w1.net.rules, LocalKind, LOCAL_RULE), DefaultKind, DEFAULT_RULE);
    var w2 := w1.(net := EnsureDiscovery(w1.net.(rules := r2)));
    BypassTouches(w2, cfg);
    var n := EnsureRules(w1, cfg).net;
    assert SameAt(w2.net.routes, n.routes, DEFAULT_KEY);
    LookupAsIntended(n, cfg, dst, mark);
  }

  lemma InstallsDefault(w: World, gateway: Addr)
    requires w.tun.link.Some? && LinkExists(w.net, w.tun.link.value)
    ensures var w1 := InstallRoutes(w, gateway);
            && DEFAULT_KEY in w1.net.routes && w1.net.routes[DEFAULT_KEY] == Hop(None, w.tun.link.value)
            && w1.net == w.net.(routes := w1.net.routes) && w1.tun.link == w.tun.link
  {
    PinKeepsLinks(w.(net := ReplaceRoute(w.net, HostKey(gateway), Hop(None, w.tun.link.value))));
  }

  // Four readings of Intended.
  lemma IntendedReadings(routes: Routes, cfg: BypassConfig, dst: Addr, mark: int, link: nat)
    requires ConfigOk(cfg) && DEFAULT_KEY in routes && routes[DEFAULT_KEY] == Hop(None, link)
    ensures Specific(routes, MAIN_TABLE, dst) ==>
              Intended(routes, cfg, dst, mark) == Some(Lpm(routes, MAIN_TABLE, dst).value.hop)
    ensures !Specific(routes, MAIN_TABLE, dst) && mark == DISCOVERY_MARK && Key(MAIN_TABLE, ANY) in routes ==>
              Intended(routes, cfg, dst, mark) == Some(routes[Key(MAIN_TABLE, ANY)])
    ensures !Specific(routes, MAIN_TABLE, dst) && cfg.Enabled() && mark == cfg.mark
            && !Specific(routes, cfg.table, dst) && BypassKey(cfg) in routes ==>
              Intended(routes, cfg, dst, mark) == Some(routes[BypassKey(cfg)])
    ensures !Specific(routes, MAIN_TABLE, dst) && mark != DISCOVERY_MARK && !(cfg.Enabled() && mark == cfg.mark) ==>
              Intended(routes, cfg, dst, mark) == Some(Hop(None, link))
  {
    LpmDefault(routes, MAIN_TABLE, dst, 32);
    LpmDefault(routes, cfg.table, dst, 32);
  }

  // --- Detecting -----------------------------------------------------------

  // IsUp vouches for unmarked packets: by a specific main-table route where
  // there is one, through the tunnel otherwise, and masqueraded.
  lemma IsUpMeaning(w: World, cfg: BypassConfig, dst: Addr)
    requires Sorted(w.net.rules) && ConfigOk(cfg) && IsUp(w, cfg).1
    requires NoLookalikes(w.net.rules, cfg) && Undisturbed(w.net, cfg, dst, 0)
    requires !Specific(w.net.routes, WG_TABLE, dst)
    ensures var hop := Lookup(w.net.rules, w.net.routes, dst, 0);
            if Specific(w.net.routes, MAIN_TABLE, dst) then hop == Some(Lpm(w.net.routes, MAIN_TABLE, dst).value.hop)
            else hop.Some? && LinkIndex(w.net, WG_NAME) == Some(hop.value.link)
    ensures WG_MASQUERADE in w.net.postrouting
  {
    FirstOfMeans(w.net.rules, LocalKind);
    FirstOfMeans(w.net.rules, DefaultKind);
    if Specific(w.net.routes, MAIN_TABLE, dst) {
      FirstToDecide(w.net.rules, w.net.routes, dst, 0, LOCAL_RULE);
    } else {
      LpmDefault(w.net.routes, WG_TABLE, dst, 32);
      FirstToDecide(w.net.rules, w.net.routes, dst, 0, DEFAULT_RULE);
    }
  }

  // No rule of another kind decides at this priority or before, and with the
  // rules of the kind gone the packet would not take the hop.
  ghost predicate OnlyKind(n: Netns, kind: Kind, priority: int, dst: Addr, mark: int, hop: Hop) {
    && (forall r :: r in n.rules && !Is(kind, r) && r.priority <= priority ==> Decision(r, n.routes, dst, mark).None?)
    && Lookup(Without(n.rules, kind), n.routes, dst, mark) != Some(hop)
  }

  // Then the packet takes the hop exactly if some rule of the kind decides.
  lemma DecisiveKind(n: Netns, kind: Kind, priority: int, dst: Addr, mark: int, hop: Hop)
    requires Sorted(n.rules) && OnlyKind(n, kind, priority, dst, mark, hop)
    requires forall r :: r in n.rules && Is(kind, r) ==> r.priority == priority
    requires forall r :: r in n.rules && Is(kind, r) && Decision(r, n.routes, dst, mark).Some? ==>
               Decision(r, n.routes, dst, mark) == Some(hop)
    ensures Lookup(n.rules, n.routes, dst, mark) == Some(hop) <==>
              exists r :: r in n.rules && Is(kind, r) && Decision(r, n.routes, dst, mark).Some?
  {
    hide Decision, Is;
    if r :| r in n.rules && Is(kind, r) && Decision(r, n.routes, dst, mark).Some? {
      NoneDecides(n.rules, n.routes, dst, mark);
      var i := DecidedBy(n.rules, n.routes, dst, mark);
      var j :| 0 <= j < |n.rules| && n.rules[j] == r;
      assert i <= j && n.rules[i] in n.rules;
    } else {
      SilentKind(n.rules, kind, n.routes, dst, mark);
    }
  }

  lemma {:induction false} SilentKind(rules: seq<Rule>, kind: Kind, routes: Routes, dst: Addr, mark: int)
    requires forall r :: r in rules && Is(kind, r) ==> Decision(r, routes, dst, mark).None?
    ensures Lookup(rules, routes, dst, mark) == Lookup(Without(rules, kind), routes, dst, mark)
  {
    if rules != [] {
      assert rules == [rules[0]] + rules[1..];
      SilentKind(rules[1..], kind, routes, dst, mark);
      assert ([rules[0]] + Without(rules[1..], kind))[1..] == Without(rules[1..], kind);
    }
  }

  // Exactly when IsUp can be believed about an unmarked packet without a
  // specific route: some rule it may have found applies to every packet.
  lemma IsUpBelievableIff(w: World, cfg: BypassConfig, dst: Addr)
    requires Sorted(w.net.rules) && IsUp(w, cfg).1
    requires !Specific(w.net.routes, WG_TABLE, dst)
    requires OnlyKind(w.net, DefaultKind, DEFAULT_PRIO, dst, 0, w.net.routes[DEFAULT_KEY])
    ensures w.net.routes[DEFAULT_KEY].link == w.net.links[WG_NAME]
    ensures Lookup(w.net.rules, w.net.routes, dst, 0) == Some(w.net.routes[DEFAULT_KEY]) <==>
              exists r :: r in w.net.rules && Is(DefaultKind, r) && r.mark == 0 && r.suppress < 0
  {
    var rules, routes := w.net.rules, w.net.routes;
    LpmDefault(routes, WG_TABLE, dst, 32);
    assert forall r :: r in rules && Is(DefaultKind, r) ==>
      Decision(r, routes, dst, 0) == if r.mark == 0 && r.suppress < 0 then Some(routes[DEFAULT_KEY]) else None;
    DecisiveKind(w.net, DefaultKind, DEFAULT_PRIO, dst, 0, routes[DEFAULT_KEY]);
  }

  // And about one with a specific main-table route, the pinned endpoint's own
  // among them: some rule it may have found consults the table for every packet.
  lemma IsUpBelievableLocallyIff(w: World, cfg: BypassConfig, dst: Addr)
    requires Sorted(w.net.rules) && IsUp(w, cfg).1 && Specific(w.net.routes, MAIN_TABLE, dst)
    requires OnlyKind(w.net, LocalKind, LOCAL_PRIO, dst, 0, Lpm(w.net.routes, MAIN_TABLE, dst).value.hop)
    ensures Lookup(w.net.rules, w.net.routes, dst, 0) == Some(Lpm(w.net.routes, MAIN_TABLE, dst).value.hop) <==>
              exists r :: r in w.net.rules && Is(LocalKind, r) && r.mark == 0
  {
    var rules, routes, hop := w.net.rules, w.net.routes, Lpm(w.net.routes, MAIN_TABLE, dst).value.hop;
    assert forall r :: r in rules && Is(LocalKind, r) ==>
      Decision(r, routes, dst, 0) == if r.mark == 0 then Some(hop) else None;
    DecisiveKind(w.net, LocalKind, LOCAL_PRIO, dst, 0, hop);
  }

  // Such a rule need not be there: the detector does not look at marks, and takes a
  // marked rule into table 51820 for the catch-all.
  lemma IsUpFooled(dst: Addr) returns (w: World, cfg: BypassConfig)
    ensures NetnsOk(w.net) && ConfigOk(cfg) && IsUp(w, cfg).1
    ensures Lookup(w.net.rules, w.net.routes, dst, 0) == None
  {
    cfg := BypassConfig(0, 51821);
    var marked := Rule(DEFAULT_PRIO, 7, WG_TABLE, -1);
    var routes: Routes := map[DEFAULT_KEY := Hop(None, 1)];
    w := World(Netns([LOCAL_RULE, marked], routes, map[WG_NAME := 1], 2, {}, [WG_MASQUERADE]),
               Tun(None, None, None, 0, false));
    assert w.net.rules[1..] == [marked];
    assert FirstOf([marked], DefaultKind) == Some(marked);
    assert LinkExists(w.net, w.net.links[WG_NAME]);
    assert ANY.net % BlockSize(0) == 0;
    LpmKey(routes, MAIN_TABLE, dst, 32);
    assert Lookup([marked], routes, dst, 0) == None by {
      assert Decision(marked, routes, dst, 0) == None;
      assert [marked][1..] == [];
    }
  }

  // Nor does it look at the mark of the rule that consults the main table: the
  // address is pinned to link 2, IsUp is content, and its packets enter the
  // tunnel.
  lemma IsUpFooledLocally(dst: Addr) returns (w: World, cfg: BypassConfig)
    ensures NetnsOk(w.net) && ConfigOk(cfg) && IsUp(w, cfg).1
    ensures HostKey(dst) in w.net.routes && w.net.routes[HostKey(dst)] == Hop(None, 2)
    ensures DEFAULT_RULE in w.net.rules && w.net.links[WG_NAME] == 1
    ensures Lookup(w.net.rules, w.net.routes, dst, 0) == Some(Hop(None, 1))
  {
    cfg := BypassConfig(0, 51821);
    var marked := Rule(LOCAL_PRIO, 7, MAIN_TABLE, 0);
    var routes: Routes := map[DEFAULT_KEY := Hop(None, 1), HostKey(dst) := Hop(None, 2)];
    w := World(Netns([marked, DEFAULT_RULE], routes, map[WG_NAME := 1, "eth0" := 2], 3, {}, [WG_MASQUERADE]),
               Tun(None, None, None, 0, false));
    AroundCovers(dst, 32);
    HostCovers(dst, dst);
    assert LinkExists(w.net, w.net.links[WG_NAME]) && LinkExists(w.net, w.net.links["eth0"]);
    assert ANY.net % BlockSize(0) == 0;
    assert w.net.rules[1..] == [DEFAULT_RULE];
    assert FirstOf([DEFAULT_RULE], DefaultKind) == Some(DEFAULT_RULE);
    LpmDefault(routes, WG_TABLE, dst, 32);
    LpmKey(routes, WG_TABLE, dst, 32);
    assert Decision(marked, routes, dst, 0) == None;
    assert Decision(DEFAULT_RULE, routes, dst, 0) == Some(Hop(None, 1));
    assert Lookup([DEFAULT_RULE], routes, dst, 0) == Some(Hop(None, 1));
  }

  // A Connect that succeeds is one IsUp recognises.
  lemma ConnectEstablishesIsUp(w: World, cfg: BypassConfig, c: ServerConf)
    requires ConfigOk(cfg) && Connect(w, cfg, c).1
    ensures IsUp(Connect(w, cfg, c).0, cfg).1
  {
    var (w1, _) := Up(w, c);
    var w2 := InstallRoutes(w1, c.gateway.value);
    InstallsDefault(w1, c.gateway.value);
    var r1 := EnsureRule(w2.net.rules, LocalKind, LOCAL_RULE);
    var r2 := EnsureRule(r1, DefaultKind, DEFAULT_RULE);
    var w3 := w2.(net := EnsureDiscovery(w2.net.(rules := r2)));
    BypassTouches(w3, cfg);
    var w4 := EnsureBypass(w3, cfg);
    KindsStay(w2.net.rules, cfg);
    assert SameAt(w3.net.routes, w4.net.routes, DEFAULT_KEY);
    assert w4.net.links == w1.net.links;
  }

  lemma KindStays(rules: seq<Rule>, kind: Kind, kind': Kind, r: Rule)
    requires FirstOf(rules, kind').Some? || (kind == kind' && Is(kind, r))
    ensures FirstOf(EnsureRule(rules, kind, r), kind').Some?
  {
    FirstOfMeans(rules, kind');
    InsertAdds(rules, r);
    FirstOfMeans(EnsureRule(rules, kind, r), kind');
  }

  lemma KindsStay(rules: seq<Rule>, cfg: BypassConfig)
    ensures var r1 := EnsureRule(rules, LocalKind, LOCAL_RULE);
            var r2 := EnsureRule(r1, DefaultKind, DEFAULT_RULE);
            var r3 := EnsureRule(r2, DiscoveryKind, DISCOVERY_RULE);
            var r4 := if cfg.Enabled() then EnsureRule(r3, BypassKind(cfg), BypassRule(cfg)) else r3;
            FirstOf(r4, LocalKind).Some? && FirstOf(r4, DefaultKind).Some?
  {
    var r1 := EnsureRule(rules, LocalKind, LOCAL_RULE);
    var r2 := EnsureRule(r1, DefaultKind, DEFAULT_RULE);
    var r3 := EnsureRule(r2, DiscoveryKind, DISCOVERY_RULE);
    KindStays(rules, LocalKind, LocalKind, LOCAL_RULE);
    KindStays(r1, DefaultKind, LocalKind, DEFAULT_RULE);
    KindStays(r1, DefaultKind, DefaultKind, DEFAULT_RULE);
    KindStays(r2, DiscoveryKind, LocalKind, DISCOVERY_RULE);
    KindStays(r2, DiscoveryKind, DefaultKind, DISCOVERY_RULE);
    KindStays(r3, BypassKind(cfg), LocalKind, BypassRule(cfg));
    KindStays(r3, BypassKind(cfg), DefaultKind, BypassRule(cfg));
  }

  // The gauge after each operation that sets it.
  lemma GaugeTruthful(w: World, cfg: BypassConfig)
    ensures EnsureBypass(w, cfg).tun.gauge == BypassInstalled(EnsureBypass(w, cfg).net, cfg)
    ensures IsUp(w, cfg).0.tun.gauge == BypassInstalled(IsUp(w, cfg).0.net, cfg)
    ensures ConfigOk(cfg) ==> !DelRules(w, cfg).tun.gauge && !BypassInstalled(DelRules(w, cfg).net, cfg)
  {
    if ConfigOk(cfg) && cfg.Enabled() {
      assert BypassKey(cfg) !in DelRules(w, cfg).net.routes;
    }
  }

  // The reference to the link afterwards: after a check that of the link there
  // is, after a cleanup still that of the link deleted.
  lemma LinkReferences(w: World, cfg: BypassConfig)
    ensures IsUp(w, cfg).0.tun.link == LinkIndex(w.net, WG_NAME) == LinkIndex(IsUp(w, cfg).0.net, WG_NAME)
    ensures Cleanup(w, cfg).tun.link == LinkIndex(w.net, WG_NAME) && LinkIndex(Cleanup(w, cfg).net, WG_NAME) == None
  {
  }

  // A gauge of 1 means what it is read as: marked packets without a specific
  // main route are diverted by the bypass table.
  lemma GaugeMeaning(n: Netns, cfg: BypassConfig, dst: Addr)
    requires Sorted(n.rules) && ConfigOk(cfg) && BypassInstalled(n, cfg)
    requires NoLookalikes(n.rules, cfg) && Undisturbed(n, cfg, dst, cfg.mark)
    requires !Specific(n.routes, MAIN_TABLE, dst)
    ensures var m := Lpm(n.routes, cfg.table, dst);
            m.Some? && Lookup(n.rules, n.routes, dst, cfg.mark) == Some(m.value.hop)
  {
    FirstOfMeans(n.rules, BypassKind(cfg));
    LpmDefault(n.routes, cfg.table, dst, 32);
    assert Decision(BypassRule(cfg), n.routes, dst, cfg.mark).Some?;
    FirstToDecide(n.rules, n.routes, dst, cfg.mark, BypassRule(cfg));
  }

  // Exactly when it means that, whatever else looks like the agent's rule: the
  // bypass default is taken if some rule the gauge may have found lets a default
  // through.
  lemma GaugeBelievableIff(n: Netns, cfg: BypassConfig, dst: Addr)
    requires Sorted(n.rules) && BypassInstalled(n, cfg) && !Specific(n.routes, cfg.table, dst)
    requires OnlyKind(n, BypassKind(cfg), BYPASS_PRIO, dst, cfg.mark, n.routes[BypassKey(cfg)])
    ensures Lookup(n.rules, n.routes, dst, cfg.mark) == Some(n.routes[BypassKey(cfg)]) <==>
              exists r :: r in n.rules && Is(BypassKind(cfg), r) && r.suppress < 0
  {
    LpmDefault(n.routes, cfg.table, dst, 32);
    assert forall r :: r in n.rules && Is(BypassKind(cfg), r) ==>
      Decision(r, n.routes, dst, cfg.mark) == if r.suppress < 0 then Some(n.routes[BypassKey(cfg)]) else None;
    DecisiveKind(n, BypassKind(cfg), BYPASS_PRIO, dst, cfg.mark, n.routes[BypassKey(cfg)]);
  }

  // The gauge does not look at suppressors: rule and route are there, and the
  // marked packet goes nowhere.
  lemma GaugeFooled(dst: Addr) returns (n: Netns, cfg: BypassConfig)
    ensures NetnsOk(n) && ConfigOk(cfg) && BypassInstalled(n, cfg)
    ensures Lookup(n.rules, n.routes, dst, cfg.mark) == None
  {
    cfg := BypassConfig(9, 51821);
    var suppressed := Rule(BYPASS_PRIO, 9, 51821, 0);
    n := Netns([suppressed], map[BypassKey(cfg) := Hop(None, 1)], map["eth0" := 1], 2, {}, []);
    assert LinkExists(n, n.links["eth0"]);
    assert ANY.net % BlockSize(0) == 0;
    LpmKey(n.routes, cfg.table, dst, 32);
    assert Decision(suppressed, n.routes, dst, 9) == None;
    assert n.rules[1..] == [];
  }

  // --- Ownership -----------------------------------------------------------

  ghost predicate AtMostOneEach(rules: seq<Rule>, cfg: BypassConfig) {
    && CountOf(rules, LocalKind) <= 1 && CountOf(rules, DefaultKind) <= 1
    && CountOf(rules, DiscoveryKind) <= 1 && CountOf(rules, BypassKind(cfg)) <= 1
  }

  lemma EnsureCounts(rules: seq<Rule>, kind: Kind, r: Rule, kind': Kind)
    requires Is(kind, r) && (Is(kind', r) ==> kind == kind')
    ensures var n := CountOf(EnsureRule(rules, kind, r), kind');
            n == if kind == kind' && CountOf(rules, kind) == 0 then 1 else CountOf(rules, kind')
  {
    FirstOfMeans(rules, kind);
    InsertCounts(rules, r, kind');
  }

  // Any number of reconnects leaves one of each rule.
  lemma EnsureRulesIdempotent(w: World, cfg: BypassConfig)
    requires AtMostOneEach(w.net.rules, cfg) && ConfigOk(cfg)
    ensures var rules' := EnsureRules(w, cfg).net.rules;
            && CountOf(rules', LocalKind) == 1 && CountOf(rules', DefaultKind) == 1
            && CountOf(rules', DiscoveryKind) == 1
            && CountOf(rules', BypassKind(cfg)) == (if cfg.Enabled() then 1 else CountOf(w.net.rules, BypassKind(cfg)))
            && EnsureRules(EnsureRules(w, cfg), cfg).net.rules == rules'
  {
    var r1 := EnsureRule(w.net.rules, LocalKind, LOCAL_RULE);
    var r2 := EnsureRule(r1, DefaultKind, DEFAULT_RULE);
    var r3 := EnsureRule(r2, DiscoveryKind, DISCOVERY_RULE);
    var kinds := [LocalKind, DefaultKind, DiscoveryKind, BypassKind(cfg)];
    forall i | 0 <= i < 4 ensures
        CountOf(r3, kinds[i]) == if i < 3 then 1 else CountOf(w.net.rules, kinds[i]) {
      EnsureCounts(w.net.rules, LocalKind, LOCAL_RULE, kinds[i]);
      EnsureCounts(r1, DefaultKind, DEFAULT_RULE, kinds[i]);
      EnsureCounts(r2, DiscoveryKind, DISCOVERY_RULE, kinds[i]);
    }
    var w3 := w.(net := EnsureDiscovery(w.net.(rules := r2)));
    BypassTouches(w3, cfg);
    var rules' := EnsureRules(w, cfg).net.rules;
    if cfg.Enabled() {
      forall i | 0 <= i < 4 ensures CountOf(rules', kinds[i]) == 1 {
        EnsureCounts(r3, BypassKind(cfg), BypassRule(cfg), kinds[i]);
        assert CountOf(r3, kinds[i]) == if i < 3 then 1 else CountOf(w.net.rules, kinds[i]);
      }
    }
    assert CountOf(r3, kinds[3]) == CountOf(w.net.rules, kinds[3]);
    assert CountOf(rules', kinds[0]) == CountOf(rules', kinds[1]) == CountOf(rules', kinds[2]) == 1;
    assert cfg.Enabled() ==> CountOf(rules', kinds[3]) == 1;
    FirstOfMeans(rules', LocalKind);
    FirstOfMeans(rules', DefaultKind);
    FirstOfMeans(rules', DiscoveryKind);
    FirstOfMeans(rules', BypassKind(cfg));
    BypassTouches(EnsureRules(w, cfg), cfg);
  }

  // Is it the first to pass for the agent's local, default or discovery rule?
  predicate Taken(rules: seq<Rule>, r: Rule) {
    || FirstOf(rules, LocalKind) == Some(r)
    || FirstOf(rules, DefaultKind) == Some(r)
    || FirstOf(rules, DiscoveryKind) == Some(r)
  }

  // What becomes of each rule, whoever installed it. Those at the bypass
  // priority into the agent's table all go, whatever the mark (so also without
  // one configured); of every other rule all copies stay, or all but one if it
  // is the first to pass for one of the other three.
  lemma DelRulesOwnership(w: World, cfg: BypassConfig, r: Rule)
    requires ConfigOk(cfg)
    ensures var before, after := multiset(w.net.rules)[r], multiset(DelRules(w, cfg).net.rules)[r];
            && (if Is(BypassIn(cfg.table), r) then after == 0
                else before == after + if Taken(w.net.rules, r) then 1 else 0)
            && (r in w.net.rules ==> (after == before <==> !Is(BypassIn(cfg.table), r) && !Taken(w.net.rules, r)))
    ensures forall k :: k != BypassKey(cfg) ==> SameAt(w.net.routes, DelRules(w, cfg).net.routes, k)
  {
    hide RemoveFirst, Without, FirstOf, DeleteRoute;
    var rules := w.net.rules;
    var r1 := RemoveFirst(rules, LocalKind);
    var r2 := RemoveFirst(r1, DefaultKind);
    var r3 := Without(r2, BypassIn(cfg.table));
    KindsApart(cfg.table);
    RemoveFirstTakes(rules, LocalKind, r);
    RemoveFirstTakes(r1, DefaultKind, r);
    WithoutKeepsOthers(r2, BypassIn(cfg.table), r);
    RemoveFirstTakes(r3, DiscoveryKind, r);
    FirstOfAnother(rules, LocalKind, DefaultKind);
    FirstOfAnother(rules, LocalKind, DiscoveryKind);
    FirstOfAnother(r1, DefaultKind, DiscoveryKind);
    FirstOfAnother(r2, BypassIn(cfg.table), DiscoveryKind);
    FirstOfMeans(rules, LocalKind);
    FirstOfMeans(rules, DefaultKind);
    FirstOfMeans(rules, DiscoveryKind);
    DelRulesFrame(w, cfg);
  }

  lemma DelRulesFrame(w: World, cfg: BypassConfig)
    requires ConfigOk(cfg)
    ensures DelRules(w, cfg).net.rules ==
            RemoveFirst(Without(RemoveFirst(RemoveFirst(w.net.rules, LocalKind), DefaultKind), BypassIn(cfg.table)),
                        DiscoveryKind)
    ensures forall k :: k != BypassKey(cfg) ==> SameAt(w.net.routes, DelRules(w, cfg).net.routes, k)
  {
  }

  // Of the masquerade rules for the tunnel one copy goes, if there is one, and no
  // other rule of the chain.
  lemma {:induction false} NatTakesOne(rules: seq<NatRule>, r: NatRule)
    ensures multiset(rules)[r] == multiset(RemoveFirstNat(rules, WG_MASQUERADE))[r]
                                  + if r == WG_MASQUERADE && r in rules then 1 else 0
  {
    if rules != [] {
      assert rules == [rules[0]] + rules[1..];
      NatTakesOne(rules[1..], r);
    }
  }

  predicate Apart(a: Kind, b: Kind, r: Rule) {
    !(Is(a, r) && Is(b, r))
  }

  lemma KindsApart(table: int)
    ensures forall r :: Apart(LocalKind, DefaultKind, r) && Apart(LocalKind, DiscoveryKind, r)
                        && Apart(DefaultKind, DiscoveryKind, r) && Apart(BypassIn(table), LocalKind, r)
                        && Apart(BypassIn(table), DefaultKind, r) && Apart(BypassIn(table), DiscoveryKind, r)
  {
  }

  // Removing the first of a kind takes one copy of that rule, and nothing else.
  lemma {:induction false} RemoveFirstTakes(rules: seq<Rule>, kind: Kind, r: Rule)
    ensures multiset(rules)[r]
         == multiset(RemoveFirst(rules, kind))[r] + if FirstOf(rules, kind) == Some(r) then 1 else 0
  {
    if rules != [] {
      assert rules == [rules[0]] + rules[1..];
      RemoveFirstTakes(rules[1..], kind, r);
    }
  }

  lemma {:induction false} FirstOfAnother(rules: seq<Rule>, gone: Kind, kind: Kind)
    requires forall r :: Apart(gone, kind, r)
    ensures FirstOf(RemoveFirst(rules, gone), kind) == FirstOf(rules, kind)
    ensures FirstOf(Without(rules, gone), kind) == FirstOf(rules, kind)
  {
    if rules != [] {
      assert Apart(gone, kind, rules[0]);
      FirstOfAnother(rules[1..], gone, kind);
      assert ([rules[0]] + RemoveFirst(rules[1..], gone))[1..] == RemoveFirst(rules[1..], gone);
      assert ([rules[0]] + Without(rules[1..], gone))[1..] == Without(rules[1..], gone);
    }
  }

  // Of the rules that look like its other three, one of each kind goes: the
  // first, whoever installed it.
  lemma DelRulesTakesOneEach(w: World, cfg: BypassConfig, kind: Kind)
    requires ConfigOk(cfg) && (kind.LocalKind? || kind.DefaultKind? || kind.DiscoveryKind?)
    ensures CountOf(DelRules(w, cfg).net.rules, kind)
         == if CountOf(w.net.rules, kind) > 0 then CountOf(w.net.rules, kind) - 1 else 0
  {
    var r1 := RemoveFirst(w.net.rules, LocalKind);
    var r2 := RemoveFirst(r1, DefaultKind);
    var r3 := Without(r2, BypassIn(cfg.table));
    RemovalCounts(w.net.rules, LocalKind, kind);
    RemovalCounts(r1, DefaultKind, kind);
    RemovalCounts(r2, BypassIn(cfg.table), kind);
    RemovalCounts(r3, DiscoveryKind, kind);
  }

  lemma {:induction false} RemovalCounts(rules: seq<Rule>, gone: Kind, kind: Kind)
    requires gone == kind || forall r: Rule :: !(Is(gone, r) && Is(kind, r))
    ensures CountOf(RemoveFirst(rules, gone), kind)
         == if gone == kind && CountOf(rules, kind) > 0 then CountOf(rules, kind) - 1 else CountOf(rules, kind)
    ensures gone != kind ==> CountOf(Without(rules, gone), kind) == CountOf(rules, kind)
  {
    if rules != [] {
      RemovalCounts(rules[1..], gone, kind);
      assert ([rules[0]] + RemoveFirst(rules[1..], gone))[1..] == RemoveFirst(rules[1..], gone);
      assert ([rules[0]] + Without(rules[1..], gone))[1..] == Without(rules[1..], gone);
    }
  }

  // A marked rule of somebody else's into the tunnel's table goes with them.
  lemma ForeignLookalikeDeleted(w: World, cfg: BypassConfig)
    requires ConfigOk(cfg) && w.net.rules == [Rule(DEFAULT_PRIO, 7, WG_TABLE, -1)]
    ensures DelRules(w, cfg).net.rules == []
  {
    assert RemoveFirst(w.net.rules, LocalKind) == w.net.rules;
    assert w.net.rules[1..] == [];
  }
}
