// pkg/wg: the tunnel, over a kernel that offers the netlink and iptables calls
// the agent makes. Each method is proved against its function in netns.dfy.
module Tunnels {
  import opened Common
  import opened Fib
  import opened Rules
  import opened Netspace

  // The kernel's side: every call either does what it says or reports an error.
  class Kernel {
    var net: Netns

    constructor (net: Netns)
      ensures this.net == net
    {
      this.net := net;
    }

    method RuleAdd(r: Rule) returns (ok: bool)
      modifies this
      ensures ok <==> r !in old(net).rules
      ensures net == if ok then old(net).(rules := Insert(old(net).rules, r)) else old(net)
    {
      if r in net.rules {
        return false;
      }
      net := net.(rules := Insert(net.rules, r));
      return true;
    }

    method RuleDel(request: Rule) returns (ok: bool)
      modifies this
      ensures var left := RemoveMatch(old(net).rules, request);
              ok == left.Some? && net == if ok then old(net).(rules := left.value) else old(net)
    {
      var left := RemoveMatch(net.rules, request);
      if left.None? {
        return false;
      }
      net := net.(rules := left.value);
      return true;
    }

    method RouteAdd(key: Key, hop: Hop) returns (ok: bool)
      modifies this
      ensures ok <==> key !in old(net).routes && LinkExists(old(net), hop.link)
      ensures net == if ok then old(net).(routes := old(net).routes[key := hop]) else old(net)
    {
      ok := key !in net.routes && LinkExists(net, hop.link);
      if ok {
        net := net.(routes := net.routes[key := hop]);
      }
    }

    method RouteReplace(key: Key, hop: Hop) returns (ok: bool)
      modifies this
      ensures ok == LinkExists(old(net), hop.link) && net == ReplaceRoute(old(net), key, hop)
    {
      ok := LinkExists(net, hop.link);
      net := ReplaceRoute(net, key, hop);
    }

    method RouteDel(key: Key) returns (ok: bool)
      modifies this
      ensures ok == (key in old(net).routes) && net == DeleteRoute(old(net), key)
    {
      ok := key in net.routes;
      net := DeleteRoute(net, key);
      assert !ok ==> net.routes == old(net).routes;
    }

    // The routes of a table, in no particular order.
    method RouteList(table: int) returns (list: seq<(Prefix, Hop)>)
      ensures forall p, h :: (p, h) in list <==> Key(table, p) in net.routes && net.routes[Key(table, p)] == h
    {
      list := [];
      var keys := net.routes.Keys;
      while keys != {}
        invariant keys <= net.routes.Keys
        invariant forall p, h :: (p, h) in list <==>
          Key(table, p) in net.routes.Keys - keys && net.routes[Key(table, p)] == h
        decreases |keys|
      {
        var k :| k in keys;
        if k.table == table {
          list := list + [(k.dst, net.routes[k])];
        }
        keys := keys - {k};
      }
    }

    method LinkDel(name: string) returns (ok: bool)
      modifies this
      ensures ok == (name in old(net).links)
      ensures net == if ok then DeleteLink(old(net), name) else old(net)
    {
      ok := name in net.links;
      if ok {
        net := DeleteLink(net, name);
      }
    }

    method LinkAdd(name: string) returns (ok: bool)
      modifies this
      ensures ok == (name !in old(net).links)
      ensures net == if ok then AddLink(old(net), name) else old(net)
    {
      ok := name !in net.links;
      if ok {
        net := AddLink(net, name);
      }
    }

    // An address that is already there is no error to the agent.
    method AddrAdd(link: nat, a: Addr)
      modifies this
      ensures net == old(net).(addrs := old(net).addrs + {(link, a)})
    {
      net := net.(addrs := net.addrs + {(link, a)});
    }

    method NatInsertFirst(r: NatRule)
      modifies this
      ensures net == old(net).(postrouting := [r] + old(net).postrouting)
    {
      net := net.(postrouting := [r] + net.postrouting);
    }

    method NatDelete(r: NatRule)
      modifies this
      ensures net == old(net).(postrouting := RemoveFirstNat(old(net).postrouting, r))
    {
      net := net.(postrouting := RemoveFirstNat(net.postrouting, r));
    }
  }

  class Tunnel {
    const kernel: Kernel
    const bypass: BypassConfig
    var link: Option<nat>
    var endpoint: Option<Addr>
    var nativeGw: Option<Addr>
    var nativeLink: nat
    var bypassRulePresent: bool

    ghost function View(): World
      reads this, kernel
    {
      World(kernel.net, Tun(link, endpoint, nativeGw, nativeLink, bypassRulePresent))
    }

    constructor (kernel: Kernel, bypass: BypassConfig)
      ensures this.kernel == kernel && this.bypass == bypass
      ensures link == None && endpoint == None && nativeLink == 0
    {
      this.kernel := kernel;
      this.bypass := bypass;
      link, endpoint, nativeGw, nativeLink, bypassRulePresent := None, None, None, 0, false;
    }

    // --- Rules: nl_rules.go ------------------------------------------------

    // The common body of the get functions.
    method GetRule(kind: Kind) returns (found: Option<Rule>)
      ensures found == FirstOf(kernel.net.rules, kind)
    {
      var rules := kernel.net.rules;
      var i := 0;
      while i < |rules|
        invariant 0 <= i <= |rules|
        invariant FirstOf(rules, kind) == FirstOf(rules[i..], kind)
      {
        if Is(kind, rules[i]) {
          return Some(rules[i]);
        }
        i := i + 1;
      }
      return None;
    }

    // The common body of delLocalRule, delDefaultRule and delDiscoveryRule.
    method DelRule(kind: Kind) returns (ok: bool)
      requires kind.LocalKind? || kind.DefaultKind? || kind.DiscoveryKind?
      modifies kernel
      ensures ok && kernel.net == old(kernel.net).(rules := RemoveFirst(old(kernel.net).rules, kind))
    {
      var found := GetRule(kind);
      if found.None? {
        NothingToRemove(kernel.net.rules, kind);
        return true;
      }
      RemoveFound(kernel.net.rules, kind);
      ok := kernel.RuleDel(found.value);
    }

    // Get, then add what is missing.
    method EnsureOneRule(kind: Kind, r: Rule) returns (ok: bool)
      requires Is(kind, r)
      modifies kernel
      ensures ok && kernel.net == old(kernel.net).(rules := EnsureRule(old(kernel.net).rules, kind, r))
    {
      var found := GetRule(kind);
      if found.Some? {
        return true;
      }
      FirstOfMeans(kernel.net.rules, kind);
      ok := kernel.RuleAdd(r);
    }

    method EnsureDiscoveryBypass() returns (ok: bool)
      modifies kernel
      ensures ok && kernel.net == EnsureDiscovery(old(kernel.net))
    {
      ok := EnsureOneRule(DiscoveryKind, DISCOVERY_RULE);
    }

    // Deletes, from a snapshot of the list, every rule at the bypass priority
    // that points at the agent's own table, whatever its mark.
    method DelBypassSrcRule() returns (ok: bool)
      modifies this`bypassRulePresent, kernel
      ensures ok && !bypassRulePresent
      ensures kernel.net.rules == if bypass.table == 0 then old(kernel.net).rules
                                  else Without(old(kernel.net).rules, BypassIn(bypass.table))
      ensures kernel.net.(rules := old(kernel.net).rules) ==
              if bypass.table == 0 || Reserved(bypass.table) then old(kernel.net)
              else DeleteRoute(old(kernel.net), BypassKey(bypass))
    {
      bypassRulePresent := false;
      if bypass.table == 0 {
        return true;
      }
      var kind := BypassIn(bypass.table);
      var rules := kernel.net.rules;
      assert Cleared(rules, 0, kind) == rules;
      var i := 0;
      while i < |rules|
        invariant 0 <= i <= |rules|
        invariant kernel.net == old(kernel.net).(rules := Cleared(rules, i, kind)) && !bypassRulePresent
      {
        var r := rules[i];
        SnapshotStep(rules, i, kind);
        i := i + 1;
        if r.priority != BYPASS_PRIO || r.table != bypass.table {
          continue;
        }
        var deleted := kernel.RuleDel(r);
        if !deleted {
          return false;
        }
      }
      assert Cleared(rules, |rules|, kind) == Without(rules, kind) by {
        assert rules[..|rules|] == rules;
      }
      DelBypassTableRoute(bypass.table);
      return true;
    }

    method DelBypassTableRoute(table: int)
      modifies kernel
      ensures kernel.net == if table == 0 || Reserved(table) then old(kernel.net)
                            else DeleteRoute(old(kernel.net), Key(table, ANY))
    {
      if table == 0 || Reserved(table) {
        return;
      }
      var _ := kernel.RouteDel(Key(table, ANY));
    }

    method RefreshBypassState() returns (present: bool)
      modifies this`bypassRulePresent
      ensures present == BypassInstalled(kernel.net, bypass) && bypassRulePresent == present
    {
      if !bypass.Enabled() {
        bypassRulePresent := false;
        return false;
      }
      var rule := GetRule(BypassKind(bypass));
      var route := GetBypassTableRoute();
      present := rule.Some? && route.Some?;
      bypassRulePresent := present;
    }

    method EnsureBypass()
      modifies this`bypassRulePresent, kernel
      ensures View() == Netspace.EnsureBypass(old(View()), bypass)
    {
      if !bypass.Enabled() {
        bypassRulePresent := false;
        return;
      }
      var _ := EnsureBypassTableRoute();
      var found := GetRule(BypassKind(bypass));
      if found.None? {
        FirstOfMeans(kernel.net.rules, BypassKind(bypass));
        var _ := kernel.RuleAdd(BypassRule(bypass));
      }
      var _ := RefreshBypassState();
    }

    method EnsureRules() returns (ok: bool)
      modifies this`bypassRulePresent, kernel
      ensures ok && View() == Netspace.EnsureRules(old(View()), bypass)
    {
      ok := EnsureOneRule(LocalKind, LOCAL_RULE);
      if ok {
        ok := EnsureOneRule(DefaultKind, DEFAULT_RULE);
      }
      if ok {
        ok := EnsureDiscoveryBypass();
      }
      if ok {
        EnsureBypass();
      }
    }

    method DelRules() returns (ok: bool)
      modifies this`bypassRulePresent, kernel
      ensures ok && View() == Netspace.DelRules(old(View()), bypass)
    {
      ok := DelRule(LocalKind);
      if ok {
        ok := DelRule(DefaultKind);
      }
      if ok {
        ok := DelBypassSrcRule();
      }
      if ok {
        ok := DelRule(DiscoveryKind);
      }
    }

    // --- Routes: nl_route.go -----------------------------------------------

    method AddBypassRoute() returns (ok: bool)
      modifies this`nativeGw, this`nativeLink, kernel
      ensures View() == PinEndpoint(old(View()))
      ensures ok <==> endpoint.Some? && RouteGet(old(kernel.net), endpoint.value).Some?
                      && LinkExists(old(kernel.net), RouteGet(old(kernel.net), endpoint.value).value.link)
    {
      if endpoint.None? {
        return false;
      }
      var current := RouteGet(kernel.net, endpoint.value);
      if current.None? {
        return false;
      }
      nativeGw, nativeLink := current.value.gw, current.value.link;
      ok := kernel.RouteReplace(HostKey(endpoint.value), current.value);
    }

    method DelBypassRoute()
      modifies kernel
      ensures kernel.net == if endpoint.None? then old(kernel.net)
                            else DeleteRoute(old(kernel.net), HostKey(endpoint.value))
    {
      if endpoint.None? {
        return;
      }
      var _ := kernel.RouteDel(HostKey(endpoint.value));
    }

    method GetNativeDefault() returns (native: Option<Hop>)
      ensures native == NativeDefault(View())
    {
      if nativeLink != 0 {
        return Some(Hop(nativeGw, nativeLink));
      }
      var routes := kernel.RouteList(MAIN_TABLE);
      var i := 0;
      while i < |routes|
        invariant 0 <= i <= |routes|
        invariant forall j :: 0 <= j < i ==>
          routes[j].0 != ANY || routes[j].1.link == 0 || Some(routes[j].1.link) == link
      {
        var (dst, hop) := routes[i];
        assert (dst, hop) in routes;
        i := i + 1;
        if dst != ANY {
          continue;
        }
        if hop.link == 0 {
          continue;
        }
        if link.Some? && hop.link == link.value {
          continue;
        }
        return Some(hop);
      }
      assert forall h :: (ANY, h) in routes ==> h.link == 0 || Some(h.link) == link;
      assert Key(MAIN_TABLE, ANY) in kernel.net.routes ==>
          (ANY, kernel.net.routes[Key(MAIN_TABLE, ANY)]) in routes;
      return None;
    }

    method EnsureBypassTableRoute() returns (ok: bool)
      modifies kernel
      ensures var native := NativeDefault(old(View()));
              kernel.net == if !bypass.Enabled() || native.None? then old(kernel.net)
                            else ReplaceRoute(old(kernel.net), BypassKey(bypass), native.value)
      ensures var native := NativeDefault(old(View()));
              ok <==> !bypass.Enabled() || (native.Some? && LinkExists(old(kernel.net), native.value.link))
    {
      if !bypass.Enabled() {
        return true;
      }
      var native := GetNativeDefault();
      if native.None? {
        return false;
      }
      ok := kernel.RouteReplace(BypassKey(bypass), native.value);
    }

    method GetBypassTableRoute() returns (route: Option<Hop>)
      ensures route.Some? <==> bypass.Enabled() && BypassKey(bypass) in kernel.net.routes
      ensures route.Some? ==> route.value == kernel.net.routes[BypassKey(bypass)]
    {
      if !bypass.Enabled() {
        return None;
      }
      var routes := kernel.RouteList(bypass.table);
      assert BypassKey(bypass) in kernel.net.routes ==> (ANY, kernel.net.routes[BypassKey(bypass)]) in routes;
      for i := 0 to |routes|
        invariant forall j :: 0 <= j < i ==> routes[j].0 != ANY
      {
        var (dst, hop) := routes[i];
        assert (dst, hop) in routes;
        if dst == ANY {
          return Some(hop);
        }
      }
      assert forall h :: (ANY, h) !in routes;
      return None;
    }

    method EnsureRouting(gateway: Option<Addr>) returns (ok: bool)
      requires link.Some?
      modifies this, kernel
      ensures (View(), ok) == Netspace.EnsureRouting(old(View()), bypass, gateway)
    {
      if gateway.None? {
        return false;
      }
      var added := kernel.RouteAdd(HostKey(gateway.value), Hop(None, link.value));
      if !added {
        return false;
      }
      var _ := AddBypassRoute();
      var replaced := kernel.RouteReplace(DEFAULT_KEY, Hop(None, link.value));
      if !replaced {
        return false;
      }
      ok := EnsureRules();
    }

    // checkRouting, which looks the link up if nobody has.
    method CheckRouting() returns (ok: bool)
      modifies this`link
      ensures link == if old(link).Some? then old(link) else LinkIndex(kernel.net, WG_NAME)
      ensures ok <==> link.Some? && RoutingUp(kernel.net, link.value)
    {
      if link.None? {
        link := LinkIndex(kernel.net, WG_NAME);
        if link.None? {
          return false;
        }
      }
      var routes := kernel.RouteList(WG_TABLE);
      for i := 0 to |routes|
        invariant forall j :: 0 <= j < i ==> !(routes[j].0 == ANY && routes[j].1.link == link.value)
      {
        var (dst, hop) := routes[i];
        assert (dst, hop) in routes;
        if hop.link == link.value && dst == ANY {
          var local := GetRule(LocalKind);
          var default := GetRule(DefaultKind);
          return local.Some? && default.Some?;
        }
      }
      assert forall h :: (ANY, h) in routes ==> h.link != link.value;
      assert DEFAULT_KEY in kernel.net.routes ==> (ANY, kernel.net.routes[DEFAULT_KEY]) in routes;
      return false;
    }

    // --- Link, lifecycle: nl_link.go, wg.go, ipt_masq.go --------------------

    method NewWgLink() returns (ok: bool)
      modifies this`link, kernel
      ensures ok && View() == Netspace.NewWgLink(old(View()))
    {
      var existing := LinkIndex(kernel.net, WG_NAME);
      if existing.Some? {
        link := existing;
        ok := kernel.LinkDel(WG_NAME);
        if !ok {
          return false;
        }
      }
      ok := kernel.LinkAdd(WG_NAME);
      if !ok {
        return false;
      }
      link := LinkIndex(kernel.net, WG_NAME);
    }

    method Up(c: ServerConf) returns (ok: bool)
      modifies this`link, this`endpoint, kernel
      ensures (View(), ok) == Netspace.Up(old(View()), c)
    {
      ok := NewWgLink();
      if !ok {
        return;
      }
      if c.remote.None? {
        return false;
      }
      endpoint := c.remote.value;
      if !c.keyOk {
        return false;
      }
      if !c.deviceOk {
        return false;
      }
      if c.peer.None? {
        return false;
      }
      kernel.AddrAdd(link.value, c.peer.value);
      return true;
    }

    method EnsureMasquerade()
      modifies kernel
      ensures kernel.net == Netspace.EnsureMasquerade(old(kernel.net))
    {
      if WG_MASQUERADE !in kernel.net.postrouting {
        kernel.NatInsertFirst(WG_MASQUERADE);
      }
    }

    method DelIPtables()
      modifies kernel
      ensures kernel.net ==
              old(kernel.net).(postrouting := RemoveFirstNat(old(kernel.net).postrouting, WG_MASQUERADE))
    {
      if WG_MASQUERADE !in kernel.net.postrouting {
        NoNatToRemove(kernel.net.postrouting, WG_MASQUERADE);
        return;
      }
      kernel.NatDelete(WG_MASQUERADE);
    }

    method Cleanup()
      modifies this`link, this`bypassRulePresent, kernel
      ensures View() == Netspace.Cleanup(old(View()), bypass)
    {
      DelBypassRoute();
      var _ := DelRules();
      link := LinkIndex(kernel.net, WG_NAME);
      if link.Some? {
        var ok := kernel.LinkDel(WG_NAME);
        if !ok {
          return;
        }
      }
      DelIPtables();
    }

    method IsUp() returns (up: bool)
      modifies this`link, this`bypassRulePresent
      ensures (View(), up) == Netspace.IsUp(old(View()), bypass)
    {
      var _ := RefreshBypassState();
      link := LinkIndex(kernel.net, WG_NAME);
      if link.None? {
        return false;
      }
      var routed := CheckRouting();
      if !routed {
        return false;
      }
      if WG_MASQUERADE !in kernel.net.postrouting {
        return false;
      }
      return true;
    }
  }

  lemma {:induction false} NothingToRemove(rules: seq<Rule>, kind: Kind)
    requires FirstOf(rules, kind).None?
    ensures RemoveFirst(rules, kind) == rules
  {
    if rules != [] {
      NothingToRemove(rules[1..], kind);
    }
  }

  lemma {:induction false} NoNatToRemove(rules: seq<NatRule>, r: NatRule)
    requires r !in rules
    ensures RemoveFirstNat(rules, r) == rules
  {
    if rules != [] {
      NoNatToRemove(rules[1..], r);
    }
  }
}
