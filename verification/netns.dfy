// The network namespace and what the agent's operations do to it and to the
// tunnel's own fields (pkg/wg), as functions on values. The classes of
// tunnel.dfy are proved to compute these.
module Netspace {
  import opened Common
  import opened Fib
  import opened Rules

  const WG_NAME := "wg-pia"

  // A rule of the POSTROUTING chain.
  datatype NatRule = Masquerade(oif: string) | OtherNat(id: int)

  const WG_MASQUERADE := Masquerade(WG_NAME)

  // Link indices are never handed out twice.
  datatype Netns = Netns(
    rules: seq<Rule>, routes: Routes,
    links: map<string, nat>, nextIndex: nat,
    addrs: set<(nat, Addr)>, postrouting: seq<NatRule>)

  ghost predicate NetnsOk(n: Netns) {
    && Sorted(n.rules)
    && RoutesOk(n.routes)
    && (forall k :: k in n.routes ==> n.routes[k].link == 0 || LinkExists(n, n.routes[k].link))
    && (forall p :: p in n.addrs ==> LinkExists(n, p.0))
    && (forall name :: name in n.links ==> 0 < n.links[name] < n.nextIndex)
    && (forall a, b :: a in n.links && b in n.links && n.links[a] == n.links[b] ==> a == b)
  }

  predicate LinkExists(n: Netns, index: nat) {
    index in n.links.Values
  }

  function LinkIndex(n: Netns, name: string): Option<nat> {
    if name in n.links then Some(n.links[name]) else None
  }

  // Deleting a link flushes its routes and addresses.
  function DeleteLink(n: Netns, name: string): Netns
    requires name in n.links
  {
    var index := n.links[name];
    n.(links := n.links - {name},
       routes := map k | k in n.routes && n.routes[k].link != index :: n.routes[k],
       addrs := set p | p in n.addrs && p.0 != index)
  }

  function AddLink(n: Netns, name: string): Netns {
    n.(links := n.links[name := n.nextIndex], nextIndex := n.nextIndex + 1)
  }

  function ReplaceRoute(n: Netns, key: Key, hop: Hop): Netns {
    if LinkExists(n, hop.link) then n.(routes := n.routes[key := hop]) else n
  }

  function DeleteRoute(n: Netns, key: Key): Netns {
    n.(routes := n.routes - {key})
  }

  // ip route get: an unmarked lookup, which fails without a device.
  function RouteGet(n: Netns, dst: Addr): Option<Hop> {
    match Lookup(n.rules, n.routes, dst, 0)
    case None => None
    case Some(hop) => if hop.link == 0 then None else Some(hop)
  }

  function RemoveFirstNat(rules: seq<NatRule>, r: NatRule): seq<NatRule> {
    if rules == [] then []
    else if rules[0] == r then rules[1..]
    else [rules[0]] + RemoveFirstNat(rules[1..], r)
  }

  // --- The tunnel ----------------------------------------------------------

  // nativeLink 0: no native path captured. gauge: vpn_bypass_rule_present.
  datatype Tun = Tun(link: Option<nat>, endpoint: Option<Addr>, nativeGw: Option<Addr>, nativeLink: nat, gauge: bool)

  datatype World = World(net: Netns, tun: Tun)

  // What the server answered, as far as it parses: the remote address (which
  // may turn out not to be an IPv4 one), the key, the tunnel address and the
  // gateway; and whether the device and iptables accept what they are given.
  datatype ServerConf = ServerConf(
    remote: Option<Option<Addr>>, keyOk: bool, deviceOk: bool, peer: Option<Addr>, gateway: Option<Addr>, natOk: bool)

  const DEFAULT_KEY := Key(WG_TABLE, ANY)

  function HostKey(a: Addr): Key {
    Key(MAIN_TABLE, Host(a))
  }

  function BypassKey(cfg: BypassConfig): Key {
    Key(cfg.table, ANY)
  }

  // newWgLink: delete and recreate.
  function NewWgLink(w: World): World {
    var n := if WG_NAME in w.net.links then DeleteLink(w.net, WG_NAME) else w.net;
    World(AddLink(n, WG_NAME), w.tun.(link := Some(n.nextIndex)))
  }

  function Up(w: World, c: ServerConf): (World, bool) {
    var w1 := NewWgLink(w);
    if c.remote.None? then (w1, false)
    else
      var w2 := w1.(tun := w1.tun.(endpoint := c.remote.value));
      if !c.keyOk || !c.deviceOk || c.peer.None? then (w2, false)
      else (w2.(net := w2.net.(addrs := w2.net.addrs + {(w1.tun.link.value, c.peer.value)})), true)
  }

  // addBypassRoute: pin the endpoint to the path it has now, and remember it.
  function PinEndpoint(w: World): World {
    if w.tun.endpoint.None? then w
    else
      match RouteGet(w.net, w.tun.endpoint.value)
      case None => w
      case Some(hop) =>
        World(ReplaceRoute(w.net, HostKey(w.tun.endpoint.value), hop),
              w.tun.(nativeGw := hop.gw, nativeLink := hop.link))
  }

  function NativeDefault(w: World): Option<Hop> {
    if w.tun.nativeLink != 0 then Some(Hop(w.tun.nativeGw, w.tun.nativeLink))
    else
      var key := Key(MAIN_TABLE, ANY);
      if key in w.net.routes && w.net.routes[key].link != 0 && Some(w.net.routes[key].link) != w.tun.link
      then Some(w.net.routes[key]) else None
  }

  function BypassInstalled(n: Netns, cfg: BypassConfig): bool {
    cfg.Enabled() && FirstOf(n.rules, BypassKind(cfg)).Some? && BypassKey(cfg) in n.routes
  }

  function EnsureBypass(w: World, cfg: BypassConfig): World {
    if !cfg.Enabled() then w.(tun := w.tun.(gauge := false))
    else
      var native := NativeDefault(w);
      var n1 := if native.None? then w.net else ReplaceRoute(w.net, BypassKey(cfg), native.value);
      var n2 := n1.(rules := EnsureRule(n1.rules, BypassKind(cfg), BypassRule(cfg)));
      World(n2, w.tun.(gauge := BypassInstalled(n2, cfg)))
  }

  function EnsureDiscovery(n: Netns): Netns {
    n.(rules := EnsureRule(n.rules, DiscoveryKind, DISCOVERY_RULE))
  }

  function EnsureRules(w: World, cfg: BypassConfig): World {
    var r1 := EnsureRule(w.net.rules, LocalKind, LOCAL_RULE);
    var r2 := EnsureRule(r1, DefaultKind, DEFAULT_RULE);
    EnsureBypass(w.(net := EnsureDiscovery(w.net.(rules := r2))), cfg)
  }

  // Everything EnsureRouting does before the rules.
  function InstallRoutes(w: World, gateway: Addr): World
    requires w.tun.link.Some?
  {
    var onLink := Hop(None, w.tun.link.value);
    var w1 := PinEndpoint(w.(net := ReplaceRoute(w.net, HostKey(gateway), onLink)));
    w1.(net := ReplaceRoute(w1.net, DEFAULT_KEY, onLink))
  }

  function EnsureRouting(w: World, cfg: BypassConfig, gateway: Option<Addr>): (World, bool)
    requires w.tun.link.Some?
  {
    if gateway.None? || HostKey(gateway.value) in w.net.routes || !LinkExists(w.net, w.tun.link.value) then (w, false)
    else (EnsureRules(InstallRoutes(w, gateway.value), cfg), true)
  }

  function EnsureMasquerade(n: Netns): Netns {
    if WG_MASQUERADE in n.postrouting then n
    else n.(postrouting := [WG_MASQUERADE] + n.postrouting)
  }

  // Does a connection get as far as its routes?
  predicate GetsRouted(w: World, cfg: BypassConfig, c: ServerConf) {
    Up(w, c).1 && EnsureRouting(Up(w, c).0, cfg, c.gateway).1
  }

  // The tunnel's part of Connect, with masquerading.
  function Connect(w: World, cfg: BypassConfig, c: ServerConf): (World, bool) {
    var (w1, up) := Up(w, c);
    if !up then (w1, false)
    else
      var (w2, routed) := EnsureRouting(w1, cfg, c.gateway);
      if !routed || !c.natOk then (w2, false)
      else (w2.(net := EnsureMasquerade(w2.net)), true)
  }

  function DelRules(w: World, cfg: BypassConfig): World {
    var r1 := RemoveFirst(RemoveFirst(w.net.rules, LocalKind), DefaultKind);
    var r2 := if cfg.table == 0 then r1 else Without(r1, BypassIn(cfg.table));
    var n := w.net.(rules := RemoveFirst(r2, DiscoveryKind));
    World(if cfg.table == 0 || Reserved(cfg.table) then n else DeleteRoute(n, BypassKey(cfg)),
          w.tun.(gauge := false))
  }

  function Cleanup(w: World, cfg: BypassConfig): World {
    var n1 := if w.tun.endpoint.Some? then DeleteRoute(w.net, HostKey(w.tun.endpoint.value)) else w.net;
    var w2 := DelRules(w.(net := n1), cfg);
    var n3 := if WG_NAME in w2.net.links then DeleteLink(w2.net, WG_NAME) else w2.net;
    World(n3.(postrouting := RemoveFirstNat(n3.postrouting, WG_MASQUERADE)),
          w2.tun.(link := LinkIndex(w2.net, WG_NAME)))
  }

  // checkRouting, once the link is known.
  predicate RoutingUp(n: Netns, link: nat) {
    && DEFAULT_KEY in n.routes && n.routes[DEFAULT_KEY].link == link
    && FirstOf(n.rules, LocalKind).Some? && FirstOf(n.rules, DefaultKind).Some?
  }

  function IsUp(w: World, cfg: BypassConfig): (World, bool) {
    var link := LinkIndex(w.net, WG_NAME);
    (w.(tun := w.tun.(gauge := BypassInstalled(w.net, cfg), link := link)),
     link.Some? && RoutingUp(w.net, link.value) && WG_MASQUERADE in w.net.postrouting)
  }
}
