# smart-vpn-client, modelled and proved

smart-vpn-client keeps one WireGuard tunnel up on a Linux host. A health checker
probes the network and reports verdicts; a monitor counts them, elects a server
region, connects to it and, when asked, re-elects; underneath, policy rules and
routes steer the host's packets. This project models that control loop, the
routing state it edits and the forwarding decision the kernel makes from that
state, and proves what the code does for every input, every run and every
configuration of the host.

| file | module | part of the system |
|---|---|---|
| `median.dfy`, `health.dfy` | Median, Detector | the degradation detector: window, quorum, baseline |
| `failures.dfy` | Failures | the monitor's failure counter on its own |
| `protocol.dfy` | Protocol | health checker and monitor as two goroutines over buffered channels |
| `fib.dfy` | Fib | longest match, policy rules, suppression: the packet lookup |
| `rules.dfy` | Rules | the agent's rules, the kernel's rule list, `BypassConfig` |
| `netns.dfy` | Netspace | the network namespace and every tunnel operation as a function on it |
| `tunnel.dfy` | Tunnels | classes `Kernel` and `Tunnel`: the same operations step by step |
| `routing.dfy` | Routing | what the installed state means for a packet; detectors; ownership |
| `noloop.dfy` | NoLoop | no routing loop, in runs interleaved with other software's changes |
| `history.dfy` | History | what any run leaves behind, and when Cleanup restores the host |
| `independence.dfy` | Independence | when a connection leaves what a new tunnel would leave |
| `service.dfy` | Service | at any moment of a run: where packets go while the tunnel is up, and the bypass gauge |
| `witnesses.dfy` | Witnesses | concrete hosts and runs for the conditions in these and NoLoop's |
| `measure.dfy`, `election.dfy` | Measurement, Election | latency measurement and the choice of a region |
| `agent.dfy` | Agents | a round of the monitor's loop, and a run of it, as functions on values |
| `client.dfy`, `monitor.dfy` | Clients, Monitors | classes `Client` and `Monitor`: the same rounds step by step |
| `daemon.dfy` | Daemon | whole runs of the monitor: counter, cooldowns, winners, and the host it runs on |

Parts that change state in the source are classes or loops here. Each of their
methods is proved against a function on values, and the theorems are about these
functions, so they hold of the methods.

## Where the code differs from what is said about it

The model follows the code. These are theorems, with the input that shows the
difference or the exact condition.

- The failure counter does not count consecutive failures. It is a walk
  reflected at zero: a reconnect comes exactly when some block of adjacent
  verdicts holds `maxFailed` more failures than successes
  (`Failures.ReconnectIff`); with the default of three, two pairs of failures
  around one success suffice (`Failures.ReconnectWithoutThreeInARow`).
- Degradation is a majority of the measured slots above five times the baseline
  with at least three of them filled, not ten times the baseline three times in a
  row. Six slow probes in a row always trip it, five may not
  (`Detector.SixSlowDegrade`, `Detector.FiveSlowMayNot`).
- The two goroutines can deadlock for good. It takes one re-election request, and
  the state in which it happens is characterised exactly
  (`Protocol.DeadlockIff`, `Protocol.StuckAfterOneTrigger`); without a request it
  cannot happen (`Protocol.StuckNeedsTrigger`).
- An eligible preferred region wins even if it was never reached. If it was
  measured at exactly the maximum latency, the election reports nobody although
  there are candidates (`Election.PreferredAtMaximum`).
- Re-election promises a different region. It finds one exactly if the current
  region has an ID (`Election.ExclusionHoldsIff`); one listed without is elected
  again (`Election.EmptyIDElected`).
- `IsUp` does not look at marks or at the catch-all's suppressor. A rule of
  somebody else's at priority 1000 into table 51820 passes for the agent's
  (`Routing.IsUpFooled`), and so does a marked one at priority 100 into the main
  table: with it, IsUp is content while the endpoint's own pinned packets enter
  the tunnel (`Routing.IsUpFooledLocally`). `Routing.IsUpBelievableIff` and
  `Routing.IsUpBelievableLocallyIff` say exactly when it can be believed. The
  bypass gauge likewise ignores suppressors (`Routing.GaugeFooled`,
  `Routing.GaugeBelievableIff`).
- `delRules` takes other people's rules: a rule keeps all its copies exactly if it
  is not at priority 150 into the agent's table and not the first that passes for
  the agent's local, default or discovery rule (`Routing.DelRulesOwnership`,
  `Routing.ForeignLookalikeDeleted`).
- `Cleanup` does not always restore the host. After any run it does exactly if the
  main table's host routes are intact (`History.RoundTripIff`), and two things
  can damage them. The endpoint's /32 is pinned over and deleted even if the host
  had one of its own (`History.RoundTripOnceIff`, `Witnesses.OwnRouteLost`). And the reconnect without a cleanup, when the
  server answers with another address, leaves the first endpoint's /32 behind
  (`History.RoundTripTwiceIff`, `Witnesses.StrayPin`); in general every endpoint
  pinned since its last cleanup must be the one cleaned up
  (`History.RoundTripPinnedIff`).
- A connection is not independent of history when the host has no path to the
  endpoint. The native path captured for an earlier server then still serves the
  bypass table (`Independence.CapturedPathOutlivesItsServer`,
  `Witnesses.CapturedPath`), and on a reconnect the agent's own rule may open a
  path the host does not have (`Witnesses.PathOpensOnReconnect`).
  `Independence.HistoryIndependence` has the exact condition.
- The endpoint pin is allowed to fail. The tunnel's own packets then stay out of
  the tunnel exactly if the main table has a specific route for them
  (`NoLoop.EncryptedPacketsAvoidTunnelIff`); on a host that has none they loop
  (`Witnesses.TunnelledEndpoint`).
- A server whose address is its own gateway's makes the tunnel its own native
  path, and the gauge can then outlive the route it stands for
  (`Witnesses.OwnGateway`, `Service.GaugeAfterConnectIff`).

## Model

| member | source | states |
|---|---|---|
| Median.SortedUnique | pkg/health/health.go:200-202 | any two sorted arrangements of the same samples are equal, so it does not matter how the code sorts |
| Median.Compute | pkg/health/health.go:196-208 | copying and sorting in place yields the median of the caller's samples, which stay untouched (nothing is modified) |
| Median.PermutationInvariant | pkg/health/health.go:196-208 | the order of the samples is irrelevant |
| Median.OutlierRobust | pkg/health/health.go:17-19 | of three or more samples any single one may be replaced by any value, and the median stays within the range of the others |
| Median.WithinSamples | pkg/health/health.go:196-208 | the median obeys every bound its samples obey |
| Median.MidpointOfMiddle | pkg/health/health.go:203-207 | against any sorted arrangement of the samples: the median is the middle one, or the midpoint of the two middle ones, rounded toward zero |
| Detector.Health.constructor | pkg/health/health.go:45-50 | no baseline, and a window that is the last ten of an empty history |
| Detector.Health.UpdateLastTen | pkg/health/health.go:156-158 | the window stays the last ten entries of ten zeros followed by everything recorded since the last link-up |
| Detector.Health.HealthDegraded | pkg/health/health.go:166-193 | true exactly if there is a baseline, three or more slots are measured and those above five times the baseline outnumber the other measured ones |
| Detector.DegradedMeans | pkg/health/health.go:22-28 | that majority, for every window however full, counted slot by slot |
| Detector.Health.Collect | pkg/health/health.go:103-114 | the samples are the probes that came back, in order |
| Detector.Health.LinkUp | pkg/health/health.go:93-128 | a link-up empties the window and sets the baseline to the median of the probes that came back, zero if none did |
| Detector.Health.Check | pkg/health/health.go:130-149 | the verdict is healthy exactly if the probe succeeded and the updated window is not degraded; a failed probe is recorded as an unmeasured slot |
| Detector.Health.Start | pkg/health/health.go:91-153 | the loop over any sequence of announcements and probes: baseline and window afterwards, and the verdicts sent, in order |
| Detector.BaselineCases | pkg/health/health.go:101-122 | the baseline by which of the three probes came back: zero, the one, the midpoint of two, the middle one of three |
| Detector.RatioTest | pkg/health/health.go:192 | the test on the quotient is twice exceeded greater than valid |
| Detector.WindowIsLastTen | pkg/health/health.go:94-97 | pushing any number of measurements onto the empty window gives the last ten of them, zeros in front |
| Detector.SixSlowDegrade | pkg/health/health.go:160-165 | six or more slow probes in a row degrade every window |
| Detector.FiveSlowMayNot | pkg/health/health.go:160-165 | five or fewer are outvoted by a window of quick slots, whatever their height |
| Detector.FiveQuickClear | pkg/health/health.go:166-193 | five or more quick measurements in a row clear every window |
| Detector.FourQuickMayNot | pkg/health/health.go:166-193 | four or fewer do not clear a window of slow slots |
| Detector.SpikeIgnored | pkg/health/health.go:163-165 | fewer than two slow slots never degrade; two do exactly when they are two of three |
| Detector.BaselineRobust | pkg/health/health.go:101-122 | one absurd baseline probe of three leaves the baseline within the range of the other two |
| Failures.CountIsReflectedWalk | pkg/vpn/pia/monitor.go:25-38 | until the first reconnect the counter is the largest surplus of failures over successes of any suffix, the empty one included |
| Failures.ReconnectIff | pkg/vpn/pia/monitor.go:25-31 | over any verdicts a reconnect happens exactly if some adjacent block has at least the threshold more failures than successes |
| Failures.CountBelowThreshold | pkg/vpn/pia/monitor.go:26-30 | at the loop head the counter is below the threshold (at least one, whatever -fails says) |
| Failures.ReconnectBudget | pkg/vpn/pia/monitor.go:25-31 | threshold times reconnects plus the counter never exceeds the failed verdicts |
| Failures.ConsecutiveFailuresReconnect | pkg/vpn/pia/monitor.go:26-28 | a full threshold of consecutive failures always reconnects |
| Failures.ReconnectWithoutThreeInARow | pkg/vpn/pia/monitor.go:91-97 | a reconnect with a threshold of three and never three failures in a row |
| Protocol.RunKeepsInv | cmd/main.go:112-119 | over any run: channels within capacity, verdicts neither lost, duplicated nor reordered, requests accounted for, window equal to its history, counter below threshold, and no third verdict in flight while an announcement waits |
| Protocol.DeadlockIff | pkg/vpn/pia/monitor.go:137-139 | a reachable state has no step of either goroutine exactly if both channels are full, a verdict is waiting to be sent and the monitor is announcing a re-election; then not even the ticker is served |
| Protocol.StuckForever | pkg/vpn/pia/monitor.go:19-55 | from that state only further requests happen, and it never ends |
| Protocol.StuckNeedsTrigger | pkg/vpn/pia/monitor.go:47-49 | every run that gets stuck contains a request and a re-election |
| Protocol.StuckAfterOneTrigger | pkg/vpn/pia/monitor.go:86-87 | a run with one request gets stuck, for every threshold |
| Protocol.TriggerLeavesOnePending | pkg/vpn/pia/pia.go:40-47 | a request never blocks, leaves one pending, and is dropped exactly if one was pending before |
| Protocol.PendingUntilReelection | pkg/vpn/pia/pia.go:35-37 | a pending request stays until a re-election begins after it |
| Protocol.RequestsAccounted | pkg/vpn/pia/pia.go:69 | requests are re-elections begun plus pending plus dropped, with at most one pending |
| Protocol.VerdictsInOrder | cmd/main.go:112 | the monitor has received a prefix of the verdicts and is at most two behind |
| Protocol.QuietRunCounts | pkg/vpn/pia/monitor.go:25-31 | any stretch of a run without discoverAndConnect has no block of received verdicts that reaches the threshold, whatever the counter at its start |
| Protocol.DegradationDetected | pkg/health/health.go:160-165 | from any reachable state with a baseline, once the monitor has received the verdicts of five plus threshold consecutive slow probes it has called discoverAndConnect |
| Protocol.ProbesReported | pkg/health/health.go:130-149 | over any run each probe adds one verdict, and a probe that failed a failure |
| Protocol.OutageDetected | pkg/health/health.go:136-139 | from any reachable state, once the monitor has received the verdicts of threshold consecutive failed probes it has called discoverAndConnect |
| Protocol.TurnFollowsProtocol | pkg/health/health.go:91-153 | every round of the checker's loop is a sequence of enabled actions, with the same baseline, window and verdict |
| Protocol.TakeConnectsIff | pkg/vpn/pia/monitor.go:21-46 | a received verdict calls discoverAndConnect exactly if it is a failure that exhausts the counter, or a success without a winner or with the tunnel down and reconnecting failed; and what becomes of the counter |
| Protocol.DetectionBoundTight | pkg/health/health.go:160-165 | a reachable state and a run from it in which the verdicts of one slow probe fewer are all received and discoverAndConnect is not called, for every baseline, threshold and height of the probes |
| Fib.LpmIsLongestMatch | pkg/wg/nl_rules.go:25-28 | the table lookup returns a covering route of the table with no longer covering route in it, and nothing only if none covers |
| Fib.FirstToDecide | pkg/wg/nl_rules.go:19-41 | with the rules sorted by priority, the only rule that decides at its priority or before gives the result |
| Rules.NewBypassConfig | pkg/wg/wg.go:57-71 | accepts exactly 32-bit marks other than the discovery mark and positive tables that are not reserved, and then keeps both as given |
| Rules.RequestIsPrecise | pkg/wg/nl_rules.go:238-244 | a delete request read back from a rule the agent recognises matches, in the kernel's lenient comparison, only rules the agent recognises |
| Rules.RequestIsLenient | pkg/wg/nl_rules.go:108-118 | a request for the unmarked catch-all deletes a marked one that comes first |
| Rules.RemoveFound | pkg/wg/nl_rules.go:66-76 | deleting the rule found removes the first rule of its kind and keeps the others in order |
| Rules.SnapshotStep | pkg/wg/nl_rules.go:238-245 | each deletion driven by the snapshot hits its own rule in the live list, although that list is shrinking |
| Rules.WithoutKeepsOthers | pkg/wg/nl_rules.go:219-225 | dropping a kind of rule keeps every other rule with its multiplicity |
| Rules.RemoveUndoesInsert | pkg/wg/nl_rules.go:55-76 | deleting an added rule gives the list back, order included |
| Rules.InsertIsBehind | pkg/wg/nl_rules.go:100-106 | a rule added goes behind all of its own priority and before all later ones |
| Tunnels.Tunnel.constructor | pkg/wg/wg.go:95-121 | a new tunnel has no link, no endpoint and no captured native path |
| Tunnels.Tunnel.GetRule | pkg/wg/nl_rules.go:79-90 | the scan returns the first rule of the kind asked for, if there is one |
| Tunnels.Tunnel.DelRule | pkg/wg/nl_rules.go:108-118 | exactly the first rule of the kind goes; no such rule is no error |
| Tunnels.Tunnel.EnsureOneRule | pkg/wg/nl_rules.go:326-336 | adds the rule behind those of its priority unless one of its kind is there; adding never fails with a duplicate |
| Tunnels.Tunnel.EnsureDiscoveryBypass | pkg/wg/nl_rules.go:183-188 | the same for the discovery rule |
| Tunnels.Tunnel.DelBypassSrcRule | pkg/wg/nl_rules.go:226-250 | the snapshot loop removes every rule at priority 150 into the agent's table, whatever its mark, and no other; its default route goes too unless the table is reserved; the gauge reads 0 |
| Tunnels.Tunnel.RefreshBypassState | pkg/wg/nl_rules.go:310-323 | the gauge reads 1 exactly if the bypass is on and both rule and route exist |
| Tunnels.Tunnel.EnsureBypass | pkg/wg/nl_rules.go:280-305 | refines the bypass installation; a failing half does not stop the other |
| Tunnels.Tunnel.EnsureRules | pkg/wg/nl_rules.go:326-342 | refines the installation of all four rules and always succeeds |
| Tunnels.Tunnel.DelRules | pkg/wg/nl_rules.go:345-356 | refines the removal of all four rules and always succeeds |
| Tunnels.Tunnel.AddBypassRoute | pkg/wg/nl_route.go:70-100 | pins the endpoint to the path an unmarked lookup finds now, and remembers it; nothing changes without endpoint or path; succeeds exactly if both exist and the path's device does |
| Tunnels.Tunnel.DelBypassRoute | pkg/wg/nl_route.go:104-112 | the endpoint's host route goes, and nothing else |
| Tunnels.Tunnel.GetNativeDefault | pkg/wg/nl_route.go:123-152 | the captured path, else the main table's default that has a device other than the tunnel, in whatever order the routes are listed |
| Tunnels.Tunnel.EnsureBypassTableRoute | pkg/wg/nl_route.go:160-187 | the bypass table's default is the native path if there is one; all else unchanged; fails exactly if the bypass is on and there is none, or none whose device exists |
| Tunnels.Tunnel.GetBypassTableRoute | pkg/wg/nl_route.go:190-208 | finds the bypass table's default exactly if the bypass is on and there is one |
| Tunnels.Tunnel.DelBypassTableRoute | pkg/wg/nl_route.go:213-227 | removes the table's default, but never a reserved table's |
| Tunnels.Tunnel.EnsureRouting | pkg/wg/nl_route.go:21-65 | refines the four steps in their order; fails, with nothing changed, exactly on a bad gateway, a colliding gateway route or a vanished link |
| Tunnels.Tunnel.CheckRouting | pkg/wg/nl_route.go:229-261 | true exactly if the tunnel table's default leads to the link and both rules are found |
| Tunnels.Tunnel.NewWgLink | pkg/wg/nl_link.go:36-65 | deletes an existing link, with its routes and addresses, and adds one with a new index |
| Tunnels.Tunnel.Up | pkg/wg/wg.go:171-213 | refines the sequence of fallible steps, with what each failure leaves behind |
| Tunnels.Tunnel.EnsureMasquerade | pkg/wg/ipt_masq.go:20-28 | one masquerade rule, in front, unless there was one |
| Tunnels.Tunnel.DelIPtables | pkg/wg/ipt_masq.go:63-80 | the first masquerade rule goes, if there is one |
| Tunnels.Tunnel.Cleanup | pkg/wg/wg.go:123-138 | refines the tear-down of route, rules, link and masquerading |
| Tunnels.Tunnel.IsUp | pkg/wg/wg.go:140-169 | refines the check; the link reference and the gauge are refreshed and the kernel untouched |
| Routing.LookupAsIntended | pkg/wg/nl_rules.go:11-41 | with the agent's rules in place and no foreign rule deciding, every packet of every destination and mark goes where the comments say |
| Routing.StockHostUndisturbed | pkg/wg/nl_rules.go:11-41 | on a host with the stock rules no foreign rule decides for any non-local address |
| Routing.EnsureInstallsIff | pkg/wg/nl_rules.go:326-342 | the rule is in place afterwards exactly if it was before or nothing looks like it |
| Routing.RoutesFrame | pkg/wg/nl_route.go:11-20 | EnsureRouting changes no route but the gateway's, the endpoint's and two defaults; the main table's default is left alone |
| Routing.EnsureRoutingMeaning | pkg/wg/nl_route.go:11-20 | after EnsureRouting on any namespace, for every undisturbed destination and mark: the lookup is the intended one and the catch-all is the tunnel |
| Routing.IntendedReadings | pkg/wg/nl_rules.go:19-41 | the intention spelled out: specific main routes win; else discovery marks take main's default, bypass marks the bypass default, all others the tunnel |
| Routing.IsUpMeaning | pkg/wg/wg.go:140-169 | IsUp true means every unmarked packet takes a specific main route or the tunnel, and is masqueraded, as long as no rule is mistaken for the agent's and no other decides first |
| Routing.IsUpBelievableIff | pkg/wg/nl_route.go:243-258 | given IsUp, a packet without a specific main route takes the tunnel's default exactly if some priority-1000 rule into table 51820 has neither mark nor suppressor |
| Routing.IsUpBelievableLocallyIff | pkg/wg/nl_rules.go:78-90 | given IsUp, a packet with a specific main route takes it exactly if some rule that passes for the local one has no mark |
| Routing.IsUpFooled | pkg/wg/nl_rules.go:121-132 | a state that passes IsUp and routes no unmarked packet at all |
| Routing.IsUpFooledLocally | pkg/wg/nl_rules.go:78-90 | a state that passes IsUp and sends a pinned address into the tunnel |
| Routing.ConnectEstablishesIsUp | pkg/vpn/pia/connect.go:56-74 | from any state, a successful Connect is one IsUp recognises |
| Routing.GaugeTruthful | pkg/wg/nl_rules.go:307-309 | right after every operation that sets it the gauge says whether both halves are installed; after a deletion neither rule nor route is left to make it 1 |
| Routing.GaugeMeaning | pkg/wg/nl_rules.go:30-38 | both halves present and none mistaken: marked packets without a specific main route leave by the bypass table |
| Routing.GaugeBelievableIff | pkg/wg/nl_rules.go:252-267 | both halves present: marked packets take the bypass default exactly if some rule that passes for the agent's has no suppressor |
| Routing.GaugeFooled | pkg/wg/nl_rules.go:307-316 | both halves present, and marked packets go nowhere |
| Routing.EnsureRulesIdempotent | pkg/wg/nl_rules.go:325 | from at most one of each, one of each, and a second call changes no rule |
| Routing.DelRulesOwnership | pkg/wg/nl_rules.go:210-225 | for every rule, how many copies of it are left: none of a priority-150 rule into the agent's table, with mark 0 too; one fewer of the first that passes for the local, default or discovery rule; all of any other - so it keeps them exactly if it is neither; every route but the bypass default stays |
| Routing.DelRulesTakesOneEach | pkg/wg/nl_rules.go:344-356 | of all the rules that pass for the local, default or discovery rule, one of each kind goes, if there is one |
| Routing.ForeignLookalikeDeleted | pkg/wg/nl_rules.go:108-118 | somebody else's marked rule into table 51820 is deleted |
| Routing.NatTakesOne | pkg/wg/ipt_masq.go:63-80 | of the tunnel's masquerade rules one copy goes, if there is one, and nothing else of the chain |
| Routing.LinkReferences | pkg/wg/wg.go:128-151 | the tunnel's link reference after a check is that of the link there is, after a cleanup that of the link just deleted |
| NoLoop.NewWgLinkFresh | pkg/wg/nl_link.go:36-65 | the recreated link has a new index, no route and is not the captured native path |
| NoLoop.ConnectConfined | pkg/wg/nl_route.go:30-62 | after a connection on any state, the only routes to the tunnel are the gateway's and the tunnel table's default, and neither captured path nor bypass default is the tunnel |
| NoLoop.RunConsistent | pkg/wg/wg.go:73-91 | any run of agent operations and foreign changes keeps the namespace well formed and the captured link older than the next index |
| NoLoop.EncryptedPacketsAvoidTunnel | pkg/wg/nl_route.go:14-16 | after every connection of every run, with foreign changes in between, a lookup of the endpoint finds a device that is not the tunnel, given a path to pin, no mistaken local rule and no early rule into the tunnel's table |
| NoLoop.EncryptedPacketsAvoidTunnelIff | pkg/wg/nl_route.go:39-46 | for every run whose other rules leave them alone, the endpoint's packets avoid the tunnel exactly if there was a path to pin or a specific main route |
| NoLoop.NoLoopInAnyRun | pkg/wg/nl_route.go:114-122 | after every connection of every run - first, after cleanup, on top of the last one, by capture or by fallback - captured path and bypass default are not the tunnel |
| NoLoop.PinnedEndpointAvoidsTunnel | pkg/wg/nl_route.go:67-69 | once pinned, the endpoint's packets avoid the tunnel whatever foreign rules there are, short of early ones into the tunnel's table |
| NoLoop.EndpointAvoidsTunnelIff | pkg/wg/nl_route.go:39-46 | without that assumption: they avoid it exactly if there was a path to pin or a specific main route |
| History.EnsureLocalLayer | pkg/wg/nl_rules.go:327-331 | a missing rule ends up where a first installation would have put it, whichever of the agent's rules are there |
| History.DelRulesRestores | pkg/wg/nl_rules.go:344-356 | whichever of the agent's rules are installed, deleting them gives the host's rule list back in order |
| History.RunLeftover | pkg/vpn/pia/monitor.go:19-55 | any run of connections (to any servers, failed ones too), cleanups, checks and discoveries leaves only the agent's rules, link, masquerade rule, two defaults and host routes |
| History.CleanupRestoresIff | pkg/wg/wg.go:123-138 | from anything such a run may leave, Cleanup restores rules, routes of all tables, links, addresses and masquerading exactly if the host routes are intact |
| History.RoundTripIff | pkg/wg/wg.go:123-138 | so after any run at all |
| History.RunHostRoutes | pkg/wg/nl_route.go:67-112 | the main table's host routes after any run to servers without a host route of the host's own: the host's, the pinned ones, and those on the link |
| History.RoundTripPinnedIff | pkg/wg/nl_route.go:102-112 | after any such run Cleanup restores the host exactly if every endpoint pinned since its last cleanup is the current one; the others' routes stay behind |
| History.RoundTrip | pkg/wg/wg.go:123-138 | a cleanup before every change of endpoint is enough, reachable servers or not |
| History.RoundTripOnceIff | pkg/wg/nl_route.go:102-112 | one connection, whatever the answer, and a Cleanup restore the host exactly if it had no host route to the endpoint |
| History.RoundTripTwiceIff | pkg/vpn/pia/monitor.go:39-44 | two connections in succession and a Cleanup restore the host exactly if the first pinned nothing or both were to the same address; else the first pin stays |
| Independence.PathFound | pkg/wg/nl_route.go:75-87 | on a reconnect the path found for the endpoint is the untouched host's where there is one, although the agent's rules and the old pin are in place |
| Independence.GatewayCollides | pkg/wg/nl_route.go:35-37 | a host route of the host's own to the gateway makes EnsureRouting fail with nothing changed |
| Independence.ConnectResult | pkg/vpn/pia/connect.go:54-75 | on top of what a run with cleanups in between left, a connection succeeds exactly if the answer is complete and the host has no route to the gateway, with the namespace it then leaves |
| Independence.RunSettled | pkg/vpn/pia/monitor.go:19-55 | what such a run leaves: the host's routes, the bypass default by the known native path, and the endpoint pinned to the path found |
| Independence.HistoryIndependence | pkg/wg/nl_route.go:31-62 | after such a run a connection succeeds exactly when a new tunnel's would, and leaves what that would leave exactly if there is a path to the endpoint, or the agent's rule has opened none and the bypass knows no other native path than the host's default |
| Independence.PinsIff | pkg/wg/nl_route.go:75-95 | on the untouched host a connection pins its endpoint exactly if the answer is complete and there is a path |
| Independence.CapturedPathOutlivesItsServer | pkg/wg/nl_route.go:123-126 | the failing run: after a connection with a path and a Cleanup, one without a path gets a bypass default that a new tunnel's would not |
| Witnesses.StrayPin | pkg/vpn/pia/monitor.go:39-44 | a host, and two connections after which Cleanup leaves a /32 behind |
| Witnesses.CapturedPath | pkg/wg/nl_route.go:123-126 | a host and a run on which the captured path shows |
| Service.UpRoutesAsIntended | pkg/wg/nl_rules.go:11-41 | at any moment of any run on an untouched host, to any servers: if IsUp holds, every packet that the host's own rules leave alone goes where the comments say, and the catch-all is the tunnel |
| Service.EndpointKeepsItsPath | pkg/wg/nl_route.go:67-69 | at any moment of a run with cleanups in between: if IsUp holds and the untouched host has a path to the current endpoint, a lookup finds that very path, which is not the tunnel |
| Service.GaugeInAnyRun | pkg/wg/nl_rules.go:307-316 | in every state of every run to servers other than their own gateways the gauge says whether both halves of the bypass are installed |
| Service.GaugeAfterConnectIff | pkg/wg/nl_link.go:38-45 | from any state with the gauge right, it is right after a connection exactly if that got its routes, or the gauge was 0, or the bypass default did not lead into the old link |
| Witnesses.OrdinaryConnection | pkg/wg/nl_route.go:14-16 | a host on which the terms of NoLoop.EncryptedPacketsAvoidTunnel are met |
| Witnesses.TunnelledEndpoint | pkg/wg/nl_route.go:42-46 | a host without a path to the endpoint, whose connection succeeds and sends the endpoint's own packets into the tunnel |
| Witnesses.OwnRouteLost | pkg/wg/nl_route.go:102-112 | a host that has lost its own route to the endpoint after one connection and a Cleanup |
| Witnesses.OwnGateway | pkg/wg/nl_route.go:82-87 | a server whose address is its gateway's: native path and bypass default are the tunnel, and a failed reconnect leaves the gauge wrong |
| Witnesses.PathOpensOnReconnect | pkg/wg/nl_route.go:75-87 | a host on which reconnecting to the same server leaves what connecting anew would not |
| Measurement.BestIsLeast | pkg/vpn/pia/measure.go:34-53 | a region's best is the least latency of its reachable servers, and none exactly if none was reached |
| Measurement.ZeroDialForgets | pkg/vpn/pia/measure.go:49-51 | a dial that takes no time at all makes the region forget those before it |
| Measurement.EveryInterleaving | pkg/vpn/pia/measure.go:27-63 | in every interleaving each goroutine has the best of what it dialled, and each latency is the old or the final one |
| Measurement.Confluent | pkg/vpn/pia/measure.go:29-63 | when all are done the latencies are those of measuring one region after the other |
| Election.FindsIff | pkg/vpn/pia/measure.go:67-72 | somebody is reported exactly if there is somebody to elect and it is not a preferred region measured at the maximum |
| Election.ElectedIsNew | pkg/vpn/pia/measure.go:80-102 | whoever is elected is known, not cooling down, not the excluded region if that has an ID, and measured in bounds unless preferred |
| Election.ElectedIsFastestFree | pkg/vpn/pia/measure.go:78-106 | in the terms of the measurements: whoever is elected is neither excluded nor within 300 s of a connect failure, and is the preferred region or the fastest such one below the maximum, a preferred one not being free |
| Election.NobodyFree | pkg/vpn/pia/measure.go:69-72 | nobody is reported only if every region measured below the maximum is excluded or within 300 s of a connect failure, or a preferred one sits at the maximum |
| Election.ExclusionHoldsIff | pkg/vpn/pia/monitor.go:99-100 | excluding a region keeps it from being elected, on every ballot, exactly if its ID is not empty |
| Election.EmptyIDElected | pkg/vpn/pia/measure.go:80-83 | a ballot that elects the region it excludes |
| Election.CooldownRespected | pkg/vpn/pia/measure.go:85-89 | no region is elected within five minutes of its last recorded connect failure |
| Election.PreferredWins | pkg/vpn/pia/measure.go:91-98 | an eligible preferred region is the only one that can be elected, slow or unreachable as it may be, unless measured at the maximum |
| Election.PreferredAtMaximum | pkg/vpn/pia/measure.go:108-111 | a ballot with a candidate on which nobody is reported |
| Agents.KeptMeans | pkg/vpn/pia/discover.go:142-151 | the region kept for an ID is listed, online and not ignored; none is kept only if every listing of the ID is offline or ignored |
| Agents.KeptIsLast | pkg/vpn/pia/discover.go:148-150 | of several listings of an ID that may be kept, the last one is |
| Clients.Client.constructor | pkg/vpn/pia/pia.go:50-71 | no winner, no headends, no request pending, and the ignored IDs are those of the list |
| Clients.Client.TriggerNext | pkg/vpn/pia/pia.go:42-47 | one request is pending afterwards, and nothing else changes |
| Clients.Client.Discover | pkg/vpn/pia/discover.go:101-154 | fails, keeping the headends, exactly without a list of ten; else the headends are new, unmeasured and one per ID with an online, not ignored listing, the last such |
| Clients.Client.DialServers | pkg/vpn/pia/measure.go:36-53 | the loop computes the region's best |
| Clients.Client.Measure | pkg/vpn/pia/measure.go:27-63 | each headend gets its best latency or keeps its old one, in whatever order the map is iterated |
| Clients.Client.Pick | pkg/vpn/pia/measure.go:74-106 | for every iteration order of the map the loop elects somebody the specification elects, and reports the maximum exactly if it finds nobody |
| Clients.Client.BestHeadend | pkg/vpn/pia/measure.go:73-116 | the winner is a new, unconnected copy of an elected headend, and without one is left alone; nobody is found only while every headend in reach is excluded or within 300 s of a connect failure (or a preferred one sits at the maximum), and nobody faster than a winner that is not preferred is free |
| Clients.Client.Connect | pkg/vpn/pia/connect.go:39-75 | refines the tunnel's connection after token and server answer; the winner counts as connected from the moment its routes are in place, even if masquerading fails |
| Clients.Client.Cleanup | pkg/vpn/pia/cleanup.go:10-18 | cleans up the live tunnel |
| Clients.Client.Rediscover | pkg/vpn/pia/monitor.go:108-123 | discovery, measurement and election elect a kept listing from exactly the latencies this round measured, or nobody if nobody is to be elected |
| Clients.Client.DiscoverAndConnect | pkg/vpn/pia/monitor.go:59-89 | winner, cooldowns, requests, tunnel and namespace afterwards, for each of the three outcomes the answers allow; a name is announced exactly if the elected region was connected to |
| Clients.Client.ReelectNext | pkg/vpn/pia/monitor.go:99-140 | the same for re-election, which tears down only once another region is elected |
| Monitors.Monitor.OnVerdict | pkg/vpn/pia/monitor.go:21-46 | the whole state of counter, client, tunnel and namespace is that of the round: discoverAndConnect took place, with a possible outcome, exactly when the round calls it, and otherwise nothing was elected, torn down or connected but for the retry |
| Monitors.Monitor.OnFailure | pkg/vpn/pia/monitor.go:25-32 | the same for a failed check: below the threshold only the counter changes |
| Monitors.Monitor.OnFirst | pkg/vpn/pia/monitor.go:33-35 | the same without a winner: always a discovery |
| Monitors.Monitor.OnSuccess | pkg/vpn/pia/monitor.go:37-46 | the same with a winner: a discovery exactly if the tunnel is down and reconnecting to the same region fails, starting from what the retry left |
| Monitors.Monitor.RestoreTunnel | pkg/vpn/pia/monitor.go:39-41 | the tunnel after the check and the retry, and whether it is up or was brought up again |
| Monitors.Monitor.OnNext | pkg/vpn/pia/monitor.go:47-49 | consumes the request, and the whole state is that of a re-election with a possible outcome |
| Monitors.Monitor.OnTick | pkg/vpn/pia/monitor.go:51-53 | only latencies change |
| Monitors.Monitor.Round | pkg/vpn/pia/monitor.go:20-54 | whatever the event, the state is that of the round |
| Monitors.Monitor.Run | pkg/vpn/pia/monitor.go:19-55 | over any sequence of events the loop is a run of rounds with their outcomes, and announces exactly the regions switched to; what follows is about all such runs |
| Daemon.FailedVerdictRediscoversIff | pkg/vpn/pia/monitor.go:25-31 | in every run a failed verdict calls discoverAndConnect exactly if it completes a block with threshold more failures than successes since the counter was cleared |
| Daemon.VerdictCallsIff | pkg/vpn/pia/monitor.go:25-46 | a healthy verdict calls discoverAndConnect exactly if there is no winner, or IsUp is false and token, server or connection of the retry fails; a failed one exactly if it exhausts the counter; and what becomes of the counter |
| Daemon.DiscoveryTrichotomy | pkg/vpn/pia/monitor.go:59-89 | nobody elected: winner and cooldowns kept; connection failed: the elected region is the winner and it alone starts cooling down; connected: the elected region is the winner and none does |
| Daemon.QuietRound | pkg/vpn/pia/monitor.go:20-54 | a round without a call leaves winner, cooldowns and, but for the retry, the host alone |
| Daemon.ExhaustionsPaid | pkg/vpn/pia/monitor.go:25-31 | threshold times the calls made by exhausted counters, plus the counter, never exceeds the failed verdicts |
| Daemon.WinnersSelectable | pkg/vpn/pia/discover.go:142-161 | no ignored or offline region is ever left the winner or announced |
| Daemon.AnnouncedIsUp | pkg/vpn/pia/monitor.go:86-88 | whenever a region is announced it is the winner and the tunnel passes IsUp |
| Daemon.CooldownKept | pkg/vpn/pia/measure.go:85-89 | in every run on a clock that does not run backwards, a region whose connection failed is not elected again within five minutes |
| Daemon.CooldownEnds | pkg/vpn/pia/measure.go:85-89 | in every run a kept region measured below the maximum, not excluded and five minutes past its last failure makes the next election elect somebody (unless a preferred region sits at the maximum) |
| Daemon.ReelectionTrichotomy | pkg/vpn/pia/monitor.go:99-140 | old winner kept and at most the discovery rule touched; or a winner of another ID; or none, the failed region cooling down and every next healthy verdict rediscovering |
| Daemon.RunIsOps | pkg/vpn/pia/monitor.go:19-55 | what a run of the monitor does to the host is a run of the operations that NoLoop, History and Independence are about |
| Daemon.AnnouncedKeepsItsPath | pkg/wg/nl_route.go:14-16 | on an untouched host with a path to the endpoint, whenever the daemon announces a region the endpoint's packets take that very path and not the tunnel, given servers other than their own gateways and without a host route of the host's own, and retries answered with the address the tunnel had |
| Daemon.AnnouncedNeverLoops | pkg/wg/nl_route.go:14-16 | from any consistent state: whenever the daemon announces a region, the endpoint's packets are routed and not into the tunnel, if at the start of that connection there was a path to pin, nobody's rule passed for the local one and nobody's early rule used table 51820 |
| Daemon.UpRoutesAsIntended | pkg/wg/nl_rules.go:11-41 | on an untouched host, at any moment at which the tunnel passes IsUp: every packet the host's own rules leave alone goes where it is meant to |
| Daemon.AnnouncedRoutesAsIntended | pkg/vpn/pia/monitor.go:86-88 | so whenever the daemon announces a region |
| Daemon.GaugeRight | pkg/wg/nl_rules.go:307-316 | on an untouched host the gauge is right at any moment of a run to servers other than their own gateways |
| Daemon.HostRestoredIff | pkg/wg/wg.go:123-138 | started on an untouched host, the daemon can be cleaned up after at any moment exactly if the host routes are intact |
| Daemon.HostRestored | pkg/vpn/pia/monitor.go:39-44 | which they are if every retry was answered with the address the tunnel had and no server had a host route of the host's own |
| Daemon.RoundFollowsProtocol | pkg/vpn/pia/monitor.go:20-54 | every round is a sequence of enabled actions of the transition system, with the same counter, winner, requests and announcement, so what holds of all runs there holds here |

## Left out

- HTTP, TLS, certificates, JSON, tokens and key exchange: their outcomes are parameters (`Answers`, `ServerConf`). The signature slicing of the server list and empty server lists, which stop the program in the source, are not modelled.
- netlink, wgctrl and iptables as protocols: the `Kernel` class offers the calls the agent makes. A call fails only for the reasons modelled there (duplicate, missing entry, missing device, refused device or iptables call); permission and resource errors, and listings that fail, are not modelled.
- The kernel's own local-table entry for the tunnel's address: addresses are a set of their own. Route metrics, packet TOS and IPv6 are not used by the agent; a table holds one route per prefix.
- Whether the link is administratively up, and the errors of setting it up, which the source only logs.
- Real time: sleeps are dropped, the ticker may fire at any moment, and clock readings are parameters, one for all comparisons of an election.
- Overflow of Go's 64-bit integers, and rounding: the quotient test is over the reals and proved equal to its integer form.
- Go's library sort is replaced by an insertion sort; `Median.SortedUnique` makes the choice irrelevant.
- Standalone `-cleanup`, whose fresh tunnel has no endpoint, the lazily created tunnel, and Monitor's deferred Cleanup, which nothing reaches while the process lives.
- Metrics, dashboard, flags, logging and the command line, except the bypass gauge, a field of `Tunnel`.
- Monitors.Monitor.Run: the source's endless loop is proved for every finite sequence of events; what the two goroutines do to each other is in `Protocol`, joined to it by `Daemon.RoundFollowsProtocol`. Other software's changes to the namespace happen in the runs of `NoLoop`, not in those of `Daemon`.
- Clients.Client.Measure: measures one region after the other; that the goroutines of the source come to the same is `Measurement.Confluent`.
- Independence.HistoryIndependence: is about runs with a cleanup before every change of endpoint, to servers whose address is not their own gateway's and to which the host has no host route; otherwise the host itself may already differ, as `History.RoundTripPinnedIff` and `History.RoundTripOnceIff` say.
- Routing.IsUpMeaning: assumes that no rule is mistaken for the agent's; the exact conditions are `Routing.IsUpBelievableIff` and `Routing.IsUpBelievableLocallyIff`.
- Routing.GaugeMeaning: assumes the same; the exact condition is `Routing.GaugeBelievableIff`.
- Routing.EnsureRoutingMeaning: speaks of packets for which no foreign rule at priority 1000 or before decides and no foreign route in table 51820 is longer than its default.
