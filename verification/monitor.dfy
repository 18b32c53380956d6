// pkg/vpn/pia/monitor.go: the loop, and the branches of its select, one method
// each. A round of the loop is one of agent.dfy, and a run of it a run there.
module Monitors {
  import opened Agents
  import opened Clients
  import opened Common
  import opened Failures
  import opened Measurement
  import opened Netspace

  class Monitor {
    const client: Client
    var failedCount: nat

    ghost predicate Valid()
      reads client, client.headends.Values
    {
      client.Valid()
    }

    ghost function State(): Snapshot
      reads this, client, client.wg, client.wg.kernel
    {
      Snapshot(failedCount, client.State())
    }

    constructor (client: Client)
      requires client.Valid()
      ensures Valid() && this.client == client && State() == Snapshot(0, client.State())
    {
      this.client := client;
      failedCount := 0;
    }

    // What an announcement says: the headend named was connected to in this call.
    twostate predicate Truthful(new announced: Option<string>)
      reads client, client.winner
    {
      announced.Some? ==>
        client.winner != null && fresh(client.winner) && client.winner.connected
        && (client.winner.listing.name != "" ==> announced.value == client.winner.listing.name)
        && (client.winner.listing.name == "" ==> announced.value == client.winner.listing.id)
    }

    // A verdict.
    method OnVerdict(healthy: bool, retryToken: bool, retryServer: Option<ServerConf>, a: Answers)
      returns (announced: Option<string>, ghost outcome: Option<Outcome>)
      requires Valid()
      modifies this, client`headends, client`winner, client`failedRegions, client.winner, client.wg, client.wg.kernel
      ensures Valid() && client.Renewed() && Truthful(announced) && announced == AnnouncedBy(outcome)
      ensures var e := Verdict(healthy, retryToken, retryServer, a);
              && Fits(client.Config(), old(State()), e, outcome)
              && State() == AfterRound(client.Config(), old(State()), e, outcome)
    {
      hide Possible, Connected, Netspace.IsUp, Netspace.Cleanup, EnsureDiscovery;
      if !healthy {
        announced, outcome := OnFailure(retryToken, retryServer, a);
      } else if client.winner == null {
        announced, outcome := OnFirst(retryToken, retryServer, a);
      } else {
        announced, outcome := OnSuccess(retryToken, retryServer, a);
      }
    }

    // Failed check.
    method OnFailure(ghost retryToken: bool, ghost retryServer: Option<ServerConf>, a: Answers)
      returns (announced: Option<string>, ghost outcome: Option<Outcome>)
      requires Valid()
      modifies this, client`headends, client`winner, client`failedRegions, client.wg, client.wg.kernel
      ensures Valid() && client.Renewed() && Truthful(announced) && announced == AnnouncedBy(outcome)
      ensures var e := Verdict(false, retryToken, retryServer, a);
              && Fits(client.Config(), old(State()), e, outcome)
              && State() == AfterRound(client.Config(), old(State()), e, outcome)
    {
      hide Possible, Connected, Netspace.IsUp, Netspace.Cleanup, EnsureDiscovery;
      failedCount := failedCount + 1;
      if failedCount >= client.maxFailed {
        ghost var o: Outcome;
        announced, o := client.DiscoverAndConnect(a);
        failedCount := 0;
        return announced, Some(o);
      }
      return None, None;
    }

    // First connection attempt.
    method OnFirst(ghost retryToken: bool, ghost retryServer: Option<ServerConf>, a: Answers)
      returns (announced: Option<string>, ghost outcome: Option<Outcome>)
      requires Valid() && client.winner == null
      modifies this, client`headends, client`winner, client`failedRegions, client.wg, client.wg.kernel
      ensures Valid() && client.Renewed() && Truthful(announced) && announced == AnnouncedBy(outcome)
      ensures var e := Verdict(true, retryToken, retryServer, a);
              && Fits(client.Config(), old(State()), e, outcome)
              && State() == AfterRound(client.Config(), old(State()), e, outcome)
    {
      hide Possible, Connected, Netspace.IsUp, Netspace.Cleanup, EnsureDiscovery;
      failedCount := 0;
      ghost var o: Outcome;
      announced, o := client.DiscoverAndConnect(a);
      outcome := Some(o);
    }

    // Successful check.
    method OnSuccess(retryToken: bool, retryServer: Option<ServerConf>, a: Answers)
      returns (announced: Option<string>, ghost outcome: Option<Outcome>)
      requires Valid() && client.winner != null
      modifies this, client`headends, client`winner, client`failedRegions, client.winner`connected
      modifies client.wg, client.wg.kernel
      ensures Valid() && client.Renewed() && Truthful(announced) && announced == AnnouncedBy(outcome)
      ensures var e := Verdict(true, retryToken, retryServer, a);
              && Fits(client.Config(), old(State()), e, outcome)
              && State() == AfterRound(client.Config(), old(State()), e, outcome)
    {
      hide Possible, Connected, Netspace.IsUp, Netspace.Cleanup, EnsureDiscovery;
      failedCount := ReduceByOne(failedCount);
      var restored := RestoreTunnel(retryToken, retryServer);
      if !restored {
        ghost var o: Outcome;
        announced, o := client.DiscoverAndConnect(a);
        return announced, Some(o);
      }
      return None, None;
    }

    // Check the tunnel, and connect to the same headend again if it is down.
    method RestoreTunnel(retryToken: bool, retryServer: Option<ServerConf>) returns (restored: bool)
      requires client.Valid() && client.winner != null
      modifies client.winner`connected, client.wg, client.wg.kernel
      ensures client.Valid()
      ensures (client.wg.View(), restored) == Retry(client.Config(), old(client.wg.View()), retryToken, retryServer)
    {
      restored := client.wg.IsUp();
      if !restored {
        restored := client.Connect(retryToken, retryServer);
      }
    }

    // A re-election request.
    method OnNext(a: Answers) returns (announced: Option<string>, ghost outcome: Option<Outcome>)
      requires Valid() && client.nextCh == 1
      modifies client`headends, client`winner, client`failedRegions, client`nextCh, client.wg, client.wg.kernel
      ensures Valid() && client.Renewed() && Truthful(announced) && announced == AnnouncedBy(outcome)
      ensures Fits(client.Config(), old(State()), Next(a), outcome)
      ensures State() == AfterRound(client.Config(), old(State()), Next(a), outcome)
    {
      hide Connected, Netspace.IsUp, Netspace.Cleanup, EnsureDiscovery, Electable, Chosen;
      client.nextCh := client.nextCh - 1;
      ghost var o: Outcome;
      announced, o := client.ReelectNext(a);
      outcome := Some(o);
    }

    method OnTick(dials: string -> seq<Option<nat>>)
      requires Valid()
      modifies client.headends.Values`latency
      ensures Valid() && State() == old(State())
      ensures forall id :: id in client.headends ==>
        client.headends[id].latency == Measured(old(client.headends[id].latency), dials(id))
    {
      client.Measure(dials);
    }

    // One round of the loop. The select does not proceed on an empty channel.
    method Round(e: Event) returns (announced: Option<string>, ghost outcome: Option<Outcome>)
      requires Valid()
      modifies this, client`headends, client`winner, client`failedRegions, client`nextCh
      modifies client.winner, client.headends.Values, client.wg, client.wg.kernel
      ensures Valid() && client.Renewed() && Truthful(announced) && announced == AnnouncedBy(outcome)
      ensures Fits(client.Config(), old(State()), e, outcome)
      ensures State() == AfterRound(client.Config(), old(State()), e, outcome)
    {
      hide Possible, Connected, Netspace.IsUp, Netspace.Cleanup, EnsureDiscovery, Retry;
      announced, outcome := None, None;
      match e
      case Verdict(healthy, retryToken, retryServer, a) =>
        announced, outcome := OnVerdict(healthy, retryToken, retryServer, a);
      case Request =>
        client.TriggerNext();
      case Next(a) =>
        if client.nextCh > 0 {
          announced, outcome := OnNext(a);
        }
      case Tick(dials) =>
        OnTick(dials);
    }

    // The loop, over any sequence of events.
    method Run(events: seq<Event>) returns (announced: seq<string>, ghost outcomes: seq<Option<Outcome>>)
      requires Valid()
      modifies this, client, client.winner, client.headends.Values, client.wg, client.wg.kernel
      ensures Valid() && FitsRun(client.Config(), old(State()), events, outcomes)
      ensures State() == AfterRun(client.Config(), old(State()), events, outcomes)
      ensures announced == NamesIn(outcomes)
    {
      hide Fits, AfterRound, FitsRun, AfterRun, NamesIn;
      ghost var cfg, start := client.Config(), State();
      announced, outcomes := [], [];
      NoRounds(cfg, start);
      assert events[..0] == [];
      for i := 0 to |events|
        invariant Valid() && |outcomes| == i && FitsRun(cfg, start, events[..i], outcomes)
        invariant State() == AfterRun(cfg, start, events[..i], outcomes)
        invariant announced == NamesIn(outcomes)
        invariant client.winner == null || client.winner == old(client.winner) || fresh(client.winner)
        invariant forall r :: r in client.headends.Values ==> r in old(client.headends.Values) || fresh(r)
      {
        ghost var o;
        var name;
        name, o := Round(events[i]);
        OneMoreRound(cfg, start, events[..i], outcomes, events[i], o);
        assert events[..i + 1] == events[..i] + [events[i]];
        outcomes := outcomes + [o];
        if name.Some? {
          announced := announced + [name.value];
        }
      }
      assert events[..|events|] == events;
    }
  }
}
