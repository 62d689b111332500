/** The daemon object: the fields of Daemon and its loops, proved against DaemonSpec. */
module DaemonObject {
  import opened Switches
  import opened Texts
  import opened DaemonSpec
  import opened DaemonTheorems

  class Daemon {
    const system: System
    var now: nat
    var connections: map<Hop, Link>
    var excludedAddrSet: map<Prefix, int>
    var splitTunnelDnsResolveHosts: seq<string>
    var hostRules: seq<string> // the rules last given to the DNS utilities
    var splitTunnelDnsRoutes: set<Prefix>
    var splitTunnelDnsGeneration: int
    var splitTunnelDnsKillSwitchEnabled: Switch
    var lookups: seq<Lookup>
    ghost var kernel: set<Prefix>
    ghost var allowed: set<Prefix>
    ghost var statics: multiset<Prefix>

    /** The snapshot the specification functions work on. */
    ghost function Model(): State
      reads this
    {
      State(now, connections, excludedAddrSet, splitTunnelDnsResolveHosts, hostRules, splitTunnelDnsRoutes,
            splitTunnelDnsGeneration, splitTunnelDnsKillSwitchEnabled, lookups, kernel, allowed, statics)
    }

    constructor (system: System)
      ensures this.system == system && Model() == Idle && Routed(system, Model()) && Counted(Model())
    {
      this.system := system;
      now, connections, excludedAddrSet := 0, map[], map[];
      splitTunnelDnsResolveHosts, hostRules, splitTunnelDnsRoutes := [], [], {};
      splitTunnelDnsGeneration, splitTunnelDnsKillSwitchEnabled := 0, Off;
      lookups, kernel, allowed, statics := [], {}, {}, multiset{};
    }

    // ---------- reference counts ----------

    method AddExclusionRoute(prefix: Prefix) returns (ok: bool)
      modifies this
      ensures Model() == Acquire(system, old(Model()), prefix)
      ensures ok == Acquires(system, old(Model()), prefix)
    {
      if prefix in excludedAddrSet {
        excludedAddrSet := excludedAddrSet[prefix := excludedAddrSet[prefix] + 1];
        return true;
      }
      var added := system.addRoute(now);
      now := now + 1;
      if !added {
        return false;
      }
      kernel := kernel + {prefix};
      excludedAddrSet := excludedAddrSet[prefix := 1];
      return true;
    }

    method DelExclusionRoute(prefix: Prefix)
      modifies this
      ensures Model() == Release(system, old(Model()), prefix)
    {
      if prefix in excludedAddrSet && excludedAddrSet[prefix] > 1 {
        excludedAddrSet := excludedAddrSet[prefix := excludedAddrSet[prefix] - 1];
        return;
      }
      excludedAddrSet := excludedAddrSet - {prefix};
      if system.deleteRoute(now, prefix) {
        kernel := kernel - {prefix};
      }
    }

    /** The routes come out of a set in no particular order; the result does not depend on it. */
    method ClearSplitTunnelDnsRoutes()
      modifies this
      ensures Model() == ClearDns(system, old(Model()))
    {
      var todo := splitTunnelDnsRoutes;
      ghost var done := {};
      while todo != {}
        invariant done + todo == old(splitTunnelDnsRoutes) && done !! todo
        invariant Model() == old(Model()).(excluded := excludedAddrSet, kernel := kernel)
        invariant excludedAddrSet == Dropped(old(excludedAddrSet), done)
        invariant kernel == old(kernel) - Deleted(system, now, old(excludedAddrSet), done)
        decreases todo
      {
        hide Dropped, Deleted;
        var route :| route in todo;
        todo := todo - {route};
        DropOneMore(system, Model(), old(excludedAddrSet), old(kernel), done, route);
        if route in excludedAddrSet {
          DelExclusionRoute(route);
        }
        done := done + {route};
      }
      assert done == old(splitTunnelDnsRoutes);
      now := now + 1;
      splitTunnelDnsRoutes := {};
    }

    method RefreshSplitTunnelStaticRoutes(addresses: seq<string>)
      modifies this
      ensures Model() == AddStatics(system, old(Model()), addresses)
    {
      hide Acquire;
      for i := 0 to |addresses|
        invariant AddStatics(system, Model(), addresses[i..]) == AddStatics(system, old(Model()), addresses)
      {
        var address := Trimmed(addresses[i]);
        if address != "" {
          var ok := AddExclusionRoute(system.parse(address));
          if ok {
            statics := statics + multiset{system.parse(address)};
          }
        }
      }
    }

    // ---------- DNS pipeline ----------

    /** The kill switch hears of all new routes at the end; `Told` is the state as if it had heard
        of each at once. */
    method OnSplitTunnelHostResolved(ips: seq<string>)
      modifies this
      ensures Model() == Learn(system, old(Model()), ips)
    {
      hide LearnOne, Prefixes;
      var routedIps: seq<string> := [];
      assert Told(routedIps) == Model() by { NothingRouted(system, allowed); }
      for i := 0 to |ips|
        invariant Learn(system, Told(routedIps), ips[i..]) == Learn(system, old(Model()), ips)
      {
        var routed := RouteResolved(ips[i], routedIps);
        if routed {
          routedIps := routedIps + [ips[i]];
        }
      }
      if splitTunnelDnsKillSwitchEnabled.On? && routedIps != [] {
        allowed := allowed + Prefixes(system, routedIps);
      }
      if routedIps == [] { NothingRouted(system, allowed); }
    }

    /** A route for an address that is not routed yet. */
    method RouteResolved(ip: string, ghost routedIps: seq<string>) returns (routed: bool)
      modifies this
      ensures Told(if routed then routedIps + [ip] else routedIps) ==
              LearnOne(system, old(Told(routedIps)), system.parse(ip))
    {
      hide Acquire, Acquires, Prefixes;
      var route := system.parse(ip);
      if route in splitTunnelDnsRoutes {
        return false;
      }
      RoutedAlso(system, routedIps, ip);
      SameAcquisition(system, Model(), Told(routedIps), route);
      routed := AddExclusionRoute(route);
      if routed {
        splitTunnelDnsRoutes := splitTunnelDnsRoutes + {route};
      }
    }

    ghost function Told(routedIps: seq<string>): State
      reads this
    {
      Model().(allowed :=
        if splitTunnelDnsKillSwitchEnabled.On? then allowed + Prefixes(system, routedIps) else allowed)
    }

    /** A lookup's answer is dropped if the generation has moved on since it was issued. */
    method OnLookupAnswered(index: nat, addresses: seq<HostAddress>)
      modifies this
      ensures Model() == Answered(system, old(Model()), index, addresses)
    {
      hide Learn;
      if index >= |lookups| {
        return;
      }
      var generation := lookups[index].generation;
      lookups := lookups[..index] + lookups[index + 1..];
      if generation != splitTunnelDnsGeneration {
        return;
      }
      OnSplitTunnelHostResolved(Distinct(V4Texts(addresses)));
    }

    method ConfigureSplitTunnelDnsRoutes(config: Config)
      modifies this
      ensures Model() == Configure(system, old(Model()), config)
    {
      hide ClearDns, ExactHosts, HostRules, Distinct;
      splitTunnelDnsGeneration := splitTunnelDnsGeneration + 1;
      splitTunnelDnsKillSwitchEnabled := config.killSwitch;
      ClearSplitTunnelDnsRoutes();
      var hosts, rules := ReadRules(config.dnsRules);
      splitTunnelDnsResolveHosts := Distinct(hosts);
      hostRules := Distinct(rules);
    }

    /** The hosts to resolve, and all rules for the DNS utilities. */
    static method ReadRules(dnsRules: seq<Rule>) returns (hosts: seq<string>, rules: seq<string>)
      ensures hosts == ExactHosts(dnsRules) && rules == HostRules(dnsRules)
    {
      hosts, rules := [], [];
      for i := 0 to |dnsRules|
        invariant hosts + ExactHosts(dnsRules[i..]) == ExactHosts(dnsRules)
        invariant rules + HostRules(dnsRules[i..]) == HostRules(dnsRules)
      {
        var rule := dnsRules[i];
        if rule.Malformed? || rule.Subnet? {
          continue;
        }
        if rule.ExactHost? {
          hosts := hosts + [rule.text];
        }
        rules := rules + [rule.text];
      }
    }

    method RefreshSplitTunnelDnsRoutes()
      modifies this
      ensures Model() == IssueLookups(old(Model()))
    {
      var generation := splitTunnelDnsGeneration;
      for i := 0 to |splitTunnelDnsResolveHosts|
        invariant Model() == old(Model()).(lookups := lookups)
        invariant lookups == old(lookups) + IssueLookups(old(Model())).lookups[|old(lookups)|..][..i]
      {
        lookups := lookups + [Lookup(splitTunnelDnsResolveHosts[i], generation)];
      }
    }

    // ---------- handshakes ----------

    method HandshakeCompleted(hop: Hop, config: Config)
      modifies this
      ensures Model() == HandshakeSeen(system, old(Model()), hop, config)
    {
      hide Configure, AddStatics, IssueLookups;
      connections := connections[hop := Link(config, On)];
      ConfigureSplitTunnelDnsRoutes(config);
      RefreshSplitTunnelStaticRoutes(config.excludedAddresses);
      RefreshSplitTunnelDnsRoutes();
    }

    method CheckHopHandshake(hop: Hop, peers: seq<Peer>)
      modifies this
      ensures Model() == CheckHop(system, old(Model()), hop, peers)
    {
      hide HandshakeSeen;
      if hop !in connections || connections[hop].shaken.On? {
        return;
      }
      var config := connections[hop].config;
      for i := 0 to |peers|
        invariant MatchPeers(system, Model(), hop, config, peers[i..])
               == MatchPeers(system, old(Model()), hop, config, peers)
      {
        if system.keysMatch(config.serverKey, peers[i].key) && peers[i].handshake != 0 {
          HandshakeCompleted(hop, config);
        }
      }
    }

    /** Connections are visited in the order of their hop type. */
    method CheckHandshakes(peers: seq<Peer>)
      modifies this
      ensures Model() == CheckHandshake(system, old(Model()), peers)
    {
      hide CheckHop;
      CheckHopHandshake(SingleHop, peers);
      CheckHopHandshake(MultiHopEntry, peers);
      CheckHopHandshake(MultiHopExit, peers);
    }

    // ---------- activation and teardown ----------

    method Deactivate() returns (ok: bool)
      modifies this
      ensures Model() == DaemonSpec.Deactivate(system, old(Model()))
      ensures ok == (GoesDown(system, old(Model())) && DropsInterface(system, old(Model())))
    {
      hide DaemonSpec.TearDown;
      if connections != map[] {
        if !system.goDown(now) {
          now := now + 1;
          return false;
        }
      }
      ok := TearDown();
    }

    method TearDown() returns (ok: bool)
      modifies this
      ensures Model() == DaemonSpec.TearDown(system, old(Model()))
      ensures ok == DropsInterface(system, old(Model()))
    {
      hide ClearDns, Swept;
      ObsoleteDnsPipeline();
      ClearSplitTunnelDnsRoutes();
      DeleteExclusionRoutes();
      ForgetConnections();
      ok := system.dropInterface(now);
      now := now + 1;
    }

    method ObsoleteDnsPipeline()
      modifies this
      ensures Model() == old(Model()).(now := old(now) + 1, sync := Off,
                                       generation := old(splitTunnelDnsGeneration) + 1)
    {
      now := now + 1;
      splitTunnelDnsKillSwitchEnabled := Off;
      splitTunnelDnsGeneration := splitTunnelDnsGeneration + 1;
    }

    method ForgetConnections()
      modifies this
      ensures Model() == old(Model()).(hosts := [], hostRules := [], excluded := map[], connections := map[],
                                       statics := multiset{})
    {
      splitTunnelDnsResolveHosts := [];
      hostRules := [];
      excludedAddrSet := map[];
      connections := map[];
      statics := multiset{};
    }

    method DeleteExclusionRoutes()
      modifies this
      ensures Model() == old(Model()).(now := old(now) + 1,
                kernel := old(kernel) - Swept(system, old(now), excludedAddrSet.Keys))
    {
      var todo := excludedAddrSet.Keys;
      while todo != {}
        invariant todo <= excludedAddrSet.Keys
        invariant Model() == old(Model()).(kernel := kernel)
        invariant kernel == old(kernel) - Swept(system, now, excludedAddrSet.Keys - todo)
        decreases todo
      {
        var p :| p in todo;
        todo := todo - {p};
        if system.deleteRoute(now, p) {
          kernel := kernel - {p};
        }
      }
      now := now + 1;
    }

    method SwitchServer(config: Config)
      requires config.hop in connections
      modifies this
      ensures Model() == DaemonSpec.SwitchServer(system, old(Model()), config)
    {
      hide AddStatics, ReleaseStatics;
      var last := connections[config.hop].config;
      RefreshSplitTunnelStaticRoutes(config.excludedAddresses);
      var updated := system.switchPeer(now);
      now := now + 1;
      if !updated {
        return;
      }
      ReleaseOldRoutes(last.excludedAddresses);
      if config.serverKey != last.serverKey {
        if !system.dropPeer(now) {
          now := now + 1;
          return;
        }
      }
      now := now + 2;
      connections := connections[config.hop := Link(config, Off)];
    }

    method ReleaseOldRoute(address: string)
      modifies this
      ensures Model() == ReleaseStatic(system, old(Model()), address)
    {
      hide Release;
      var prefix := system.parseHost(address);
      if prefix in excludedAddrSet {
        statics := statics - multiset{prefix};
      }
      ReleaseOfOthers(system, old(Model()), Model(), prefix);
      DelExclusionRoute(prefix);
      now := now + 1;
    }

    method ReleaseOldRoutes(addresses: seq<string>)
      modifies this
      ensures Model() == ReleaseStatics(system, old(Model()), addresses)
    {
      hide ReleaseStatic;
      for i := 0 to |addresses|
        invariant ReleaseStatics(system, Model(), addresses[i..]) == ReleaseStatics(system, old(Model()), addresses)
      {
        var address := Trimmed(addresses[i]);
        if address != "" {
          ReleaseOldRoute(address);
        }
      }
    }

    method Activate(config: Config)
      modifies this
      ensures Model() == DaemonSpec.Activate(system, old(Model()), config)
    {
      hide DaemonSpec.SwitchServer, DaemonSpec.TearDown;
      if config.hop in connections {
        if connections[config.hop].config.identity == config.identity {
          SwitchServer(config);
          return;
        }
        var down := Deactivate();
        if !down {
          return;
        }
      }
      var up := system.comeUp(now);
      now := now + 1;
      if up {
        connections := connections[config.hop := Link(config, Off)];
      }
    }

    /** Routes stay tracked after every event, and balanced books stay balanced unless a switch takes a
        learned reference. */
    method Handle(event: Event)
      requires Routed(system, Model())
      modifies this
      ensures Model() == Step(system, old(Model()), event)
      ensures Routed(system, Model())
      ensures old(Counted(Model())) ==> (Counted(Model()) <==> !TakesLearned(system, old(Model()), event))
    {
      hide DaemonSpec.Activate, DaemonSpec.Deactivate, CheckHandshake, Answered, Routed, Counted, TakesLearned;
      StepKeeps(system, Model(), event);
      match event {
        case Activation(config) => Activate(config);
        case Deactivation => var _ := Deactivate();
        case HandshakePoll(peers) => CheckHandshakes(peers);
        case LookupAnswer(index, addresses) => OnLookupAnswered(index, addresses);
      }
    }
  }

  lemma NothingRouted(k: System, allowed: set<Prefix>)
    ensures allowed + Prefixes(k, []) == allowed
  {
  }

  lemma RoutedAlso(k: System, ips: seq<string>, ip: string)
    ensures Prefixes(k, ips + [ip]) == Prefixes(k, ips) + {k.parse(ip)}
  {
    assert ip in ips + [ip];
    assert forall x :: x in ips ==> x in ips + [ip];
  }

  /** One learned route after the others. */
  lemma DropOneMore(k: System, d: State, counts: map<Prefix, int>, kernel: set<Prefix>, done: set<Prefix>, p: Prefix)
    requires d.excluded == Dropped(counts, done) && d.kernel == kernel - Deleted(k, d.now, counts, done) && p !in done
    ensures var t := if p in d.excluded then Release(k, d, p) else d;
      && t.excluded == Dropped(counts, done + {p})
      && t.kernel == kernel - Deleted(k, d.now, counts, done + {p})
  {
  }

  /** Releasing does not depend on the history of acquisitions. */
  lemma ReleaseOfOthers(k: System, d: State, t: State, p: Prefix)
    requires t == d.(statics := t.statics)
    ensures Release(k, t, p) == Release(k, d, p).(statics := t.statics)
  {
  }

  /** Acquisition does not depend on what the kill switch knows. */
  lemma SameAcquisition(k: System, d: State, told: State, p: Prefix)
    requires told == d.(allowed := told.allowed)
    ensures Acquires(k, told, p) == Acquires(k, d, p)
    ensures Acquire(k, told, p) == Acquire(k, d, p).(allowed := told.allowed)
  {
  }
}
