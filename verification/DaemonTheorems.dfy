/** Conservation of route references, complete teardown, and what server switches do to both. */
module DaemonTheorems {
  import opened Switches
  import opened Texts
  import opened DaemonSpec

  // ---------- what every event keeps ----------

  /** One reference for a DNS-learned prefix, plus one for every static acquisition. */
  function References(d: State, p: Prefix): nat {
    d.statics[p] + (if p in d.dnsRoutes then 1 else 0)
  }

  /** The books balance: every count is the number of references. */
  ghost predicate Counted(d: State) {
    forall p :: Count(d.excluded, p) == References(d, p)
  }

  ghost predicate DeletesSucceed(k: System) {
    forall n: nat, p: Prefix :: k.deleteRoute(n, p)
  }

  ghost predicate AddsSucceed(k: System) { forall n: nat :: k.addRoute(n) }

  predicate Positive(counts: map<Prefix, int>) {
    forall p :: p in counts ==> counts[p] > 0
  }

  /** Whatever the counts say: counted prefixes are installed, and are the only ones if no deletion ever
      fails; the kill switch knows the learned routes; every host to resolve is a rule. */
  ghost predicate Routed(k: System, d: State) {
    && Positive(d.excluded)
    && d.excluded.Keys <= d.kernel
    && (DeletesSucceed(k) ==> d.kernel == d.excluded.Keys)
    && (d.sync.On? ==> d.dnsRoutes <= d.allowed)
    && (forall h :: h in d.hosts ==> h in d.hostRules)
    && (forall i :: 0 <= i < |d.lookups| ==> d.lookups[i].generation <= d.generation)
  }

  /** From `d` to `t` routes stay tracked and balanced books stay balanced. */
  ghost predicate Kept(k: System, d: State, t: State) {
    Routed(k, t) && (Counted(d) ==> Counted(t))
  }

  lemma AddStaticKeeps(k: System, d: State, address: string)
    requires Routed(k, d)
    ensures Kept(k, d, AddStatic(k, d, address))
  {
    if address != "" { AcquireKeeps(k, d, k.parse(address)); }
  }

  lemma AcquireKeeps(k: System, d: State, p: Prefix)
    requires Routed(k, d)
    ensures Routed(k, Acquire(k, d, p))
    ensures forall q :: Count(Acquire(k, d, p).excluded, q) ==
                        Count(d.excluded, q) + (if q == p && Acquires(k, d, p) then 1 else 0)
  {
  }

  lemma {:induction false} AddStaticsKeeps(k: System, d: State, addresses: seq<string>)
    requires Routed(k, d)
    ensures Kept(k, d, AddStatics(k, d, addresses))
    decreases |addresses|
  {
    hide Routed, Counted, AddStatic;
    if addresses != [] {
      var a := AddStatic(k, d, Trimmed(addresses[0]));
      AddStaticKeeps(k, d, Trimmed(addresses[0]));
      AddStaticsKeeps(k, a, addresses[1..]);
    }
  }

  lemma LearnOneKeeps(k: System, d: State, p: Prefix)
    requires Routed(k, d)
    ensures Kept(k, d, LearnOne(k, d, p))
  {
    if p !in d.dnsRoutes { AcquireKeeps(k, d, p); }
  }

  lemma {:induction false} LearnKeeps(k: System, d: State, ips: seq<string>)
    requires Routed(k, d)
    ensures Kept(k, d, Learn(k, d, ips))
    decreases |ips|
  {
    hide Routed, Counted, LearnOne;
    if ips != [] {
      LearnOneKeeps(k, d, k.parse(ips[0]));
      LearnKeeps(k, LearnOne(k, d, k.parse(ips[0])), ips[1..]);
    }
  }

  lemma ClearDnsKeeps(k: System, d: State, sync: Switch, generation: int)
    requires Routed(k, d) && generation >= d.generation
    ensures Kept(k, d, ClearDns(k, d.(sync := sync, generation := generation)))
  {
    hide Counted;
    ClearDnsCounts(k, d.(sync := sync, generation := generation));
    if Counted(d) { ClearDnsBalances(k, d, sync, generation); }
  }

  function Less(a: int, b: int): int { if a > b then a - b else 0 }

  lemma ClearDnsCounts(k: System, d: State)
    requires Positive(d.excluded)
    ensures forall p :: Count(ClearDns(k, d).excluded, p) ==
                        Less(Count(d.excluded, p), if p in d.dnsRoutes then 1 else 0)
  {
  }

  lemma ClearDnsBalances(k: System, d: State, sync: Switch, generation: int)
    requires Counted(d) && Positive(d.excluded)
    ensures Counted(ClearDns(k, d.(sync := sync, generation := generation)))
  {
    var t := ClearDns(k, d.(sync := sync, generation := generation));
    ClearDnsCounts(k, d.(sync := sync, generation := generation));
    forall p ensures Count(t.excluded, p) == References(t, p) {
      assert Count(d.excluded, p) == References(d, p);
    }
  }

  lemma {:induction false} HostsAreRules(rules: seq<Rule>)
    ensures forall h :: h in ExactHosts(rules) ==> h in HostRules(rules)
  {
    if rules != [] { HostsAreRules(rules[1..]); }
  }

  lemma ConfigureKeeps(k: System, d: State, config: Config)
    requires Routed(k, d)
    ensures Kept(k, d, Configure(k, d, config))
  {
    hide ClearDns, Counted;
    var a := ClearDns(k, d.(generation := d.generation + 1, sync := config.killSwitch));
    var b := Configure(k, d, config);
    ClearDnsKeeps(k, d, config.killSwitch, d.generation + 1);
    HostsAreRules(config.dnsRules);
    if Counted(a) { SameCounts(a, b); }
  }

  lemma SameCounts(d: State, t: State)
    requires Counted(d) && t.excluded == d.excluded && t.statics == d.statics && t.dnsRoutes == d.dnsRoutes
    ensures Counted(t)
  {
    forall p ensures Count(t.excluded, p) == References(t, p) {
      assert Count(d.excluded, p) == References(d, p);
    }
  }

  lemma HandshakeSeenKeeps(k: System, d: State, hop: Hop, config: Config)
    requires Routed(k, d)
    ensures Kept(k, d, HandshakeSeen(k, d, hop, config))
  {
    hide Routed, Counted, Configure, AddStatics, IssueLookups;
    var a := d.(connections := d.connections[hop := Link(config, On)]);
    var b := Configure(k, a, config);
    var c := AddStatics(k, b, config.excludedAddresses);
    LinkKeeps(k, d, a.connections);
    ConfigureKeeps(k, a, config);
    AddStaticsKeeps(k, b, config.excludedAddresses);
    IssueLookupsKeeps(k, c);
  }

  lemma LinkKeeps(k: System, d: State, connections: map<Hop, Link>)
    requires Routed(k, d)
    ensures Kept(k, d, d.(connections := connections))
  {
    if Counted(d) { SameCounts(d, d.(connections := connections)); }
  }

  lemma IssueLookupsKeeps(k: System, d: State)
    requires Routed(k, d)
    ensures Kept(k, d, IssueLookups(d))
  {
    if Counted(d) { SameCounts(d, IssueLookups(d)); }
  }

  lemma {:induction false} MatchPeersKeeps(k: System, d: State, hop: Hop, config: Config, peers: seq<Peer>)
    requires Routed(k, d)
    ensures Kept(k, d, MatchPeers(k, d, hop, config, peers))
    decreases |peers|
  {
    hide Routed, Counted, HandshakeSeen;
    if peers != [] {
      var hit := k.keysMatch(config.serverKey, peers[0].key) && peers[0].handshake != 0;
      HandshakeSeenKeeps(k, d, hop, config);
      MatchPeersKeeps(k, if hit then HandshakeSeen(k, d, hop, config) else d, hop, config, peers[1..]);
    }
  }

  lemma CheckHandshakeKeeps(k: System, d: State, peers: seq<Peer>)
    requires Routed(k, d)
    ensures Kept(k, d, CheckHandshake(k, d, peers))
  {
    hide Routed, Counted, CheckHop;
    var a := CheckHop(k, d, SingleHop, peers);
    var b := CheckHop(k, a, MultiHopEntry, peers);
    CheckHopKeeps(k, d, SingleHop, peers);
    CheckHopKeeps(k, a, MultiHopEntry, peers);
    CheckHopKeeps(k, b, MultiHopExit, peers);
  }

  lemma CheckHopKeeps(k: System, d: State, hop: Hop, peers: seq<Peer>)
    requires Routed(k, d)
    ensures Kept(k, d, CheckHop(k, d, hop, peers))
  {
    hide Routed, Counted, MatchPeers;
    if hop in d.connections {
      MatchPeersKeeps(k, d, hop, d.connections[hop].config, peers);
    }
  }

  /** A teardown balances the books even if they did not balance before. */
  lemma TearDownKeeps(k: System, d: State)
    requires Routed(k, d)
    ensures Routed(k, TearDown(k, d)) && Counted(TearDown(k, d))
  {
    hide Counted;
    var b := d.(now := d.now + 1);
    ClearDnsKeeps(k, b, Off, d.generation + 1);
    Emptied(TearDown(k, d));
  }

  lemma Emptied(d: State)
    requires d.excluded == map[] && d.statics == multiset{} && d.dnsRoutes == {}
    ensures Counted(d)
  {
  }

  lemma AnsweredKeeps(k: System, d: State, i: nat, addresses: seq<HostAddress>)
    requires Routed(k, d)
    ensures Kept(k, d, Answered(k, d, i, addresses))
  {
    hide Counted, Learn;
    if i < |d.lookups| {
      var a := d.(lookups := d.lookups[..i] + d.lookups[i + 1..]);
      if Counted(d) { SameCounts(d, a); }
      LearnKeeps(k, a, Distinct(V4Texts(addresses)));
    }
  }

  lemma TickKeeps(k: System, d: State)
    requires Routed(k, d)
    ensures Kept(k, d, d.(now := d.now + 1))
  {
    if Counted(d) { SameCounts(d, d.(now := d.now + 1)); }
  }

  lemma BringUpKeeps(k: System, d: State, config: Config)
    requires Routed(k, d)
    ensures Kept(k, d, BringUp(k, d, config))
  {
    if Counted(d) { SameCounts(d, BringUp(k, d, config)); }
  }

  // ---------- server switches ----------

  /** How many of the addresses, blanks aside, are read as `p`. */
  function Times(parse: string -> Prefix, addresses: seq<string>, p: Prefix): nat
    decreases |addresses|
  {
    if addresses == [] then 0
    else
      var address := Trimmed(addresses[0]);
      (if address != "" && parse(address) == p then 1 else 0) + Times(parse, addresses[1..], p)
  }

  lemma AddStaticCounts(k: System, d: State, address: string, p: Prefix)
    ensures var t := AddStatic(k, d, address);
      && Count(t.excluded, p) == Count(d.excluded, p) + t.statics[p] - d.statics[p]
      && d.statics[p] <= t.statics[p]
      && (AddsSucceed(k) ==>
            t.statics[p] == d.statics[p] + (if address != "" && k.parse(address) == p then 1 else 0))
  {
  }

  lemma {:induction false} AddStaticsCounts(k: System, d: State, addresses: seq<string>, p: Prefix)
    ensures var t := AddStatics(k, d, addresses);
      && Count(t.excluded, p) == Count(d.excluded, p) + t.statics[p] - d.statics[p]
      && d.statics[p] <= t.statics[p]
      && (AddsSucceed(k) ==> t.statics[p] == d.statics[p] + Times(k.parse, addresses, p))
    decreases |addresses|
  {
    hide AddStatic, Count;
    if addresses != [] {
      AddStaticCounts(k, d, Trimmed(addresses[0]), p);
      AddStaticsCounts(k, AddStatic(k, d, Trimmed(addresses[0])), addresses[1..], p);
    }
  }

  lemma CountsArePositive(k: System, d: State)
    requires Routed(k, d)
    ensures forall p :: Count(d.excluded, p) >= 0 && (p in d.excluded <==> Count(d.excluded, p) > 0)
  {
  }

  function Min(a: int, b: int): int { if a < b then a else b }

  lemma ReleaseKeeps(k: System, d: State, address: string)
    requires Routed(k, d)
    ensures Routed(k, ReleaseStatic(k, d, address))
  {
  }

  lemma ReleaseCounts(k: System, d: State, address: string, p: Prefix)
    requires Routed(k, d)
    ensures var t := ReleaseStatic(k, d, address);
            var x := if p == k.parseHost(address) then 1 else 0;
      && Count(t.excluded, p) == Less(Count(d.excluded, p), x)
      && t.statics[p] == Less(d.statics[p], Min(x, Count(d.excluded, p)))
  {
  }

  /** One release now and `n` later. */
  lemma OneRelease(count: int, own: int, x: int, n: int)
    requires 0 <= count && 0 <= own && 0 <= x && 0 <= n
    ensures Less(Less(count, x), n) == Less(count, x + n)
    ensures Less(Less(own, Min(x, count)), Min(n, Less(count, x))) == Less(own, Min(x + n, count))
  {
  }

  lemma {:induction false} ReleaseStaticsRouted(k: System, d: State, addresses: seq<string>)
    requires Routed(k, d)
    ensures Routed(k, ReleaseStatics(k, d, addresses))
    decreases |addresses|
  {
    hide Routed, ReleaseStatic;
    if addresses != [] {
      var address := Trimmed(addresses[0]);
      if address != "" { ReleaseKeeps(k, d, address); }
      ReleaseStaticsRouted(k, if address == "" then d else ReleaseStatic(k, d, address), addresses[1..]);
    }
  }

  /** Each address takes one reference and one static acquisition, as long as there are any. */
  lemma {:induction false} ReleaseStaticsCounts(k: System, d: State, addresses: seq<string>, p: Prefix)
    requires Routed(k, d)
    ensures var t := ReleaseStatics(k, d, addresses);
            var n := Times(k.parseHost, addresses, p);
      && Count(t.excluded, p) == Less(Count(d.excluded, p), n)
      && t.statics[p] == Less(d.statics[p], Min(n, Count(d.excluded, p)))
    decreases |addresses|
  {
    hide Routed, Count, ReleaseStatic, Trimmed;
    CountsArePositive(k, d);
    if addresses != [] {
      var address := Trimmed(addresses[0]);
      if address == "" {
        ReleaseStaticsCounts(k, d, addresses[1..], p);
      } else {
        var x := if p == k.parseHost(address) then 1 else 0;
        ReleaseKeeps(k, d, address);
        ReleaseCounts(k, d, address, p);
        ReleaseStaticsCounts(k, ReleaseStatic(k, d, address), addresses[1..], p);
        OneRelease(Count(d.excluded, p), d.statics[p], x, Times(k.parseHost, addresses[1..], p));
      }
    }
  }

  /** How many references to `p` a switch tries to release. */
  function Releases(k: System, d: State, config: Config, p: Prefix): nat
    requires config.hop in d.connections
  {
    if k.switchPeer(AddStatics(k, d, config.excludedAddresses).now)
    then Times(k.parseHost, d.connections[config.hop].config.excludedAddresses, p) else 0
  }

  /** What a switch does to every count: one more for each acquired address of the new configuration,
      one less for each address of the old one while any is left; and likewise to static acquisitions. */
  lemma SwitchCounts(k: System, d: State, config: Config, p: Prefix)
    requires Routed(k, d) && config.hop in d.connections
    ensures var a := AddStatics(k, d, config.excludedAddresses);
            var t := SwitchServer(k, d, config);
            var n := Releases(k, d, config, p);
      && Count(a.excluded, p) == Count(d.excluded, p) + a.statics[p] - d.statics[p]
      && (AddsSucceed(k) ==> a.statics[p] == d.statics[p] + Times(k.parse, config.excludedAddresses, p))
      && Count(t.excluded, p) == Less(Count(a.excluded, p), n)
      && t.statics[p] == Less(a.statics[p], Min(n, Count(a.excluded, p)))
      && t.dnsRoutes == d.dnsRoutes
  {
    hide AddStatics, ReleaseStatics, Routed, Count, Times;
    var a := AddStatics(k, d, config.excludedAddresses);
    AddStaticsKeeps(k, d, config.excludedAddresses);
    AddStaticsCounts(k, d, config.excludedAddresses, p);
    CountsArePositive(k, a);
    TickKeeps(k, a);
    ReleaseStaticsCounts(k, a.(now := a.now + 1), d.connections[config.hop].config.excludedAddresses, p);
  }

  lemma SwitchRouted(k: System, d: State, config: Config)
    requires Routed(k, d) && config.hop in d.connections
    ensures Routed(k, SwitchServer(k, d, config))
  {
    hide AddStatics, ReleaseStatics;
    var a := AddStatics(k, d, config.excludedAddresses);
    AddStaticsKeeps(k, d, config.excludedAddresses);
    ReleaseStaticsRouted(k, a.(now := a.now + 1), d.connections[config.hop].config.excludedAddresses);
  }

  /** A switch that releases a learned prefix more often than it was acquired statically, and so takes the
      reference that belongs to the lookup. */
  predicate TakesLearned(k: System, d: State, e: Event) {
    && SwitchesServer(d, e)
    && exists p :: p in d.dnsRoutes &&
         Releases(k, d, e.config, p) > AddStatics(k, d, e.config.excludedAddresses).statics[p]
  }

  /** Exactly when a switch keeps the books balanced. */
  lemma SwitchBalancesIff(k: System, d: State, config: Config)
    requires Routed(k, d) && Counted(d) && CanSwitch(d, config)
    ensures Counted(SwitchServer(k, d, config)) <==> !TakesLearned(k, d, Activation(config))
  {
    hide AddStatics, SwitchServer, Routed, Releases, Counted;
    var a := AddStatics(k, d, config.excludedAddresses);
    var t := SwitchServer(k, d, config);
    forall p ensures Count(t.excluded, p) == References(t, p) <==>
                     !(p in d.dnsRoutes && Releases(k, d, config, p) > a.statics[p])
    {
      SwitchCounts(k, d, config, p);
      assert Count(d.excluded, p) == References(d, p) by { CountedAt(d, p); }
    }
    CountedEverywhere(t);
  }

  lemma CountedAt(d: State, p: Prefix)
    requires Counted(d)
    ensures Count(d.excluded, p) == References(d, p)
  {
  }

  lemma CountedEverywhere(d: State)
    ensures Counted(d) <==> forall p :: Count(d.excluded, p) == References(d, p)
  {
  }

  // ---------- whole runs ----------

  /** Every event keeps the routes tracked; it keeps the books balanced if and only if it takes no learned
      reference. */
  lemma StepKeeps(k: System, d: State, e: Event)
    requires Routed(k, d)
    ensures Routed(k, Step(k, d, e))
    ensures Counted(d) ==> (Counted(Step(k, d, e)) <==> !TakesLearned(k, d, e))
  {
    hide Routed, Counted, CheckHandshake, Answered, TearDown, BringUp, SwitchServer;
    match e
    case Activation(config) =>
      BringUpKeeps(k, d, config);
      TearDownKeeps(k, d);
      BringUpKeeps(k, TearDown(k, d), config);
      TickKeeps(k, d);
      if CanSwitch(d, config) {
        SwitchRouted(k, d, config);
        if Counted(d) { SwitchBalancesIff(k, d, config); }
      }
    case Deactivation =>
      TearDownKeeps(k, d);
      TickKeeps(k, d);
    case HandshakePoll(peers) => CheckHandshakeKeeps(k, d, peers);
    case LookupAnswer(i, addresses) => AnsweredKeeps(k, d, i, addresses);
  }

  lemma {:induction false} RunRouted(k: System, d: State, events: seq<Event>)
    requires Routed(k, d)
    ensures Routed(k, Run(k, d, events))
    decreases |events|
  {
    hide Routed, Step;
    if events != [] {
      StepKeeps(k, d, events[0]);
      RunRouted(k, Step(k, d, events[0]), events[1..]);
    }
  }

  predicate RunTakesLearned(k: System, d: State, events: seq<Event>)
    decreases |events|
  {
    events != [] && (TakesLearned(k, d, events[0]) || RunTakesLearned(k, Step(k, d, events[0]), events[1..]))
  }

  /** The books balance at every point of the run. */
  ghost predicate Balanced(k: System, d: State, events: seq<Event>) {
    forall n :: 0 <= n <= |events| ==> Counted(Run(k, d, events[..n]))
  }

  lemma BalancedSplits(k: System, d: State, events: seq<Event>)
    requires events != []
    ensures Balanced(k, d, events) <==> Counted(d) && Balanced(k, Step(k, d, events[0]), events[1..])
  {
    hide Counted, Step;
    var t, rest := Step(k, d, events[0]), events[1..];
    assert Run(k, d, events[..0]) == d;
    forall n | 0 <= n <= |rest| ensures Run(k, d, events[..n + 1]) == Run(k, t, rest[..n]) {
      assert events[..n + 1][1..] == rest[..n];
    }
    if Balanced(k, d, events) {
      forall n | 0 <= n <= |rest| ensures Counted(Run(k, t, rest[..n])) {
        assert Counted(Run(k, d, events[..n + 1]));
      }
    }
    if Counted(d) && Balanced(k, t, rest) {
      forall n | 0 <= n <= |events| ensures Counted(Run(k, d, events[..n])) {
        if n > 0 { assert Counted(Run(k, t, rest[..n - 1])); }
      }
    }
  }

  /** Reference counts are conserved throughout a run if and only if no switch takes a learned reference. */
  lemma {:induction false} RunKeeps(k: System, d: State, events: seq<Event>)
    requires Routed(k, d) && Counted(d)
    ensures Balanced(k, d, events) <==> !RunTakesLearned(k, d, events)
    decreases |events|
  {
    hide Routed, Counted, Step, TakesLearned, Balanced;
    if events == [] {
      assert Balanced(k, d, []) by { OnlyHere(k, d); }
    } else {
      var t := Step(k, d, events[0]);
      BalancedSplits(k, d, events);
      StepKeeps(k, d, events[0]);
      if TakesLearned(k, d, events[0]) {
        NotBalanced(k, t, events[1..]);
      } else {
        RunKeeps(k, t, events[1..]);
      }
    }
  }

  lemma OnlyHere(k: System, d: State)
    requires Counted(d)
    ensures Balanced(k, d, [])
  {
  }

  lemma NotBalanced(k: System, d: State, events: seq<Event>)
    requires !Counted(d)
    ensures !Balanced(k, d, events)
  {
    hide Counted;
    assert Run(k, d, events[..0]) == d;
  }

  /** Over every run of the daemon, switches included: counted prefixes are installed, and are exactly the
      installed ones when deletions succeed; the kill switch knows the learned routes; hosts are rules. */
  lemma RoutesAreTracked(k: System, events: seq<Event>)
    ensures var d := Run(k, Idle, events);
      && d.excluded.Keys <= d.kernel
      && (DeletesSucceed(k) ==> d.kernel == d.excluded.Keys)
      && (d.sync.On? ==> d.dnsRoutes <= d.allowed)
      && (forall h :: h in d.hosts ==> h in d.hostRules)
  {
    hide Run;
    RunRouted(k, Idle, events);
  }

  /** Over every run, the reference equation holds at every point if and only if no switch takes a learned
      reference; and then the counted prefixes are exactly the static and the learned ones. */
  lemma ReferencesAreConserved(k: System, events: seq<Event>)
    ensures Balanced(k, Idle, events) <==> !RunTakesLearned(k, Idle, events)
    ensures !RunTakesLearned(k, Idle, events) ==>
      var d := Run(k, Idle, events);
      && (forall p :: p in d.excluded <==> d.statics[p] > 0 || p in d.dnsRoutes)
      && (forall p :: p in d.excluded ==>
            d.excluded[p] == d.statics[p] + (if p in d.dnsRoutes then 1 else 0))
  {
    hide Run, RunTakesLearned;
    RunKeeps(k, Idle, events);
    if !RunTakesLearned(k, Idle, events) {
      var d := Run(k, Idle, events);
      assert events[..|events|] == events;
      RunRouted(k, Idle, events);
      CountsArePositive(k, d);
      forall p ensures p in d.excluded <==> d.statics[p] > 0 || p in d.dnsRoutes
               ensures p in d.excluded ==> d.excluded[p] == d.statics[p] + (if p in d.dnsRoutes then 1 else 0)
      {
        assert Count(d.excluded, p) == References(d, p);
      }
    }
  }

  // ---------- clearing and teardown ----------

  /** The table that static acquisitions alone would have produced. */
  function StaticTable(statics: multiset<Prefix>): map<Prefix, int> {
    map p | p in statics :: statics[p]
  }

  /** Clearing the DNS routes restores exactly the static table, in the books and in the kernel. */
  lemma ClearingRestoresStatics(k: System, d: State)
    requires Routed(k, d) && Counted(d)
    ensures ClearDns(k, d).excluded == StaticTable(d.statics)
    ensures DeletesSucceed(k) ==> ClearDns(k, d).kernel == StaticTable(d.statics).Keys
  {
    hide ClearDns;
    var t := ClearDns(k, d);
    assert d.(sync := d.sync, generation := d.generation) == d;
    ClearDnsKeeps(k, d, d.sync, d.generation);
    Cleared(k, d);
    CountsArePositive(k, t);
    forall p ensures p in t.excluded <==> p in d.statics ensures p in t.excluded ==> t.excluded[p] == d.statics[p] {
      assert Count(t.excluded, p) == References(t, p);
    }
  }

  lemma Cleared(k: System, d: State)
    ensures var t := ClearDns(k, d); t.dnsRoutes == {} && t.statics == d.statics && t.connections == d.connections
  {
  }

  /** The question that deletes the kernel route of a counted prefix: when the learned routes are cleared, if
      its last reference is learned, otherwise when all routes are swept. */
  function Deletion(d: State, p: Prefix): nat
    requires p in d.excluded
  {
    if p in d.dnsRoutes && d.excluded[p] <= 1 then d.now + 1 else d.now + 2
  }

  /** After any run, once deactivate gets past run(Down) nothing is left; a kernel route survives if and only
      if it was not counted any more or the system refuses to delete it now. */
  lemma TeardownIsComplete(k: System, events: seq<Event>)
    requires var d := Run(k, Idle, events); d.connections == map[] || k.goDown(d.now)
    ensures var d := Run(k, Idle, events);
            var t := Deactivate(k, d);
      && t.excluded == map[] && t.dnsRoutes == {} && t.connections == map[] && t.hosts == [] && t.hostRules == []
      && t.statics == multiset{} && Counted(t)
      && t.kernel <= d.kernel
      && (forall p :: p in d.kernel ==> (p in t.kernel <==> (p in d.excluded ==> !k.deleteRoute(Deletion(d, p), p))))
      && (DeletesSucceed(k) ==> t.kernel == {})
      && t.generation == d.generation + 1
  {
    hide Run, Counted;
    var d := Run(k, Idle, events);
    RunRouted(k, Idle, events);
    TearDownKeeps(k, d);
    SurvivorsWereRefused(k, d);
  }

  lemma SurvivorsWereRefused(k: System, d: State)
    ensures var t := TearDown(k, d);
      forall p :: p in d.kernel ==> (p in t.kernel <==> (p in d.excluded ==> !k.deleteRoute(Deletion(d, p), p)))
  {
    var a := ClearDns(k, d.(now := d.now + 1, sync := Off, generation := d.generation + 1));
    forall p | p in d.excluded ensures p in a.excluded <==> Deletion(d, p) == d.now + 2 {
    }
  }
}
