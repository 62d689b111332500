/** How far static acquisitions exceed the configurations in use: what server switches leak. */
module DaemonSwitches {
  import opened Switches
  import opened Texts
  import opened DaemonSpec
  import opened DaemonTheorems

  // ---------- acquisitions beyond those in use ----------

  lemma HandshakeStatics(k: System, d: State, hop: Hop, config: Config, p: Prefix)
    requires AddsSucceed(k)
    ensures var t := HandshakeSeen(k, d, hop, config);
      t.dnsRoutes == {} && t.statics[p] == d.statics[p] + Times(k.parse, config.excludedAddresses, p)
  {
    hide AddStatics, ClearDns, Times;
    var a := d.(connections := d.connections[hop := Link(config, On)]);
    Cleared(k, a.(generation := a.generation + 1, sync := config.killSwitch));
    AddStaticsCounts(k, Configure(k, a, config), config.excludedAddresses, p);
  }

  lemma HandshakeCounts(k: System, d: State, hop: Hop, config: Config, p: Prefix)
    requires Routed(k, d) && AddsSucceed(k)
    ensures Count(HandshakeSeen(k, d, hop, config).excluded, p) ==
            Less(Count(d.excluded, p), if p in d.dnsRoutes then 1 else 0) + Times(k.parse, config.excludedAddresses, p)
  {
    hide AddStatics, ClearDns, Times, Count;
    var a := d.(connections := d.connections[hop := Link(config, On)]);
    var b := Configure(k, a, config);
    var c := a.(generation := a.generation + 1, sync := config.killSwitch);
    Cleared(k, c);
    ClearDnsCounts(k, c);
    AddStaticsCounts(k, b, config.excludedAddresses, p);
  }

  lemma HandshakeLinks(k: System, d: State, hop: Hop, config: Config)
    ensures HandshakeSeen(k, d, hop, config).connections == d.connections[hop := Link(config, On)]
  {
    hide AddStatics;
  }

  /** The references a connection needs: one for each address of its configuration, once it has shaken. */
  function InUseAt(k: System, d: State, hop: Hop, p: Prefix): nat {
    if hop in d.connections && d.connections[hop].shaken.On?
    then Times(k.parse, d.connections[hop].config.excludedAddresses, p) else 0
  }

  function InUse(k: System, d: State, p: Prefix): nat {
    InUseAt(k, d, SingleHop, p) + InUseAt(k, d, MultiHopEntry, p) + InUseAt(k, d, MultiHopExit, p)
  }

  /** Static acquisitions that no configuration in use accounts for. */
  function Excess(k: System, d: State, p: Prefix): int { d.statics[p] - InUse(k, d, p) }

  /** How many peers of a poll match. */
  function Hits(k: System, config: Config, peers: seq<Peer>): nat
    decreases |peers|
  {
    if peers == [] then 0
    else (if k.keysMatch(config.serverKey, peers[0].key) && peers[0].handshake != 0 then 1 else 0)
         + Hits(k, config, peers[1..])
  }

  /** Each match acquires the addresses again. */
  lemma {:induction false} MatchPeersStatics(k: System, d: State, hop: Hop, config: Config, peers: seq<Peer>, p: Prefix)
    requires AddsSucceed(k)
    ensures var t := MatchPeers(k, d, hop, config, peers);
            var n := Hits(k, config, peers);
      && t.statics[p] == d.statics[p] + n * Times(k.parse, config.excludedAddresses, p)
      && t.connections == if n == 0 then d.connections else d.connections[hop := Link(config, On)]
    decreases |peers|
  {
    hide HandshakeSeen, Times;
    if peers != [] {
      var gained := Times(k.parse, config.excludedAddresses, p);
      var rest := Hits(k, config, peers[1..]);
      if k.keysMatch(config.serverKey, peers[0].key) && peers[0].handshake != 0 {
        HandshakeStatics(k, d, hop, config, p);
        HandshakeLinks(k, d, hop, config);
        MatchPeersStatics(k, HandshakeSeen(k, d, hop, config), hop, config, peers[1..], p);
        OneMore(rest + 1, gained);
      } else {
        MatchPeersStatics(k, d, hop, config, peers[1..], p);
      }
    }
  }

  /** What a poll acquires too often: everything but the first match. */
  function Extra(k: System, d: State, hop: Hop, peers: seq<Peer>, p: Prefix): int {
    if hop in d.connections && d.connections[hop].shaken.Off? && Hits(k, d.connections[hop].config, peers) > 0
    then (Hits(k, d.connections[hop].config, peers) - 1)
         * Times(k.parse, d.connections[hop].config.excludedAddresses, p)
    else 0
  }

  lemma CheckHopExcess(k: System, d: State, hop: Hop, peers: seq<Peer>, p: Prefix)
    requires AddsSucceed(k)
    ensures var t := CheckHop(k, d, hop, peers);
      && Excess(k, t, p) == Excess(k, d, p) + Extra(k, d, hop, peers, p)
      && t.connections.Keys == d.connections.Keys
      && (forall h :: h in d.connections && h != hop ==> t.connections[h] == d.connections[h])
  {
    hide MatchPeers, Times, Hits;
    if hop in d.connections && d.connections[hop].shaken.Off? {
      var config := d.connections[hop].config;
      MatchPeersStatics(k, d, hop, config, peers, p);
      if Hits(k, config, peers) > 0 {
        OneMore(Hits(k, config, peers), Times(k.parse, config.excludedAddresses, p));
      }
    }
  }

  predicate Completes(k: System, d: State, config: Config)
    requires config.hop in d.connections
  {
    var last := d.connections[config.hop].config;
    var a := AddStatics(k, d, config.excludedAddresses);
    && k.switchPeer(a.now)
    && (config.serverKey == last.serverKey
        || k.dropPeer(ReleaseStatics(k, a.(now := a.now + 1), last.excludedAddresses).now))
  }

  /** What a switch adds to the excess: the new addresses, which their handshake will acquire again, less
      what it really releases; and what the old connection needed is not in use any more. */
  function SwitchExcess(k: System, d: State, config: Config, p: Prefix): int
    requires config.hop in d.connections
  {
    var a := AddStatics(k, d, config.excludedAddresses);
    Times(k.parse, config.excludedAddresses, p)
    - Min(a.statics[p], Min(Releases(k, d, config, p), Count(a.excluded, p)))
    + (if Completes(k, d, config) then InUseAt(k, d, config.hop, p) else 0)
  }

  lemma SwitchLinks(k: System, d: State, config: Config)
    requires config.hop in d.connections
    ensures SwitchServer(k, d, config).connections ==
            if Completes(k, d, config) then d.connections[config.hop := Link(config, Off)] else d.connections
  {
    hide AddStatics, ReleaseStatics;
  }

  lemma SwitchExceeds(k: System, d: State, config: Config, p: Prefix)
    requires Routed(k, d) && AddsSucceed(k) && config.hop in d.connections
    ensures Excess(k, SwitchServer(k, d, config), p) == Excess(k, d, p) + SwitchExcess(k, d, config, p)
  {
    hide AddStatics, SwitchServer, Routed, Times, Count, Releases, Completes;
    var a := AddStatics(k, d, config.excludedAddresses);
    SwitchCounts(k, d, config, p);
    SwitchLinks(k, d, config);
    AddStaticsKeeps(k, d, config.excludedAddresses);
    CountsArePositive(k, a);
    if Completes(k, d, config) {
      LinkReplaced(k, d, SwitchServer(k, d, config), config, p);
    }
  }

  /** A connection that waits for its handshake needs nothing. */
  lemma LinkReplaced(k: System, d: State, t: State, config: Config, p: Prefix)
    requires t.connections == d.connections[config.hop := Link(config, Off)]
    ensures InUse(k, t, p) == InUse(k, d, p) - InUseAt(k, d, config.hop, p)
  {
    hide Times;
    forall h ensures InUseAt(k, t, h, p) == if h == config.hop then 0 else InUseAt(k, d, h, p) {
    }
    assert config.hop == SingleHop || config.hop == MultiHopEntry || config.hop == MultiHopExit;
  }

  /** The excess after an event, from the excess `x` before it. */
  function ExcessAfter(k: System, d: State, e: Event, p: Prefix, x: int): int {
    match e
    case Activation(config) =>
      if config.hop !in d.connections then x
      else if CanSwitch(d, config) then x + SwitchExcess(k, d, config, p)
      else if GoesDown(k, d) then 0 else x
    case Deactivation => if GoesDown(k, d) then 0 else x
    case HandshakePoll(peers) =>
      x + Extra(k, d, SingleHop, peers, p) + Extra(k, d, MultiHopEntry, peers, p) + Extra(k, d, MultiHopExit, peers, p)
    case LookupAnswer(_, _) => x
  }

  lemma PollExcess(k: System, d: State, peers: seq<Peer>, p: Prefix)
    requires AddsSucceed(k)
    ensures Excess(k, CheckHandshake(k, d, peers), p) ==
            Excess(k, d, p) + Extra(k, d, SingleHop, peers, p) + Extra(k, d, MultiHopEntry, peers, p)
            + Extra(k, d, MultiHopExit, peers, p)
  {
    hide CheckHop, Times, Hits, Excess;
    var a := CheckHop(k, d, SingleHop, peers);
    var b := CheckHop(k, a, MultiHopEntry, peers);
    CheckHopExcess(k, d, SingleHop, peers, p);
    CheckHopExcess(k, a, MultiHopEntry, peers, p);
    CheckHopExcess(k, b, MultiHopExit, peers, p);
  }

  lemma SameExcess(k: System, d: State, t: State, p: Prefix)
    requires t.statics == d.statics && t.connections == d.connections
    ensures Excess(k, t, p) == Excess(k, d, p)
  {
    hide Times;
  }

  lemma NoExcess(k: System, d: State, p: Prefix)
    requires d.statics == multiset{} && d.connections == map[]
    ensures Excess(k, d, p) == 0
  {
  }

  lemma BringUpExcess(k: System, d: State, config: Config, p: Prefix)
    requires config.hop !in d.connections
    ensures Excess(k, BringUp(k, d, config), p) == Excess(k, d, p)
  {
    hide Times;
    if k.comeUp(d.now) { LinkReplaced(k, d, BringUp(k, d, config), config, p); }
  }

  lemma TornDown(k: System, d: State)
    ensures TearDown(k, d).statics == multiset{} && TearDown(k, d).connections == map[]
  {
  }

  lemma AnswerExcess(k: System, d: State, i: nat, addresses: seq<HostAddress>, p: Prefix)
    ensures Excess(k, Answered(k, d, i, addresses), p) == Excess(k, d, p)
  {
    hide Excess, Learn;
    if i < |d.lookups| {
      LearnKeepsStatics(k, d.(lookups := d.lookups[..i] + d.lookups[i + 1..]), Distinct(V4Texts(addresses)));
    }
    SameExcess(k, d, Answered(k, d, i, addresses), p);
  }

  lemma StepExcess(k: System, d: State, e: Event, p: Prefix)
    requires Routed(k, d) && AddsSucceed(k)
    ensures Excess(k, Step(k, d, e), p) == ExcessAfter(k, d, e, p, Excess(k, d, p))
  {
    hide SwitchServer, SwitchExcess, CheckHandshake, Answered, BringUp, TearDown, Excess, Extra;
    TornDown(k, d);
    NoExcess(k, TearDown(k, d), p);
    SameExcess(k, d, d.(now := d.now + 1), p);
    match e
    case Activation(config) =>
      if config.hop !in d.connections {
        BringUpExcess(k, d, config, p);
      } else if CanSwitch(d, config) {
        SwitchExceeds(k, d, config, p);
      } else {
        BringUpExcess(k, TearDown(k, d), config, p);
      }
    case HandshakePoll(peers) => PollExcess(k, d, peers, p);
    case LookupAnswer(i, addresses) => AnswerExcess(k, d, i, addresses, p);
    case Deactivation =>
  }

  lemma {:induction false} LearnKeepsStatics(k: System, d: State, ips: seq<string>)
    ensures Learn(k, d, ips).statics == d.statics
    decreases |ips|
  {
    if ips != [] { LearnKeepsStatics(k, LearnOne(k, d, k.parse(ips[0])), ips[1..]); }
  }

  function RunExcess(k: System, d: State, events: seq<Event>, p: Prefix, x: int): int
    decreases |events|
  {
    if events == [] then x
    else RunExcess(k, Step(k, d, events[0]), events[1..], p, ExcessAfter(k, d, events[0], p, x))
  }

  /** When additions succeed, the excess after any run is exactly what its switches and repeated matches
      have added since the last teardown. */
  lemma {:induction false} ExcessIsAccountedFor(k: System, d: State, events: seq<Event>, p: Prefix)
    requires Routed(k, d) && AddsSucceed(k)
    ensures Excess(k, Run(k, d, events), p) == RunExcess(k, d, events, p, Excess(k, d, p))
    decreases |events|
  {
    hide Routed, Step, ExcessAfter, Excess;
    if events != [] {
      StepKeeps(k, d, events[0]);
      StepExcess(k, d, events[0], p);
      ExcessIsAccountedFor(k, Step(k, d, events[0]), events[1..], p);
    }
  }

  /** No server switch, and no poll in which two peers match one connection. */
  predicate Plain(k: System, d: State, e: Event) {
    && !SwitchesServer(d, e)
    && (e.HandshakePoll? ==>
          forall hop :: hop in d.connections ==> Hits(k, d.connections[hop].config, e.peers) <= 1)
  }

  predicate RunPlain(k: System, d: State, events: seq<Event>)
    decreases |events|
  {
    events == [] || (Plain(k, d, events[0]) && RunPlain(k, Step(k, d, events[0]), events[1..]))
  }

  lemma {:induction false} PlainRunExcess(k: System, d: State, events: seq<Event>, p: Prefix)
    requires RunPlain(k, d, events)
    ensures RunExcess(k, d, events, p, 0) == 0
    decreases |events|
  {
    hide Step, Times, Hits, SwitchExcess;
    if events != [] {
      var e := events[0];
      assert ExcessAfter(k, d, e, p, 0) == 0 by { PlainStepExcess(k, d, e, p); }
      PlainRunExcess(k, Step(k, d, e), events[1..], p);
    }
  }

  lemma PlainStepExcess(k: System, d: State, e: Event, p: Prefix)
    requires Plain(k, d, e)
    ensures ExcessAfter(k, d, e, p, 0) == 0
  {
    hide Times, Hits, SwitchExcess;
  }

  /** In plain runs every count is what the configurations in use need, plus one if DNS-learned. */
  lemma CountsMatchUse(k: System, events: seq<Event>, p: Prefix)
    requires AddsSucceed(k) && RunPlain(k, Idle, events)
    ensures var d := Run(k, Idle, events);
      && d.statics[p] == InUse(k, d, p)
      && Count(d.excluded, p) == InUse(k, d, p) + (if p in d.dnsRoutes then 1 else 0)
  {
    hide Run, Excess, RunExcess, InUse, RunPlain, Balanced;
    var d := Run(k, Idle, events);
    assert Routed(k, Idle) && Counted(Idle);
    ExcessIsAccountedFor(k, Idle, events, p);
    NoExcess(k, Idle, p);
    PlainRunExcess(k, Idle, events, p);
    assert d.statics[p] == InUse(k, d, p) by { ExcessMeans(k, d, p); }
    PlainTakesNothing(k, Idle, events);
    RunKeeps(k, Idle, events);
    BalancedAtEnd(k, Idle, events);
    CountedAt(d, p);
  }

  lemma BalancedAtEnd(k: System, d: State, events: seq<Event>)
    requires Balanced(k, d, events)
    ensures Counted(Run(k, d, events))
  {
    hide Counted, Run;
    assert events[..|events|] == events;
  }

  lemma ExcessMeans(k: System, d: State, p: Prefix)
    ensures Excess(k, d, p) == d.statics[p] - InUse(k, d, p)
  {
    hide InUse;
  }

  lemma {:induction false} PlainTakesNothing(k: System, d: State, events: seq<Event>)
    requires RunPlain(k, d, events)
    ensures !RunTakesLearned(k, d, events)
    decreases |events|
  {
    hide Step, Hits;
    if events != [] { PlainTakesNothing(k, Step(k, d, events[0]), events[1..]); }
  }

  // ---------- what a switch leaks ----------

  /** A completed switch of a connection that has shaken, with balanced books and nothing missing, leaks
      exactly one acquisition for each occurrence of each new address. */
  lemma SwitchLeaks(k: System, d: State, config: Config, p: Prefix)
    requires Routed(k, d) && Counted(d) && AddsSucceed(k) && CanSwitch(d, config) && Completes(k, d, config)
    requires d.connections[config.hop].shaken.On? && SameReadings(k, d.connections[config.hop].config)
    requires Excess(k, d, p) >= 0
    ensures Excess(k, SwitchServer(k, d, config), p) ==
            Excess(k, d, p) + Times(k.parse, config.excludedAddresses, p)
  {
    hide AddStatics, SwitchServer, Routed, Times, Count, Trimmed;
    SwitchExceeds(k, d, config, p);
    SwitchCounts(k, d, config, p);
    SameTimes(k, d.connections[config.hop].config.excludedAddresses, p);
    CountedAt(d, p);
    assert InUseAt(k, d, config.hop, p) <= InUse(k, d, p);
  }

  /** All connections but this one have seen their handshake. */
  predicate OthersShaken(d: State, hop: Hop) {
    forall h :: h in d.connections && h != hop ==> d.connections[h].shaken.On?
  }

  lemma PollIsHandshake(k: System, d: State, config: Config, peer: Peer)
    requires config.hop in d.connections && d.connections[config.hop] == Link(config, Off)
    requires OthersShaken(d, config.hop) && k.keysMatch(config.serverKey, peer.key) && peer.handshake != 0
    ensures Step(k, d, HandshakePoll([peer])) == HandshakeSeen(k, d, config.hop, config)
  {
    hide HandshakeSeen;
    var t := HandshakeSeen(k, d, config.hop, config);
    HandshakeLinks(k, d, config.hop, config);
    assert MatchPeers(k, d, config.hop, config, [peer]) == MatchPeers(k, t, config.hop, config, []);
    assert CheckHop(k, d, config.hop, [peer]) == t;
  }

  /** A switch followed by its handshake, for any two configurations and any prefix: acquired twice,
      released once, and the learned routes gone. */
  lemma SwitchAndHandshake(k: System, d: State, config: Config, peer: Peer, p: Prefix)
    requires Routed(k, d) && CanSwitch(d, config) && OthersShaken(d, config.hop) && Obliging(k, config, peer)
    ensures var last := d.connections[config.hop].config.excludedAddresses;
            var gained := Times(k.parse, config.excludedAddresses, p);
            var t := Step(k, Step(k, d, Activation(config)), HandshakePoll([peer]));
      && Count(t.excluded, p) ==
           Less(Less(Count(d.excluded, p) + gained, Times(k.parseHost, last, p)), if p in d.dnsRoutes then 1 else 0)
           + gained
      && t.dnsRoutes == {} && t.connections == d.connections[config.hop := Link(config, On)]
  {
    hide SwitchServer, HandshakeSeen, Routed, CheckHandshake, Count, Times, AddStatics;
    var a := SwitchServer(k, d, config);
    SwitchCounts(k, d, config, p);
    SwitchRouted(k, d, config);
    SwitchLinks(k, d, config);
    PollIsHandshake(k, a, config, peer);
    HandshakeStatics(k, a, config.hop, config, p);
    HandshakeCounts(k, a, config.hop, config, p);
    HandshakeLinks(k, a, config.hop, config);
  }

  function Cycles(config: Config, peer: Peer, m: nat): seq<Event> {
    if m == 0 then [] else [Activation(config), HandshakePoll([peer])] + Cycles(config, peer, m - 1)
  }

  /** The old and the new reading of every address of the configuration agree. */
  predicate SameReadings(k: System, config: Config) {
    forall i :: 0 <= i < |config.excludedAddresses| ==>
      k.parseHost(Trimmed(config.excludedAddresses[i])) == k.parse(Trimmed(config.excludedAddresses[i]))
  }

  lemma {:induction false} SameTimes(k: System, addresses: seq<string>, p: Prefix)
    requires forall i :: 0 <= i < |addresses| ==> k.parseHost(Trimmed(addresses[i])) == k.parse(Trimmed(addresses[i]))
    ensures Times(k.parseHost, addresses, p) == Times(k.parse, addresses, p)
    decreases |addresses|
  {
    hide Trimmed;
    if addresses != [] {
      forall i | 0 <= i < |addresses[1..]|
        ensures k.parseHost(Trimmed(addresses[1..][i])) == k.parse(Trimmed(addresses[1..][i]))
      {
        assert addresses[1..][i] == addresses[i + 1];
      }
      SameTimes(k, addresses[1..], p);
    }
  }

  /** The configuration is in use, every handshake has been seen and no route has been learned. */
  predicate Settled(d: State, config: Config) {
    && config.hop in d.connections && d.connections[config.hop] == Link(config, On)
    && OthersShaken(d, config.hop) && d.dnsRoutes == {}
  }

  /** An environment in which additions, peer updates and the handshake succeed. */
  ghost predicate Obliging(k: System, config: Config, peer: Peer) {
    && AddsSucceed(k) && (forall i: nat :: k.switchPeer(i) && k.dropPeer(i))
    && k.keysMatch(config.serverKey, peer.key) && peer.handshake != 0
  }

  lemma SwitchToItself(k: System, d: State, config: Config, peer: Peer, p: Prefix)
    requires Routed(k, d) && Settled(d, config) && Obliging(k, config, peer) && SameReadings(k, config)
    ensures var t := Step(k, Step(k, d, Activation(config)), HandshakePoll([peer]));
      && Routed(k, t) && Settled(t, config)
      && Count(t.excluded, p) == Count(d.excluded, p) + Times(k.parse, config.excludedAddresses, p)
  {
    hide Step, Routed, Count, Times;
    SwitchAndHandshake(k, d, config, peer, p);
    SameTimes(k, config.excludedAddresses, p);
    CountsArePositive(k, d);
    StepKeeps(k, d, Activation(config));
    StepKeeps(k, Step(k, d, Activation(config)), HandshakePoll([peer]));
  }

  /** Switching m times to the configuration in use, with any list of addresses, leaves m references too
      many for every occurrence of every address. */
  lemma {:induction false} SwitchingLeaksReferences(k: System, d: State, config: Config, peer: Peer, p: Prefix, m: nat)
    requires Routed(k, d) && Settled(d, config) && Obliging(k, config, peer) && SameReadings(k, config)
    ensures Count(Run(k, d, Cycles(config, peer, m)).excluded, p) ==
            Count(d.excluded, p) + m * Times(k.parse, config.excludedAddresses, p)
    decreases m
  {
    hide Step, Routed, Settled, Obliging, SameReadings, Count, Times;
    if m > 0 {
      var events := Cycles(config, peer, m);
      var a := Step(k, d, Activation(config));
      var b := Step(k, a, HandshakePoll([peer]));
      SwitchToItself(k, d, config, peer, p);
      SwitchingLeaksReferences(k, b, config, peer, p, m - 1);
      assert events[1..][1..] == Cycles(config, peer, m - 1);
      assert Run(k, d, events) == Run(k, a, events[1..]) == Run(k, b, events[1..][1..]);
      OneMore(m, Times(k.parse, config.excludedAddresses, p));
    }
  }

  lemma OneMore(m: nat, x: int)
    requires m > 0
    ensures m * x == (m - 1) * x + x
  {
  }

  lemma FirstConnection(k: System, config: Config, peer: Peer, p: Prefix)
    requires Obliging(k, config, peer) && k.comeUp(0)
    ensures var t := Step(k, Step(k, Idle, Activation(config)), HandshakePoll([peer]));
      Routed(k, t) && Settled(t, config) && Count(t.excluded, p) == Times(k.parse, config.excludedAddresses, p)
  {
    hide HandshakeSeen, Times;
    var a := BringUp(k, Idle, config);
    assert Routed(k, Idle);
    assert Step(k, Idle, Activation(config)) == a;
    StepKeeps(k, Idle, Activation(config));
    StepKeeps(k, a, HandshakePoll([peer]));
    PollIsHandshake(k, a, config, peer);
    HandshakeStatics(k, a, config.hop, config, p);
    HandshakeCounts(k, a, config.hop, config, p);
    HandshakeLinks(k, a, config.hop, config);
  }

  /** From the start of the daemon: m activations of one configuration, each with its handshake, count every
      occurrence of every address m times, while one is in use. */
  lemma ReactivationLeaks(k: System, config: Config, peer: Peer, p: Prefix, m: nat)
    requires Obliging(k, config, peer) && SameReadings(k, config) && k.comeUp(0)
    ensures Count(Run(k, Idle, Cycles(config, peer, m)).excluded, p) == m * Times(k.parse, config.excludedAddresses, p)
  {
    hide Step, Routed, Settled, Obliging, SameReadings, Count, Times;
    if m == 0 {
      assert Count(Idle.excluded, p) == 0 by { IdleCount(p); }
    } else {
      var events := Cycles(config, peer, m);
      var a := Step(k, Idle, Activation(config));
      var b := Step(k, a, HandshakePoll([peer]));
      FirstConnection(k, config, peer, p);
      SwitchingLeaksReferences(k, b, config, peer, p, m - 1);
      assert events[1..][1..] == Cycles(config, peer, m - 1);
      assert Run(k, Idle, events) == Run(k, a, events[1..]) == Run(k, b, events[1..][1..]);
      OneMore(m, Times(k.parse, config.excludedAddresses, p));
    }
  }

  lemma IdleCount(p: Prefix)
    ensures Count(Idle.excluded, p) == 0
  {
  }

  // ---------- a switch that takes a learned reference ----------

  const ADDRESS := "192.0.2.1"
  const Learner := Config(SingleHop, "i", "key", [], [ExactHost("host")], Off)
  const Waiting := Config(MultiHopEntry, "j", "other", [ADDRESS], [], Off)
  const Replacement := Config(MultiHopEntry, "j", "other", [], [], Off)

  ghost predicate Helpful(k: System) {
    && AddsSucceed(k) && k.keysMatch("key", "key") && k.parseHost(ADDRESS) == k.parse(ADDRESS)
    && (forall n: nat :: k.comeUp(n) && k.switchPeer(n))
  }

  /** One connection has learned the address; a second one lists it, is still waiting for its handshake and
      therefore holds no reference; switching the second one takes the reference of the first. */
  lemma LearnedReferenceIsTaken(k: System)
    requires Helpful(k)
    ensures var a := Step(k, Step(k, Idle, Activation(Learner)), HandshakePoll([Peer("key", 1)]));
            var b := Step(k, a, LookupAnswer(0, [V4(ADDRESS)]));
            var c := Step(k, b, Activation(Waiting));
            var d := Step(k, c, Activation(Replacement));
      && k.parse(ADDRESS) in d.dnsRoutes && k.parse(ADDRESS) !in d.excluded && !Counted(d)
  {
    hide Step, Helpful;
    var a := Step(k, Step(k, Idle, Activation(Learner)), HandshakePoll([Peer("key", 1)]));
    var b := Step(k, a, LookupAnswer(0, [V4(ADDRESS)]));
    var c := Step(k, b, Activation(Waiting));
    LearnerReady(k);
    LearnerLearns(k, a);
    WaitingComesUp(k, b);
    ReplacementTakes(k, c);
  }

  lemma LearnerReady(k: System)
    requires Helpful(k)
    ensures var a := Step(k, Step(k, Idle, Activation(Learner)), HandshakePoll([Peer("key", 1)]));
      && a.lookups == [Lookup("host", a.generation)] && a.dnsRoutes == {} && a.excluded == map[]
      && a.connections == map[SingleHop := Link(Learner, On)]
  {
    hide HandshakeSeen;
    var s := Step(k, Idle, Activation(Learner));
    PollIsHandshake(k, s, Learner, Peer("key", 1));
    LearnerShakes(k, s);
  }

  lemma LearnerShakes(k: System, s: State)
    requires s.connections == map[SingleHop := Link(Learner, Off)] && s.lookups == [] && s.excluded == map[]
    ensures var a := HandshakeSeen(k, s, SingleHop, Learner);
      && a.lookups == [Lookup("host", a.generation)] && a.dnsRoutes == {} && a.excluded == map[]
      && a.connections == map[SingleHop := Link(Learner, On)]
  {
    hide ExactHosts, HostRules, Distinct, ClearDns;
    var a := s.(connections := s.connections[SingleHop := Link(Learner, On)]);
    LearnerHosts();
    ClearedEmpty(k, a.(generation := a.generation + 1, sync := Off));
    assert AddStatics(k, Configure(k, a, Learner), []) == Configure(k, a, Learner);
  }

  lemma LearnerHosts()
    ensures Distinct(ExactHosts(Learner.dnsRules)) == ["host"]
  {
    assert Learner.dnsRules[1..] == [] && ExactHosts(Learner.dnsRules) == ["host"];
    assert ["host"][..0] == [];
  }

  lemma ClearedEmpty(k: System, d: State)
    requires d.excluded == map[]
    ensures var t := ClearDns(k, d);
      && t.excluded == map[] && t.dnsRoutes == {} && t.lookups == d.lookups && t.generation == d.generation
      && t.connections == d.connections
  {
  }

  lemma LearnerLearns(k: System, a: State)
    requires Helpful(k) && a.lookups == [Lookup("host", a.generation)] && a.dnsRoutes == {} && a.excluded == map[]
    ensures var b := Step(k, a, LookupAnswer(0, [V4(ADDRESS)]));
      && b.dnsRoutes == {k.parse(ADDRESS)} && b.excluded == map[k.parse(ADDRESS) := 1]
      && b.connections == a.connections
  {
    hide V4Texts, Distinct, Learn;
    var t := a.(lookups := a.lookups[..0] + a.lookups[1..]);
    AnswerTexts();
    LearnsOne(k, t, ADDRESS);
  }

  lemma AnswerTexts()
    ensures Distinct(V4Texts([V4(ADDRESS)])) == [ADDRESS]
  {
    assert [V4(ADDRESS)][1..] == [] && V4Texts([V4(ADDRESS)]) == [ADDRESS];
    assert [ADDRESS][..0] == [];
  }

  lemma LearnsOne(k: System, d: State, ip: string)
    ensures Learn(k, d, [ip]) == LearnOne(k, d, k.parse(ip))
  {
    hide LearnOne;
    assert [ip][1..] == [];
  }

  lemma WaitingComesUp(k: System, b: State)
    requires Helpful(k) && b.connections == map[SingleHop := Link(Learner, On)]
    ensures Step(k, b, Activation(Waiting)) ==
            b.(now := b.now + 1, connections := b.connections[MultiHopEntry := Link(Waiting, Off)])
  {
  }

  lemma ReplacementTakes(k: System, c: State)
    requires Helpful(k) && MultiHopEntry in c.connections && c.connections[MultiHopEntry] == Link(Waiting, Off)
    requires c.dnsRoutes == {k.parse(ADDRESS)} && c.excluded == map[k.parse(ADDRESS) := 1]
    ensures var d := Step(k, c, Activation(Replacement));
      && k.parse(ADDRESS) in d.dnsRoutes && k.parse(ADDRESS) !in d.excluded && !Counted(d)
  {
    hide Counted;
    var p := k.parse(ADDRESS);
    var b := c.(now := c.now + 1);
    var d := Step(k, c, Activation(Replacement));
    AddressText();
    assert AddStatics(k, c, []) == c;
    assert [ADDRESS][1..] == [];
    assert ReleaseStatics(k, b, [ADDRESS]) == ReleaseStatic(k, b, ADDRESS);
    if Counted(d) { CountedAt(d, p); }
  }

  lemma AddressText()
    ensures Trimmed(ADDRESS) == ADDRESS
  {
    assert TrimmedLeft(ADDRESS) == ADDRESS;
    assert TrimmedRight(ADDRESS) == ADDRESS;
  }
}
