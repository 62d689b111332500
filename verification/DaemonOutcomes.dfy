/** What activations, polls and answers achieve in the daemon, in terms of the answers of the system. */
module DaemonOutcomes {
  import opened Switches
  import opened Texts
  import opened DaemonSpec
  import opened DaemonTheorems
  import opened DaemonLookups
  import opened DaemonSwitches

  // ---------- connections ----------

  /** The connections after an activation, in its three scenarios. A free hop comes up or not. A connection of
      the same identity is switched, if the peer operations succeed. Any other is replaced: the daemon goes
      down, deletes the interface and comes up with the new connection alone, or stops where that fails. */
  lemma ActivationLinks(k: System, d: State, config: Config)
    ensures var links := Step(k, d, Activation(config)).connections;
      if config.hop !in d.connections then
        links == if k.comeUp(d.now) then d.connections[config.hop := Link(config, Off)] else d.connections
      else if d.connections[config.hop].config.identity == config.identity then
        links == if Completes(k, d, config) then d.connections[config.hop := Link(config, Off)] else d.connections
      else if !k.goDown(d.now) then links == d.connections
      else if k.dropInterface(d.now + 3) && k.comeUp(d.now + 4) then links == map[config.hop := Link(config, Off)]
      else links == map[]
  {
    hide SwitchServer, ClearDns, Completes;
    if config.hop in d.connections { SwitchLinks(k, d, config); }
  }

  /** What else an activation touches: nothing on a free hop or when it cannot go down, everything when it
      replaces a connection. */
  lemma ActivationBooks(k: System, d: State, config: Config)
    ensures var t := Step(k, d, Activation(config));
      && (config.hop !in d.connections ==> t == d.(now := d.now + 1, connections := t.connections))
      && (config.hop in d.connections && d.connections[config.hop].config.identity != config.identity ==>
            if !k.goDown(d.now) then t == d.(now := d.now + 1)
            else t.excluded == map[] && t.dnsRoutes == {} && t.hosts == [] && t.hostRules == []
                 && t.statics == multiset{} && t.sync.Off? && t.generation == d.generation + 1)
  {
    hide SwitchServer, ClearDns;
    var b := d.(now := d.now + 1, sync := Off, generation := d.generation + 1);
    ClearedBooks(k, b);
  }

  lemma ClearedBooks(k: System, d: State)
    ensures var t := ClearDns(k, d); t.dnsRoutes == {} && t.sync == d.sync && t.generation == d.generation
  {
  }

  /** A daemon that cannot go down stays as it is. */
  lemma RefusedDeactivation(k: System, d: State)
    requires d.connections != map[] && !k.goDown(d.now)
    ensures Step(k, d, Deactivation) == d.(now := d.now + 1)
  {
  }

  lemma {:induction false} MatchPeersLinks(k: System, d: State, hop: Hop, config: Config, peers: seq<Peer>)
    ensures MatchPeers(k, d, hop, config, peers).connections ==
            if Matches(k, config, peers) then d.connections[hop := Link(config, On)] else d.connections
    decreases |peers|
  {
    hide HandshakeSeen;
    if peers != [] {
      var hit := k.keysMatch(config.serverKey, peers[0].key) && peers[0].handshake != 0;
      HandshakeLinks(k, d, hop, config);
      MatchPeersLinks(k, if hit then HandshakeSeen(k, d, hop, config) else d, hop, config, peers[1..]);
      MatchesSplits(k, config, peers);
    }
  }

  lemma MatchesSplits(k: System, config: Config, peers: seq<Peer>)
    requires peers != []
    ensures Matches(k, config, peers) <==>
            (k.keysMatch(config.serverKey, peers[0].key) && peers[0].handshake != 0) || Matches(k, config, peers[1..])
  {
    var rest := peers[1..];
    if i :| 0 <= i < |peers| && k.keysMatch(config.serverKey, peers[i].key) && peers[i].handshake != 0 {
      if i > 0 { assert rest[i - 1] == peers[i]; }
    }
    if j :| 0 <= j < |rest| && k.keysMatch(config.serverKey, rest[j].key) && rest[j].handshake != 0 {
      assert peers[j + 1] == rest[j];
    }
  }

  /** The link of a hop after a poll: shaken if it was, or if a peer with its key reports a handshake. */
  function Polled(k: System, link: Link, peers: seq<Peer>): Link {
    Link(link.config, if link.shaken.On? || Matches(k, link.config, peers) then On else Off)
  }

  lemma HopLinks(k: System, d: State, hop: Hop, peers: seq<Peer>)
    ensures var t := CheckHop(k, d, hop, peers).connections;
      && t.Keys == d.connections.Keys
      && (forall h :: h in d.connections ==>
            t[h] == if h == hop then Polled(k, d.connections[h], peers) else d.connections[h])
  {
    hide MatchPeers, Matches;
    if hop in d.connections { MatchPeersLinks(k, d, hop, d.connections[hop].config, peers); }
  }

  /** A poll sees exactly the handshakes there are. */
  lemma PollLinks(k: System, d: State, peers: seq<Peer>)
    ensures Step(k, d, HandshakePoll(peers)).connections ==
            map h | h in d.connections :: Polled(k, d.connections[h], peers)
  {
    hide CheckHop, Polled;
    var a := CheckHop(k, d, SingleHop, peers);
    var b := CheckHop(k, a, MultiHopEntry, peers);
    var c := CheckHop(k, b, MultiHopExit, peers);
    HopLinks(k, d, SingleHop, peers);
    HopLinks(k, a, MultiHopEntry, peers);
    HopLinks(k, b, MultiHopExit, peers);
    forall h | h in d.connections ensures c.connections[h] == Polled(k, d.connections[h], peers) {
      assert h == SingleHop || h == MultiHopEntry || h == MultiHopExit;
    }
  }

  // ---------- the DNS pipeline ----------

  lemma {:induction false} AddStaticsFrame(k: System, d: State, addresses: seq<string>)
    ensures var t := AddStatics(k, d, addresses);
      t == d.(now := t.now, excluded := t.excluded, kernel := t.kernel, statics := t.statics)
    decreases |addresses|
  {
    hide Trimmed;
    if addresses != [] { AddStaticsFrame(k, AddStatic(k, d, Trimmed(addresses[0])), addresses[1..]); }
  }

  lemma {:induction false} RuleTexts(rules: seq<Rule>, h: string)
    ensures h in ExactHosts(rules) <==> ExactHost(h) in rules
    ensures h in HostRules(rules) <==> ExactHost(h) in rules || WildcardHost(h) in rules
  {
    if rules != [] {
      RuleTexts(rules[1..], h);
      assert rules == [rules[0]] + rules[1..];
    }
  }

  /** After the handshake: the kill switch as configured, no learned routes, the hosts and rules that the
      configuration lists, and one lookup for each host in the new generation. */
  lemma HandshakeOutcome(k: System, d: State, hop: Hop, config: Config)
    ensures var t := HandshakeSeen(k, d, hop, config);
      && t.sync == config.killSwitch && t.dnsRoutes == {} && t.generation == d.generation + 1
      && t.allowed == d.allowed
      && (forall h :: h in t.hosts <==> ExactHost(h) in config.dnsRules)
      && (forall h :: h in t.hostRules <==> ExactHost(h) in config.dnsRules || WildcardHost(h) in config.dnsRules)
      && (forall i, j :: 0 <= i < j < |t.hosts| ==> t.hosts[i] != t.hosts[j])
      && |t.lookups| == |d.lookups| + |t.hosts| && t.lookups[..|d.lookups|] == d.lookups
      && (forall i :: 0 <= i < |t.hosts| ==> t.lookups[|d.lookups| + i] == Lookup(t.hosts[i], t.generation))
  {
    hide AddStatics, ClearDns, ExactHosts, HostRules;
    var a := d.(connections := d.connections[hop := Link(config, On)]);
    var b := a.(generation := a.generation + 1, sync := config.killSwitch);
    ClearedPipeline(k, b);
    AddStaticsFrame(k, Configure(k, a, config), config.excludedAddresses);
    forall h
      ensures h in ExactHosts(config.dnsRules) <==> ExactHost(h) in config.dnsRules
      ensures h in HostRules(config.dnsRules) <==> ExactHost(h) in config.dnsRules || WildcardHost(h) in config.dnsRules
    {
      RuleTexts(config.dnsRules, h);
    }
  }

  lemma ClearedPipeline(k: System, d: State)
    ensures var t := ClearDns(k, d);
      && t.dnsRoutes == {} && t.sync == d.sync && t.generation == d.generation && t.lookups == d.lookups
      && t.allowed == d.allowed
  {
  }

  lemma {:induction false} V4Members(addresses: seq<HostAddress>, text: string)
    ensures text in V4Texts(addresses) <==> V4(text) in addresses
  {
    if addresses != [] {
      V4Members(addresses[1..], text);
      assert addresses == [addresses[0]] + addresses[1..];
    }
  }

  /** The prefixes of the IPv4 addresses of an answer. */
  ghost predicate Names(k: System, addresses: seq<HostAddress>, p: Prefix) {
    exists text :: V4(text) in addresses && k.parse(text) == p
  }

  lemma AnswerNames(k: System, addresses: seq<HostAddress>, p: Prefix)
    ensures p in Prefixes(k, Distinct(V4Texts(addresses))) <==> Names(k, addresses, p)
  {
    hide Distinct, V4Texts;
    if text :| V4(text) in addresses && k.parse(text) == p { V4Members(addresses, text); }
    if p in Prefixes(k, Distinct(V4Texts(addresses))) {
      var text :| text in Distinct(V4Texts(addresses)) && k.parse(text) == p;
      V4Members(addresses, text);
    }
  }

  /** A handshake and a current answer: exactly the named IPv4 addresses are learned, as far as the system adds
      routes, and the kill switch is told of them if and only if the configuration has it on. */
  lemma AnswerAfterHandshake(k: System, d: State, config: Config, peer: Peer, i: nat, addresses: seq<HostAddress>)
    requires config.hop in d.connections && d.connections[config.hop] == Link(config, Off)
    requires OthersShaken(d, config.hop) && k.keysMatch(config.serverKey, peer.key) && peer.handshake != 0
    requires var a := Step(k, d, HandshakePoll([peer])); i < |a.lookups| && a.lookups[i].generation == a.generation
    ensures var t := Step(k, Step(k, d, HandshakePoll([peer])), LookupAnswer(i, addresses));
      && (forall p :: p in t.dnsRoutes ==> Names(k, addresses, p))
      && (AddsSucceed(k) ==> forall p :: p in t.dnsRoutes <==> Names(k, addresses, p))
      && t.allowed == d.allowed + (if config.killSwitch.On? then t.dnsRoutes else {})
  {
    hide HandshakeSeen, CheckHandshake, Learn, V4Texts, Distinct, Names;
    var a := Step(k, d, HandshakePoll([peer]));
    PollIsHandshake(k, d, config, peer);
    HandshakeOutcome(k, d, config.hop, config);
    var b := a.(lookups := a.lookups[..i] + a.lookups[i + 1..]);
    var ips := Distinct(V4Texts(addresses));
    AnswerLearns(k, b, ips);
    AnswerTells(k, b, ips);
    forall p ensures p in Prefixes(k, ips) <==> Names(k, addresses, p) { AnswerNames(k, addresses, p); }
  }

  lemma AnswerTells(k: System, d: State, ips: seq<string>)
    ensures var t := Learn(k, d, ips);
      t.allowed == if d.sync.On? then d.allowed + (t.dnsRoutes - d.dnsRoutes) else d.allowed
  {
    hide Learn;
    assert Raised(d.excluded, d.dnsRoutes - d.dnsRoutes) == d.excluded;
    LearnAny(k, d, d, ips);
  }

  // ---------- refused deletions ----------

  /** The system never agrees to delete this route. */
  ghost predicate Stuck(k: System, p: Prefix) { forall n: nat :: !k.deleteRoute(n, p) }

  lemma {:induction false} ReleasesKeepStuck(k: System, d: State, addresses: seq<string>, p: Prefix)
    requires Stuck(k, p) && p in d.kernel
    ensures p in ReleaseStatics(k, d, addresses).kernel
    decreases |addresses|
  {
    hide Trimmed;
    if addresses != [] {
      var address := Trimmed(addresses[0]);
      ReleasesKeepStuck(k, if address == "" then d else ReleaseStatic(k, d, address), addresses[1..], p);
    }
  }

  lemma {:induction false} AddsKeepKernel(k: System, d: State, addresses: seq<string>)
    ensures d.kernel <= AddStatics(k, d, addresses).kernel
    decreases |addresses|
  {
    hide Trimmed;
    if addresses != [] { AddsKeepKernel(k, AddStatic(k, d, Trimmed(addresses[0])), addresses[1..]); }
  }

  lemma {:induction false} LearnKeepsKernel(k: System, d: State, ips: seq<string>)
    ensures d.kernel <= Learn(k, d, ips).kernel
    decreases |ips|
  {
    if ips != [] { LearnKeepsKernel(k, LearnOne(k, d, k.parse(ips[0])), ips[1..]); }
  }

  lemma HandshakeKeepsStuck(k: System, d: State, hop: Hop, config: Config, p: Prefix)
    requires Stuck(k, p) && p in d.kernel
    ensures p in HandshakeSeen(k, d, hop, config).kernel
  {
    hide AddStatics;
    var a := d.(connections := d.connections[hop := Link(config, On)]);
    AddsKeepKernel(k, Configure(k, a, config), config.excludedAddresses);
  }

  lemma {:induction false} MatchesKeepStuck(k: System, d: State, hop: Hop, config: Config, peers: seq<Peer>, p: Prefix)
    requires Stuck(k, p) && p in d.kernel
    ensures p in MatchPeers(k, d, hop, config, peers).kernel
    decreases |peers|
  {
    hide HandshakeSeen;
    if peers != [] {
      var hit := k.keysMatch(config.serverKey, peers[0].key) && peers[0].handshake != 0;
      HandshakeKeepsStuck(k, d, hop, config, p);
      MatchesKeepStuck(k, if hit then HandshakeSeen(k, d, hop, config) else d, hop, config, peers[1..], p);
    }
  }

  lemma HopKeepsStuck(k: System, d: State, hop: Hop, peers: seq<Peer>, p: Prefix)
    requires Stuck(k, p) && p in d.kernel
    ensures p in CheckHop(k, d, hop, peers).kernel
  {
    hide MatchPeers;
    if hop in d.connections { MatchesKeepStuck(k, d, hop, d.connections[hop].config, peers, p); }
  }

  lemma StepKeepsStuck(k: System, d: State, e: Event, p: Prefix)
    requires Stuck(k, p) && p in d.kernel
    ensures p in Step(k, d, e).kernel
  {
    hide AddStatics, ReleaseStatics, CheckHop, Learn;
    match e
    case Activation(config) =>
      if config.hop in d.connections {
        var a := AddStatics(k, d, config.excludedAddresses);
        AddsKeepKernel(k, d, config.excludedAddresses);
        ReleasesKeepStuck(k, a.(now := a.now + 1), d.connections[config.hop].config.excludedAddresses, p);
      }
    case HandshakePoll(peers) =>
      var a := CheckHop(k, d, SingleHop, peers);
      HopKeepsStuck(k, d, SingleHop, peers, p);
      HopKeepsStuck(k, a, MultiHopEntry, peers, p);
      HopKeepsStuck(k, CheckHop(k, a, MultiHopEntry, peers), MultiHopExit, peers, p);
    case LookupAnswer(i, addresses) =>
      if i < |d.lookups| {
        LearnKeepsKernel(k, d.(lookups := d.lookups[..i] + d.lookups[i + 1..]), Distinct(V4Texts(addresses)));
      }
    case Deactivation =>
  }

  /** Over every run, a kernel route goes only by a deletion that the system grants. */
  lemma {:induction false} RefusedRoutesStay(k: System, d: State, events: seq<Event>, p: Prefix)
    requires Stuck(k, p) && p in d.kernel
    ensures p in Run(k, d, events).kernel
    decreases |events|
  {
    hide Step, Stuck;
    if events != [] {
      StepKeepsStuck(k, d, events[0], p);
      RefusedRoutesStay(k, Step(k, d, events[0]), events[1..], p);
    }
  }
}
