/** Route bookkeeping of the privileged daemon: reference-counted exclusion routes, routes learned
    from DNS, and the generation counter that obsoletes lookups in flight. */
module DaemonSpec {
  import opened Switches
  import opened Texts

  datatype Prefix = Prefix(address: int, length: int)

  datatype Hop = SingleHop | MultiHopEntry | MultiHopExit

  /** A split-tunnel rule after SplitTunnelRule::fromText. */
  datatype Rule = Malformed | Subnet(text: string) | ExactHost(text: string) | WildcardHost(text: string)

  datatype Config = Config(
    hop: Hop,
    identity: string,              // private key, device addresses and gateways
    serverKey: string,
    excludedAddresses: seq<string>,
    dnsRules: seq<Rule>,
    killSwitch: Switch)

  /** An established connection; `shaken` once its handshake has been seen. */
  datatype Link = Link(config: Config, shaken: Switch)

  datatype Peer = Peer(key: string, handshake: int)

  datatype HostAddress = V4(text: string) | V6(text: string)

  /** A lookup in flight remembers the generation it was issued in. */
  datatype Lookup = Lookup(host: string, generation: int)

  /** The system the daemon drives; answers are indexed by the number of earlier questions. */
  datatype System = System(
    parse: string -> Prefix,        // IPAddress(QString)
    parseHost: string -> Prefix,    // IPAddress(QHostAddress(QString))
    keysMatch: (string, string) -> bool,
    addRoute: nat -> bool,          // wgutils()->addExclusionRoute
    deleteRoute: (nat, Prefix) -> bool, // wgutils()->deleteExclusionRoute
    goDown: nat -> bool,            // run(Down, ...)
    comeUp: nat -> bool,            // every step of bringing an interface up
    switchPeer: nat -> bool,        // updatePeer during a server switch
    dropPeer: nat -> bool,          // deletePeer during a server switch
    dropInterface: nat -> bool)     // wgutils()->deleteInterface

  datatype State = State(
    now: nat,
    connections: map<Hop, Link>,
    excluded: map<Prefix, int>,     // m_excludedAddrSet: reference counts
    hosts: seq<string>,             // m_splitTunnelDnsResolveHosts
    hostRules: seq<string>,         // the rules last given to the DNS utilities
    dnsRoutes: set<Prefix>,         // m_splitTunnelDnsRoutes
    generation: int,
    sync: Switch,                   // m_splitTunnelDnsKillSwitchEnabled
    lookups: seq<Lookup>,           // issued and not answered yet
    kernel: set<Prefix>,            // exclusion routes installed in the system
    allowed: set<Prefix>,           // ranges ever handed to the kill switch
    statics: multiset<Prefix>)      // static acquisitions not released or torn down

  const Idle := State(0, map[], map[], [], [], {}, 0, Off, [], {}, {}, multiset{})

  // ---------- reference counts ----------

  predicate Acquires(k: System, d: State, p: Prefix) { p in d.excluded || k.addRoute(d.now) }

  function Count(counts: map<Prefix, int>, p: Prefix): int { if p in counts then counts[p] else 0 }

  /** addExclusionRoute: a known prefix gains a reference, a new one needs a kernel route. */
  function Acquire(k: System, d: State, p: Prefix): (t: State)
    ensures t == d.(now := t.now, excluded := t.excluded, kernel := t.kernel)
    ensures Acquires(k, d, p) ==> p in t.excluded && t.excluded[p] == Count(d.excluded, p) + 1
  {
    var known := p in d.excluded;
    var ok := Acquires(k, d, p);
    d.(now := if known then d.now else d.now + 1,
       excluded := if ok then d.excluded[p := Count(d.excluded, p) + 1] else d.excluded,
       kernel := if ok && !known then d.kernel + {p} else d.kernel)
  }

  /** delExclusionRoute: the last reference takes the kernel route with it. */
  function Release(k: System, d: State, p: Prefix): (t: State)
    ensures t == d.(excluded := t.excluded, kernel := t.kernel)
  {
    if p in d.excluded && d.excluded[p] > 1 then d.(excluded := d.excluded[p := d.excluded[p] - 1])
    else
      d.(excluded := d.excluded - {p},
         kernel := if k.deleteRoute(d.now, p) then d.kernel - {p} else d.kernel)
  }

  /** The counts after every prefix of `ps` has lost one reference. */
  function Dropped(counts: map<Prefix, int>, ps: set<Prefix>): map<Prefix, int> {
    map p | p in counts && (p !in ps || counts[p] > 1) :: if p in ps then counts[p] - 1 else counts[p]
  }

  /** The prefixes of `ps` whose kernel route goes when one reference of each is dropped. */
  function Deleted(k: System, now: nat, counts: map<Prefix, int>, ps: set<Prefix>): set<Prefix> {
    set p | p in ps && p in counts && counts[p] <= 1 && k.deleteRoute(now, p)
  }

  /** clearSplitTunnelDnsRoutes, whatever the order of the set. */
  function ClearDns(k: System, d: State): (t: State)
    ensures t.now == d.now + 1
  {
    d.(now := d.now + 1,
       excluded := Dropped(d.excluded, d.dnsRoutes),
       kernel := d.kernel - Deleted(k, d.now, d.excluded, d.dnsRoutes),
       dnsRoutes := {})
  }

  /** refreshSplitTunnelStaticRoutes: blank entries are skipped, failures ignored. */
  function AddStatics(k: System, d: State, addresses: seq<string>): (t: State)
    ensures t.generation == d.generation && t.connections == d.connections && t.dnsRoutes == d.dnsRoutes
    decreases |addresses|
  {
    if addresses == [] then d else AddStatics(k, AddStatic(k, d, Trimmed(addresses[0])), addresses[1..])
  }

  function AddStatic(k: System, d: State, address: string): State {
    if address == "" then d
    else
      var p := k.parse(address);
      var a := Acquire(k, d, p);
      a.(statics := if Acquires(k, d, p) then a.statics + multiset{p} else a.statics)
  }

  // ---------- routes learned from DNS ----------

  function LearnOne(k: System, d: State, p: Prefix): State {
    if p in d.dnsRoutes then d
    else
      var a := Acquire(k, d, p);
      var ok := Acquires(k, d, p);
      a.(dnsRoutes := if ok then a.dnsRoutes + {p} else a.dnsRoutes,
         allowed := if ok && a.sync.On? then a.allowed + {p} else a.allowed)
  }

  /** onSplitTunnelHostResolved */
  function Learn(k: System, d: State, ips: seq<string>): (t: State)
    ensures t.generation == d.generation && t.connections == d.connections
    decreases |ips|
  {
    if ips == [] then d else Learn(k, LearnOne(k, d, k.parse(ips[0])), ips[1..])
  }

  function Prefixes(k: System, ips: seq<string>): set<Prefix> {
    set ip | ip in ips :: k.parse(ip)
  }

  function V4Texts(addresses: seq<HostAddress>): seq<string> {
    if addresses == [] then []
    else (if addresses[0].V4? then [addresses[0].text] else []) + V4Texts(addresses[1..])
  }

  /** The answer to lookup number `i` arrives; it counts only in its own generation. */
  function Answered(k: System, d: State, i: nat, addresses: seq<HostAddress>): State {
    if i >= |d.lookups| then d
    else
      var a := d.(lookups := d.lookups[..i] + d.lookups[i + 1..]);
      if d.lookups[i].generation != d.generation then a
      else Learn(k, a, Distinct(V4Texts(addresses)))
  }

  function ExactHosts(rules: seq<Rule>): seq<string> {
    if rules == [] then []
    else (if rules[0].ExactHost? then [rules[0].text] else []) + ExactHosts(rules[1..])
  }

  function HostRules(rules: seq<Rule>): seq<string> {
    if rules == [] then []
    else (if rules[0].ExactHost? || rules[0].WildcardHost? then [rules[0].text] else []) + HostRules(rules[1..])
  }

  /** configureSplitTunnelDnsRoutes: a new generation with no learned routes. */
  function Configure(k: System, d: State, config: Config): State {
    ClearDns(k, d.(generation := d.generation + 1, sync := config.killSwitch))
      .(hosts := Distinct(ExactHosts(config.dnsRules)), hostRules := Distinct(HostRules(config.dnsRules)))
  }

  /** refreshSplitTunnelDnsRoutes: one lookup for each host. */
  function IssueLookups(d: State): State {
    d.(lookups := d.lookups + seq(|d.hosts|, i requires 0 <= i < |d.hosts| => Lookup(d.hosts[i], d.generation)))
  }

  // ---------- handshakes ----------

  function HandshakeSeen(k: System, d: State, hop: Hop, config: Config): State {
    var a := d.(connections := d.connections[hop := Link(config, On)]);
    IssueLookups(AddStatics(k, Configure(k, a, config), config.excludedAddresses))
  }

  function MatchPeers(k: System, d: State, hop: Hop, config: Config, peers: seq<Peer>): State
    decreases |peers|
  {
    if peers == [] then d
    else
      var hit := k.keysMatch(config.serverKey, peers[0].key) && peers[0].handshake != 0;
      MatchPeers(k, if hit then HandshakeSeen(k, d, hop, config) else d, hop, config, peers[1..])
  }

  function CheckHop(k: System, d: State, hop: Hop, peers: seq<Peer>): State {
    if hop in d.connections && d.connections[hop].shaken.Off?
    then MatchPeers(k, d, hop, d.connections[hop].config, peers) else d
  }

  function CheckHandshake(k: System, d: State, peers: seq<Peer>): State {
    CheckHop(k, CheckHop(k, CheckHop(k, d, SingleHop, peers), MultiHopEntry, peers), MultiHopExit, peers)
  }

  // ---------- activation and teardown ----------

  /** Does deactivate get past run(Down)? */
  predicate GoesDown(k: System, d: State) { d.connections == map[] || k.goDown(d.now) }

  /** The prefixes of `ps` that the system agrees to delete. */
  function Swept(k: System, now: nat, ps: set<Prefix>): set<Prefix> {
    set p | p in ps && k.deleteRoute(now, p)
  }

  function TearDown(k: System, d: State): State {
    var a := ClearDns(k, d.(now := d.now + 1, sync := Off, generation := d.generation + 1));
    a.(now := a.now + 2, hosts := [], hostRules := [], connections := map[], statics := multiset{},
       kernel := a.kernel - Swept(k, a.now, a.excluded.Keys),
       excluded := map[])
  }

  function Deactivate(k: System, d: State): State {
    if GoesDown(k, d) then TearDown(k, d) else d.(now := d.now + 1)
  }

  /** Does a teardown that starts here succeed in deleting the interface? */
  predicate DropsInterface(k: System, d: State) { k.dropInterface(d.now + 3) }

  predicate CanSwitch(d: State, config: Config) {
    config.hop in d.connections && d.connections[config.hop].config.identity == config.identity
  }

  /** Interface, peer, resolvers and routes come up, or the activation fails. */
  function BringUp(k: System, d: State, config: Config): State {
    if k.comeUp(d.now) then d.(now := d.now + 1, connections := d.connections[config.hop := Link(config, Off)])
    else d.(now := d.now + 1)
  }

  /** A counted prefix loses one of its static acquisitions, if it has any. */
  function ReleaseStatic(k: System, d: State, address: string): State {
    var p := k.parseHost(address);
    Release(k, d, p).(now := d.now + 1, statics := if p in d.excluded then d.statics - multiset{p} else d.statics)
  }

  function ReleaseStatics(k: System, d: State, addresses: seq<string>): (t: State)
    ensures t.generation == d.generation && t.connections == d.connections && t.dnsRoutes == d.dnsRoutes
    decreases |addresses|
  {
    if addresses == [] then d
    else
      var address := Trimmed(addresses[0]);
      ReleaseStatics(k, if address == "" then d else ReleaseStatic(k, d, address), addresses[1..])
  }

  /** switchServer and the rest of activate's switching branch. */
  function SwitchServer(k: System, d: State, config: Config): State
    requires config.hop in d.connections
  {
    var last := d.connections[config.hop].config;
    var a := AddStatics(k, d, config.excludedAddresses);
    var b := a.(now := a.now + 1);
    if !k.switchPeer(a.now) then b
    else
      var c := ReleaseStatics(k, b, last.excludedAddresses);
      if config.serverKey != last.serverKey && !k.dropPeer(c.now) then c.(now := c.now + 1)
      else c.(now := c.now + 2, connections := c.connections[config.hop := Link(config, Off)])
  }

  function Activate(k: System, d: State, config: Config): State {
    if config.hop !in d.connections then BringUp(k, d, config)
    else if CanSwitch(d, config) then SwitchServer(k, d, config)
    else if GoesDown(k, d) then
      (if DropsInterface(k, d) then BringUp(k, TearDown(k, d), config) else TearDown(k, d))
    else d.(now := d.now + 1)
  }

  // ---------- runs ----------

  datatype Event =
    | Activation(config: Config)
    | Deactivation
    | HandshakePoll(peers: seq<Peer>)
    | LookupAnswer(index: nat, addresses: seq<HostAddress>)

  function Step(k: System, d: State, e: Event): State {
    match e
    case Activation(config) => Activate(k, d, config)
    case Deactivation => Deactivate(k, d)
    case HandshakePoll(peers) => CheckHandshake(k, d, peers)
    case LookupAnswer(i, addresses) => Answered(k, d, i, addresses)
  }

  /** Does this event switch servers on a live connection? */
  predicate SwitchesServer(d: State, e: Event) { e.Activation? && CanSwitch(d, e.config) }

  function Run(k: System, d: State, events: seq<Event>): State
    decreases |events|
  {
    if events == [] then d else Run(k, Step(k, d, events[0]), events[1..])
  }
}
