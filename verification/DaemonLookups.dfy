/** Lookups in flight: stale answers are harmless, current ones add up to their union. */
module DaemonLookups {
  import opened Switches
  import opened Texts
  import opened DaemonSpec
  import opened DaemonTheorems

  // ---------- stale lookups ----------

  predicate Matches(k: System, config: Config, peers: seq<Peer>) {
    exists i :: 0 <= i < |peers| && k.keysMatch(config.serverKey, peers[i].key) && peers[i].handshake != 0
  }

  predicate HopRenews(k: System, d: State, hop: Hop, peers: seq<Peer>) {
    hop in d.connections && d.connections[hop].shaken.Off? && Matches(k, d.connections[hop].config, peers)
  }

  /** Does this event reconfigure the DNS pipeline or tear it down? */
  predicate Renews(k: System, d: State, e: Event) {
    match e
    case Activation(config) => config.hop in d.connections && !CanSwitch(d, config) && GoesDown(k, d)
    case Deactivation => GoesDown(k, d)
    case HandshakePoll(peers) =>
      HopRenews(k, d, SingleHop, peers) || HopRenews(k, d, MultiHopEntry, peers) ||
      HopRenews(k, d, MultiHopExit, peers)
    case LookupAnswer(_, _) => false
  }

  predicate RunRenews(k: System, d: State, events: seq<Event>)
    decreases |events|
  {
    events != [] && (Renews(k, d, events[0]) || RunRenews(k, Step(k, d, events[0]), events[1..]))
  }

  lemma HandshakeSeenGeneration(k: System, d: State, hop: Hop, config: Config)
    requires hop in d.connections
    ensures var t := HandshakeSeen(k, d, hop, config);
      && t.generation == d.generation + 1
      && t.connections.Keys == d.connections.Keys
      && (forall h :: h in d.connections && h != hop ==> t.connections[h] == d.connections[h])
  {
    hide AddStatics;
  }

  lemma {:induction false} MatchPeersGeneration(k: System, d: State, hop: Hop, config: Config, peers: seq<Peer>)
    requires hop in d.connections
    ensures var t := MatchPeers(k, d, hop, config, peers);
      && d.generation <= t.generation
      && (d.generation < t.generation <==> Matches(k, config, peers))
      && t.connections.Keys == d.connections.Keys
      && (forall h :: h in d.connections && h != hop ==> t.connections[h] == d.connections[h])
    decreases |peers|
  {
    hide HandshakeSeen;
    if peers != [] {
      var hit := k.keysMatch(config.serverKey, peers[0].key) && peers[0].handshake != 0;
      HandshakeSeenGeneration(k, d, hop, config);
      var a := if hit then HandshakeSeen(k, d, hop, config) else d;
      MatchPeersGeneration(k, a, hop, config, peers[1..]);
      if Matches(k, config, peers) && !hit {
        var i :| 0 <= i < |peers| && k.keysMatch(config.serverKey, peers[i].key) && peers[i].handshake != 0;
        assert peers[1..][i - 1] == peers[i];
      }
    }
  }

  lemma CheckHopGeneration(k: System, d: State, hop: Hop, peers: seq<Peer>)
    ensures var t := CheckHop(k, d, hop, peers);
      && d.generation <= t.generation
      && (d.generation < t.generation <==> HopRenews(k, d, hop, peers))
      && t.connections.Keys == d.connections.Keys
      && (forall h :: h in d.connections && h != hop ==> t.connections[h] == d.connections[h])
  {
    if hop in d.connections {
      MatchPeersGeneration(k, d, hop, d.connections[hop].config, peers);
    }
  }

  /** The generation never goes back, and moves on exactly when the pipeline is renewed. */
  lemma StepGeneration(k: System, d: State, e: Event)
    ensures var t := Step(k, d, e);
      d.generation <= t.generation && (d.generation < t.generation <==> Renews(k, d, e))
  {
    hide CheckHop, AddStatics, ReleaseStatics, Learn;
    match e
    case HandshakePoll(peers) =>
      var a := CheckHop(k, d, SingleHop, peers);
      var b := CheckHop(k, a, MultiHopEntry, peers);
      CheckHopGeneration(k, d, SingleHop, peers);
      CheckHopGeneration(k, a, MultiHopEntry, peers);
      CheckHopGeneration(k, b, MultiHopExit, peers);
    case _ =>
  }

  lemma {:induction false} RunGeneration(k: System, d: State, events: seq<Event>)
    ensures var t := Run(k, d, events);
      d.generation <= t.generation && (d.generation < t.generation <==> RunRenews(k, d, events))
    decreases |events|
  {
    hide Step, Renews;
    if events != [] {
      StepGeneration(k, d, events[0]);
      RunGeneration(k, Step(k, d, events[0]), events[1..]);
    }
  }

  /** In any interleaving, the answer to a lookup issued in state `d` is applied if and only if no
      reconfiguration and no teardown happened since; otherwise it changes nothing. */
  lemma StaleAnswersAreHarmless(k: System, d: State, events: seq<Event>, i: nat, addresses: seq<HostAddress>)
    requires var t := Run(k, d, events); i < |t.lookups| && t.lookups[i].generation == d.generation
    ensures var t := Run(k, d, events);
            var a := t.(lookups := t.lookups[..i] + t.lookups[i + 1..]);
            Answered(k, t, i, addresses) ==
              if RunRenews(k, d, events) then a else Learn(k, a, Distinct(V4Texts(addresses)))
  {
    hide Run, RunRenews;
    RunGeneration(k, d, events);
  }

  // ---------- order and repetition of answers ----------

  /** What an event newly tells about addresses: those of a current answer. */
  function Fresh(k: System, d: State, e: Event): set<Prefix> {
    if e.LookupAnswer? && e.index < |d.lookups| && d.lookups[e.index].generation == d.generation
    then Prefixes(k, Distinct(V4Texts(e.addresses))) else {}
  }

  function Heard(k: System, d: State, events: seq<Event>): set<Prefix>
    decreases |events|
  {
    if events == [] then {} else Fresh(k, d, events[0]) + Heard(k, Step(k, d, events[0]), events[1..])
  }

  /** Successive answers of one generation. */
  function LearnAll(k: System, d: State, answers: seq<seq<string>>): State
    decreases |answers|
  {
    if answers == [] then d else LearnAll(k, Learn(k, d, answers[0]), answers[1..])
  }

  function AllPrefixes(k: System, answers: seq<seq<string>>): set<Prefix> {
    if answers == [] then {} else Prefixes(k, answers[0]) + AllPrefixes(k, answers[1..])
  }

  /** One reference more for each prefix of `ps`. */
  function Raised(counts: map<Prefix, int>, ps: set<Prefix>): map<Prefix, int> {
    map p | p in counts.Keys + ps :: Count(counts, p) + (if p in ps then 1 else 0)
  }

  /** The state that learning exactly the new prefixes of `ps` leads to, whatever the way. */
  ghost predicate Knows(d: State, t: State, ps: set<Prefix>) {
    t == d.(now := t.now,
            dnsRoutes := d.dnsRoutes + ps,
            excluded := Raised(d.excluded, ps - d.dnsRoutes),
            kernel := d.kernel + (ps - d.dnsRoutes - d.excluded.Keys),
            allowed := if d.sync.On? then d.allowed + (ps - d.dnsRoutes) else d.allowed)
  }

  lemma LearnOneKnows(k: System, d: State, t: State, ps: set<Prefix>, p: Prefix)
    requires AddsSucceed(k) && Knows(d, t, ps)
    ensures Knows(d, LearnOne(k, t, p), ps + {p})
  {
    hide Raised;
    OneMoreRaised(d.excluded, ps - d.dnsRoutes, p);
    if p in t.dnsRoutes {
      assert ps + {p} - d.dnsRoutes == ps - d.dnsRoutes;
    } else {
      assert ps + {p} - d.dnsRoutes == ps - d.dnsRoutes + {p};
    }
  }

  lemma OneMoreRaised(counts: map<Prefix, int>, ps: set<Prefix>, p: Prefix)
    ensures Raised(counts, ps).Keys == counts.Keys + ps
    ensures p !in ps ==> Raised(counts, ps + {p}) == Raised(counts, ps)[p := Count(Raised(counts, ps), p) + 1]
  {
  }

  lemma {:induction false} LearnKnows(k: System, d: State, t: State, ps: set<Prefix>, ips: seq<string>)
    requires AddsSucceed(k) && Knows(d, t, ps)
    ensures Knows(d, Learn(k, t, ips), ps + Prefixes(k, ips))
    decreases |ips|
  {
    hide Knows;
    if ips == [] {
      assert ps + Prefixes(k, ips) == ps;
    } else {
      var p := k.parse(ips[0]);
      LearnOneKnows(k, d, t, ps, p);
      LearnKnows(k, d, LearnOne(k, t, p), ps + {p}, ips[1..]);
      assert ips == [ips[0]] + ips[1..];
      assert Prefixes(k, ips) == {p} + Prefixes(k, ips[1..]);
      assert ps + {p} + Prefixes(k, ips[1..]) == ps + Prefixes(k, ips);
    }
  }

  lemma {:induction false} LearnAllKnows(k: System, d: State, t: State, ps: set<Prefix>, answers: seq<seq<string>>)
    requires AddsSucceed(k) && Knows(d, t, ps)
    ensures Knows(d, LearnAll(k, t, answers), ps + AllPrefixes(k, answers))
    decreases |answers|
  {
    hide Knows;
    if answers == [] {
      assert ps + AllPrefixes(k, answers) == ps;
    } else {
      LearnKnows(k, d, t, ps, answers[0]);
      LearnAllKnows(k, d, Learn(k, t, answers[0]), ps + Prefixes(k, answers[0]), answers[1..]);
      assert ps + Prefixes(k, answers[0]) + AllPrefixes(k, answers[1..]) == ps + AllPrefixes(k, answers);
    }
  }

  /** In terms of answers alone: each prefix of the union gains one reference, however the answers are
      ordered, split or repeated. */
  lemma RepeatedAnswersAreAUnion(k: System, d: State, answers: seq<seq<string>>)
    requires AddsSucceed(k)
    ensures var t := LearnAll(k, d, answers);
      && t.dnsRoutes == d.dnsRoutes + AllPrefixes(k, answers)
      && t.excluded == Raised(d.excluded, AllPrefixes(k, answers) - d.dnsRoutes)
      && t.kernel == d.kernel + (AllPrefixes(k, answers) - d.dnsRoutes - d.excluded.Keys)
      && (d.sync.On? ==> AllPrefixes(k, answers) - d.dnsRoutes <= t.allowed)
  {
    StartsKnowing(d);
    LearnAllKnows(k, d, d, {}, answers);
    assert {} + AllPrefixes(k, answers) == AllPrefixes(k, answers);
  }

  lemma LearnOneAny(k: System, d: State, t: State, p: Prefix)
    requires Knows(d, t, t.dnsRoutes)
    ensures var u := LearnOne(k, t, p);
      Knows(d, u, u.dnsRoutes) && t.dnsRoutes <= u.dnsRoutes <= t.dnsRoutes + {p}
  {
    hide Raised;
    OneMoreRaised(d.excluded, t.dnsRoutes - d.dnsRoutes, p);
    if p !in t.dnsRoutes {
      assert t.dnsRoutes + {p} - d.dnsRoutes == t.dnsRoutes - d.dnsRoutes + {p};
    }
  }

  lemma {:induction false} LearnAny(k: System, d: State, t: State, ips: seq<string>)
    requires Knows(d, t, t.dnsRoutes)
    ensures var u := Learn(k, t, ips);
      Knows(d, u, u.dnsRoutes) && t.dnsRoutes <= u.dnsRoutes <= t.dnsRoutes + Prefixes(k, ips)
    decreases |ips|
  {
    hide Knows, LearnOne;
    if ips != [] {
      var p := k.parse(ips[0]);
      LearnOneAny(k, d, t, p);
      LearnAny(k, d, LearnOne(k, t, p), ips[1..]);
      assert ips == [ips[0]] + ips[1..];
      assert Prefixes(k, ips) == {p} + Prefixes(k, ips[1..]);
    }
  }

  lemma {:induction false} LearnAllAny(k: System, d: State, t: State, answers: seq<seq<string>>)
    requires Knows(d, t, t.dnsRoutes)
    ensures var u := LearnAll(k, t, answers);
      Knows(d, u, u.dnsRoutes) && t.dnsRoutes <= u.dnsRoutes <= t.dnsRoutes + AllPrefixes(k, answers)
    decreases |answers|
  {
    hide Knows, Learn;
    if answers != [] {
      LearnAny(k, d, t, answers[0]);
      LearnAllAny(k, d, Learn(k, t, answers[0]), answers[1..]);
    }
  }

  /** Whatever additions the system refuses: only answered prefixes are learned, none is forgotten, and the
      set of learned prefixes alone determines counts, kernel routes and what the kill switch was told. */
  lemma RefusalsOnlyOmit(k: System, d: State, answers: seq<seq<string>>)
    ensures var t := LearnAll(k, d, answers);
      && d.dnsRoutes <= t.dnsRoutes <= d.dnsRoutes + AllPrefixes(k, answers)
      && t.excluded == Raised(d.excluded, t.dnsRoutes - d.dnsRoutes)
      && t.kernel == d.kernel + (t.dnsRoutes - d.dnsRoutes - d.excluded.Keys)
      && t.allowed == (if d.sync.On? then d.allowed + (t.dnsRoutes - d.dnsRoutes) else d.allowed)
  {
    hide LearnAll;
    assert Raised(d.excluded, d.dnsRoutes - d.dnsRoutes) == d.excluded;
    assert Knows(d, d, d.dnsRoutes);
    LearnAllAny(k, d, d, answers);
  }

  lemma StartsKnowing(d: State)
    ensures Knows(d, d, {})
  {
    assert Raised(d.excluded, {} - d.dnsRoutes) == d.excluded;
  }

  // ---------- answers within a run ----------

  lemma {:induction false} NoMatchNoChange(k: System, d: State, hop: Hop, config: Config, peers: seq<Peer>)
    requires !Matches(k, config, peers)
    ensures MatchPeers(k, d, hop, config, peers) == d
    decreases |peers|
  {
    hide HandshakeSeen;
    if peers != [] {
      forall i | 0 <= i < |peers[1..]|
        ensures !(k.keysMatch(config.serverKey, peers[1..][i].key) && peers[1..][i].handshake != 0)
      {
        assert peers[1..][i] == peers[i + 1];
      }
      assert !(k.keysMatch(config.serverKey, peers[0].key) && peers[0].handshake != 0);
      NoMatchNoChange(k, d, hop, config, peers[1..]);
    }
  }

  lemma QuietHop(k: System, d: State, hop: Hop, peers: seq<Peer>)
    requires !HopRenews(k, d, hop, peers)
    ensures CheckHop(k, d, hop, peers) == d
  {
    if hop in d.connections && d.connections[hop].shaken.Off? {
      NoMatchNoChange(k, d, hop, d.connections[hop].config, peers);
    }
  }

  /** How far an event that renews nothing moves the learned routes. */
  lemma StepLearns(k: System, d: State, e: Event)
    requires !Renews(k, d, e)
    ensures var t := Step(k, d, e);
      && d.dnsRoutes <= t.dnsRoutes <= d.dnsRoutes + Fresh(k, d, e)
      && (AddsSucceed(k) ==> t.dnsRoutes == d.dnsRoutes + Fresh(k, d, e))
  {
    hide CheckHop, AddStatics, ReleaseStatics, Learn, HopRenews, TearDown;
    match e
    case HandshakePoll(peers) =>
      QuietHop(k, d, SingleHop, peers);
      QuietHop(k, d, MultiHopEntry, peers);
      QuietHop(k, d, MultiHopExit, peers);
    case LookupAnswer(i, addresses) =>
      if i < |d.lookups| && d.lookups[i].generation == d.generation {
        AnswerLearns(k, d.(lookups := d.lookups[..i] + d.lookups[i + 1..]), Distinct(V4Texts(addresses)));
      }
    case _ =>
  }

  lemma AnswerLearns(k: System, d: State, ips: seq<string>)
    ensures var t := Learn(k, d, ips);
      && d.dnsRoutes <= t.dnsRoutes <= d.dnsRoutes + Prefixes(k, ips)
      && (AddsSucceed(k) ==> t.dnsRoutes == d.dnsRoutes + Prefixes(k, ips))
  {
    hide Learn;
    assert Raised(d.excluded, d.dnsRoutes - d.dnsRoutes) == d.excluded;
    LearnAny(k, d, d, ips);
    if AddsSucceed(k) {
      StartsKnowing(d);
      LearnKnows(k, d, d, {}, ips);
    }
  }

  /** Until the pipeline is renewed, and whatever else happens in between, the learned routes are the union
      of all current answers, in any order and repetition; refused additions only omit. */
  lemma {:induction false} AnswersAreAUnion(k: System, d: State, events: seq<Event>)
    requires !RunRenews(k, d, events)
    ensures var t := Run(k, d, events);
      && d.dnsRoutes <= t.dnsRoutes <= d.dnsRoutes + Heard(k, d, events)
      && (AddsSucceed(k) ==> t.dnsRoutes == d.dnsRoutes + Heard(k, d, events))
    decreases |events|
  {
    hide Step, Renews, Fresh;
    if events != [] {
      StepLearns(k, d, events[0]);
      AnswersAreAUnion(k, Step(k, d, events[0]), events[1..]);
    }
  }
}
