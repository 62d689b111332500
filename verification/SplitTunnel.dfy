/** From the user's split-tunnel choice to the address lists sent to the daemon, and what those lists
    do to an IPv4 destination. */
module SplitTunnel {
  import opened Texts

  datatype RouteMode = VpnAllSites | VpnOnlyForwardSites | VpnAllExceptSites

  /** An entry of the site list after SplitTunnelRule::fromText: a subnet, or a host with the
      addresses it was resolved to earlier. */
  datatype Rule =
    | Malformed
    | Subnet(text: string)
    | Host(text: string, wildcard: bool, ips: seq<string>)

  /** The settings involved; `dns1`, `dns2` and `server` come from the connection's configuration. */
  datatype Choice = Choice(
    enabled: bool,
    mode: RouteMode,
    rules: seq<Rule>,
    amneziaDns: bool,
    dns1: string,
    dns2: string,
    server: string)

  /** NetworkUtilities::checkIpSubnetFormat and the value of a dotted address. */
  datatype Addressing = Addressing(wellFormed: string -> bool, value: string -> nat)

  /** splitTunnelType, splitTunnelSites and splitTunnelDnsRules of the configuration. */
  datatype Plan = Plan(mode: RouteMode, sites: seq<string>, dnsRules: seq<string>)

  datatype Range = Range(address: string, length: int, v6: bool)

  /** allowedIPAddressRanges and excludedAddresses of the activation message. */
  datatype Lists = Lists(allowed: seq<Range>, excluded: seq<string>)

  // ---------- building the plan ----------

  function WellFormedOnly(a: Addressing, ips: seq<string>): (r: seq<string>)
    ensures forall t :: t in r ==> a.wellFormed(t)
  {
    if ips == [] then []
    else WellFormedOnly(a, ips[..|ips| - 1]) + (if a.wellFormed(ips[|ips| - 1]) then [ips[|ips| - 1]] else [])
  }

  /** The addresses one rule contributes. */
  function RuleSites(a: Addressing, rule: Rule): seq<string> {
    match rule
    case Malformed => []
    case Subnet(text) => [text]
    case Host(_, _, ips) => WellFormedOnly(a, ips)
  }

  function Sites(a: Addressing, rules: seq<Rule>): seq<string> {
    if rules == [] then [] else Sites(a, rules[..|rules| - 1]) + RuleSites(a, rules[|rules| - 1])
  }

  function Hosts(rules: seq<Rule>): seq<string> {
    if rules == [] then []
    else Hosts(rules[..|rules| - 1]) + (if rules[|rules| - 1].Host? then [rules[|rules| - 1].text] else [])
  }

  /** Does the list ask for anything? */
  predicate Effective(a: Addressing, c: Choice) { c.enabled && (Sites(a, c.rules) != [] || Hosts(c.rules) != []) }

  /** The mode that is in force once an empty list is read as no split at all. */
  function EffectiveMode(a: Addressing, c: Choice): RouteMode {
    if Effective(a, c) then c.mode else VpnAllSites
  }

  function DnsPair(c: Choice): seq<string> { [c.dns1, c.dns2] }

  /** The plan for a peer whose AllowedIPs are exactly the two default routes. */
  function PlanFor(a: Addressing, c: Choice): Plan {
    var sites := if c.enabled then Distinct(Sites(a, c.rules)) else [];
    var hosts := if c.enabled then Distinct(Hosts(c.rules)) else [];
    var mode := EffectiveMode(a, c);
    if mode.VpnOnlyForwardSites? then Plan(mode, if c.amneziaDns then sites + DnsPair(c) else sites, hosts)
    else if c.amneziaDns then Plan(mode, sites, hosts)
    else Plan(VpnAllExceptSites, sites + DnsPair(c), hosts)
  }

  /** appendSplitTunnelingConfig */
  method AppendSplitTunnelingConfig(a: Addressing, c: Choice) returns (plan: Plan)
    ensures plan == PlanFor(a, c)
  {
    var routeMode := VpnAllSites;
    var sites: seq<string>, dnsRules: seq<string> := [], [];
    if c.enabled {
      routeMode := c.mode;
      var hasDynamicHostRules := false;
      for i := 0 to |c.rules|
        invariant sites == Sites(a, c.rules[..i]) && dnsRules == Hosts(c.rules[..i])
        invariant hasDynamicHostRules ==> dnsRules != []
      {
        assert c.rules[..i + 1][..i] == c.rules[..i];
        var rule := c.rules[i];
        match rule {
          case Malformed =>
          case Subnet(text) => sites := sites + [text];
          case Host(text, wildcard, ips) =>
            var kept := KeepWellFormed(a, ips);
            sites := sites + kept;
            if wildcard {
              hasDynamicHostRules := true;
            }
            dnsRules := dnsRules + [text];
        }
      }
      assert c.rules[..|c.rules|] == c.rules;
      EmptyTogether(sites);
      EmptyTogether(dnsRules);
      sites := Distinct(sites);
      dnsRules := Distinct(dnsRules);
      if sites == [] && !hasDynamicHostRules && dnsRules == [] {
        routeMode := VpnAllSites;
      } else if routeMode.VpnOnlyForwardSites? && c.amneziaDns {
        sites := sites + [c.dns1, c.dns2];
      }
    }
    if !c.amneziaDns && !routeMode.VpnOnlyForwardSites? {
      routeMode := VpnAllExceptSites;
      sites := sites + [c.dns1, c.dns2];
    }
    plan := Plan(routeMode, sites, dnsRules);
  }

  method KeepWellFormed(a: Addressing, ips: seq<string>) returns (kept: seq<string>)
    ensures kept == WellFormedOnly(a, ips)
  {
    kept := [];
    for i := 0 to |ips|
      invariant kept == WellFormedOnly(a, ips[..i])
    {
      assert ips[..i + 1][..i] == ips[..i];
      if a.wellFormed(ips[i]) {
        kept := kept + [ips[i]];
      }
    }
    assert ips[..|ips|] == ips;
  }

  lemma EmptyTogether(s: seq<string>)
    ensures Distinct(s) == [] <==> s == []
  {
    if s != [] { assert s[0] in Distinct(s); }
  }

  // ---------- building the lists ----------

  /** Position of the first slash, or the length. */
  function SlashAt(text: string): (n: nat)
    ensures n <= |text|
  {
    if text == "" || text[0] == '/' then 0 else 1 + SlashAt(text[1..])
  }

  function Digits(text: string, acc: int): int {
    if text == "" || !('0' <= text[0] <= '9') then acc
    else Digits(text[1..], 10 * acc + (text[0] - '0') as int)
  }

  /** atoi: leading blanks, a sign, digits. */
  function Atoi(text: string): int {
    var t := TrimmedLeft(text);
    if t == "" then 0
    else if t[0] == '-' then -Digits(t[1..], 0)
    else if t[0] == '+' then Digits(t[1..], 0)
    else Digits(t, 0)
  }

  /** "address/length", or a single address. */
  function RangeOf(text: string): Range {
    var n := SlashAt(text);
    if n == |text| then Range(text, 32, false)
    else
      var tail := text[n + 1..];
      Range(text[..n], Atoi(tail[..SlashAt(tail)]), false)
  }

  function Ranges(sites: seq<string>): (r: seq<Range>)
    ensures |r| == |sites| && forall i :: 0 <= i < |r| ==> r[i] == RangeOf(sites[i])
  {
    if sites == [] then [] else Ranges(sites[..|sites| - 1]) + [RangeOf(sites[|sites| - 1])]
  }

  function Blankless(sites: seq<string>): seq<string> {
    if sites == [] then []
    else
      var last := Trimmed(sites[|sites| - 1]);
      Blankless(sites[..|sites| - 1]) + (if last == "" then [] else [last])
  }

  const DefaultRanges := [Range("0.0.0.0", 0, false), Range("::", 0, true)]

  function ListsFor(plan: Plan, server: string): Lists {
    Lists(if plan.mode.VpnOnlyForwardSites? then Ranges(plan.sites) else DefaultRanges,
          [Trimmed(server)] + (if plan.mode.VpnAllExceptSites? then Blankless(plan.sites) else []))
  }

  /** The list construction of LocalSocketController::activate. */
  method BuildLists(plan: Plan, server: string) returns (lists: Lists)
    ensures lists == ListsFor(plan, server)
  {
    hide Trimmed, RangeOf;
    var allowed: seq<Range> := [];
    if plan.mode.VpnAllSites? || plan.mode.VpnAllExceptSites? {
      allowed := [Range("0.0.0.0", 0, false), Range("::", 0, true)];
    }
    if plan.mode.VpnOnlyForwardSites? {
      for i := 0 to |plan.sites|
        invariant allowed == Ranges(plan.sites[..i])
      {
        assert plan.sites[..i + 1][..i] == plan.sites[..i];
        allowed := allowed + [RangeOf(plan.sites[i])];
      }
      assert plan.sites[..|plan.sites|] == plan.sites;
    }
    var excluded := [Trimmed(server)];
    if plan.mode.VpnAllExceptSites? {
      for i := 0 to |plan.sites|
        invariant excluded == [Trimmed(server)] + Blankless(plan.sites[..i])
      {
        assert plan.sites[..i + 1][..i] == plan.sites[..i];
        var text := Trimmed(plan.sites[i]);
        if text != "" {
          excluded := excluded + [text];
        }
      }
      assert plan.sites[..|plan.sites|] == plan.sites;
    }
    lists := Lists(allowed, excluded);
  }

  // ---------- what the lists mean ----------

  function Pow2(n: nat): (r: nat)
    ensures r > 0
  {
    if n == 0 then 1 else 2 * Pow2(n - 1)
  }

  /** An IPv4 destination lies in a range when it agrees on the first `length` bits. As in QHostAddress,
      blanks around an address do not matter and an empty one denotes nothing. */
  predicate Covers(a: Addressing, r: Range, d: nat) {
    var address := Trimmed(r.address);
    && !r.v6 && address != "" && 0 <= r.length <= 32
    && d / Pow2(32 - r.length) == a.value(address) / Pow2(32 - r.length)
  }

  predicate InAny(a: Addressing, texts: seq<string>, d: nat) {
    exists t :: t in texts && Covers(a, RangeOf(t), d)
  }

  predicate InAnyRange(a: Addressing, ranges: seq<Range>, d: nat) {
    exists i :: 0 <= i < |ranges| && Covers(a, ranges[i], d)
  }

  /** The daemon routes into the tunnel what is allowed and not excluded, neither by the message nor by
      a route learned from DNS. */
  predicate Inside(a: Addressing, lists: Lists, learned: seq<string>, d: nat) {
    InAnyRange(a, lists.allowed, d) && !InAny(a, lists.excluded, d) && !InAny(a, learned, d)
  }

  /** What the user asked for, in terms of the addresses alone. A host rule lists the addresses stored
      with it and those the daemon learns for it. */
  predicate Wanted(a: Addressing, c: Choice, learned: seq<string>, d: nat) {
    var listed := InAny(a, Sites(a, c.rules), d) || InAny(a, learned, d);
    var dns := InAny(a, DnsPair(c), d);
    && !InAny(a, [c.server], d)
    && match EffectiveMode(a, c)
       case VpnAllSites => c.amneziaDns || !dns
       case VpnOnlyForwardSites => listed || (c.amneziaDns && dns)
       case VpnAllExceptSites => !listed && (c.amneziaDns || !dns)
  }

  /** The destinations on which the daemon disagrees with the choice. Learned routes are exclusions in
      every mode, and sites listed under "all sites" turn into exclusions when the plain DNS servers
      have to be excluded. */
  predicate Stray(a: Addressing, c: Choice, learned: seq<string>, d: nat) {
    && !InAny(a, [c.server], d)
    && match EffectiveMode(a, c)
       case VpnAllSites =>
         && (c.amneziaDns || !InAny(a, DnsPair(c), d))
         && (InAny(a, learned, d) || (!c.amneziaDns && c.enabled && InAny(a, Sites(a, c.rules), d)))
       case VpnOnlyForwardSites => InAny(a, learned, d)
       case VpnAllExceptSites => false
  }

  // ---------- blanks do not matter ----------

  predicate Blank(s: string) { forall i :: 0 <= i < |s| ==> IsSpace(s[i]) }

  lemma {:induction false} SlashAfterBlanks(l: string, x: string)
    requires Blank(l)
    ensures SlashAt(l + x) == |l| + SlashAt(x)
  {
    if l == "" {
      assert l + x == x;
    } else {
      SlashAfterBlanks(l[1..], x);
      assert (l + x)[1..] == l[1..] + x;
    }
  }

  lemma {:induction false} SlashBeforeBlanks(x: string, r: string)
    requires Blank(r)
    ensures SlashAt(x + r) == if SlashAt(x) < |x| then SlashAt(x) else |x| + |r|
  {
    if x == "" {
      SlashAfterBlanks(r, "");
      assert x + r == r == r + "";
    } else if x[0] != '/' {
      SlashBeforeBlanks(x[1..], r);
      assert (x + r)[1..] == x[1..] + r;
    }
  }

  lemma {:induction false} DigitsBeforeBlanks(x: string, r: string, acc: int)
    requires Blank(r)
    ensures Digits(x + r, acc) == Digits(x, acc)
    decreases |x|
  {
    if x == "" {
      assert x + r == r;
    } else if '0' <= x[0] <= '9' {
      DigitsBeforeBlanks(x[1..], r, 10 * acc + (x[0] - '0') as int);
      assert (x + r)[1..] == x[1..] + r;
    }
  }

  lemma LeftSkips(c: char, x: string)
    requires IsSpace(c)
    ensures TrimmedLeft([c] + x) == TrimmedLeft(x)
  {
    hide IsSpace;
    var s := [c] + x;
    assert s[0] == c && s[1..] == x;
  }

  lemma {:induction false} LeftAfterBlanks(l: string, x: string)
    requires Blank(l)
    ensures TrimmedLeft(l + x) == TrimmedLeft(x)
    decreases |l|
  {
    if l == "" {
      assert l + x == x;
    } else {
      hide IsSpace, TrimmedLeft;
      var init, c := l[..|l| - 1], l[|l| - 1];
      var tail := [c] + x;
      assert l + x == init + tail;
      LeftAfterBlanks(init, tail);
      LeftSkips(c, x);
    }
  }

  lemma {:induction false} LeftBeforeBlanks(x: string, r: string)
    requires Blank(r)
    ensures TrimmedLeft(x + r) == if TrimmedLeft(x) == "" then "" else TrimmedLeft(x) + r
  {
    if x == "" {
      LeftAfterBlanks(r, "");
      assert x + r == r == r + "";
    } else {
      hide IsSpace;
      assert (x + r)[0] == x[0] && (x + r)[1..] == x[1..] + r;
      if IsSpace(x[0]) { LeftBeforeBlanks(x[1..], r); }
    }
  }

  lemma AtoiBeforeBlanks(x: string, r: string)
    requires Blank(r)
    ensures Atoi(x + r) == Atoi(x)
  {
    hide TrimmedLeft, Digits, Blank;
    LeftBeforeBlanks(x, r);
    var t := TrimmedLeft(x);
    if t != "" {
      assert (t + r)[0] == t[0];
      assert (t + r)[1..] == t[1..] + r;
      DigitsBeforeBlanks(t, r, 0);
      DigitsBeforeBlanks(t[1..], r, 0);
    }
  }

  /** The length of a range that is followed by blanks. */
  lemma LengthBeforeBlanks(tail: string, r: string)
    requires Blank(r)
    ensures Atoi((tail + r)[..SlashAt(tail + r)]) == Atoi(tail[..SlashAt(tail)])
  {
    SlashBeforeBlanks(tail, r);
    if SlashAt(tail) < |tail| {
      assert (tail + r)[..SlashAt(tail)] == tail[..SlashAt(tail)];
    } else {
      assert (tail + r)[..|tail| + |r|] == tail + r && tail[..|tail|] == tail;
      AtoiBeforeBlanks(tail, r);
    }
  }

  /** Two ranges that differ in blanks around the address only. */
  predicate Alike(x: Range, y: Range) {
    Trimmed(x.address) == Trimmed(y.address) && x.length == y.length && x.v6 == y.v6
  }

  lemma AddressAfterBlanks(l: string, x: string)
    requires Blank(l)
    ensures Trimmed(l + x) == Trimmed(x)
  {
    hide TrimmedLeft, TrimmedRight;
    LeftAfterBlanks(l, x);
  }

  lemma RangeOfParts(address: string, tail: string)
    requires SlashAt(address + "/" + tail) == |address|
    ensures RangeOf(address + "/" + tail) == Range(address, Atoi(tail[..SlashAt(tail)]), false)
  {
    hide Atoi, SlashAt;
    var t := address + "/" + tail;
    assert t[..|address|] == address && t[|address| + 1..] == tail;
  }

  lemma {:induction false} SlashIsThere(x: string)
    requires SlashAt(x) < |x|
    ensures x == x[..SlashAt(x)] + "/" + x[SlashAt(x) + 1..]
  {
    if x[0] != '/' { SlashIsThere(x[1..]); }
  }

  lemma RangeAfterBlanks(l: string, x: string)
    requires Blank(l) && SlashAt(x) < |x|
    ensures Alike(RangeOf(l + x), RangeOf(x))
  {
    hide Atoi, Trimmed, SlashAt, Blank, RangeOf;
    var address, tail := x[..SlashAt(x)], x[SlashAt(x) + 1..];
    SlashIsThere(x);
    SlashAfterBlanks(l, x);
    AddressAfterBlanks(l, address);
    assert l + x == l + address + "/" + tail;
    RangeOfParts(address, tail);
    RangeOfParts(l + address, tail);
  }

  lemma RangeBeforeBlanks(x: string, r: string)
    requires Blank(r) && SlashAt(x) < |x|
    ensures RangeOf(x + r) == RangeOf(x) && SlashAt(x + r) == SlashAt(x)
  {
    hide Atoi, SlashAt;
    var n := SlashAt(x);
    SlashBeforeBlanks(x, r);
    LengthBeforeBlanks(x[n + 1..], r);
    assert (x + r)[..n] == x[..n];
    assert (x + r)[n + 1..] == x[n + 1..] + r;
  }

  lemma RangeBetweenBlanks(l: string, m: string, r: string)
    requires Blank(l) && Blank(r) && Trimmed(l + m + r) == m
    ensures Alike(RangeOf(l + m + r), RangeOf(m))
  {
    hide Trimmed, SlashAt, Blank;
    assert l + m + r == l + (m + r);
    if SlashAt(m) < |m| {
      hide RangeOf;
      RangeBeforeBlanks(m, r);
      RangeAfterBlanks(l, m + r);
    } else {
      SlashAfterBlanks(l, m + r);
      SlashBeforeBlanks(m, r);
      TrimmedIsPart(l + m + r, ' ');
    }
  }

  lemma TrimmedBetweenBlanks(t: string) returns (l: string, r: string)
    ensures Blank(l) && Blank(r) && t == l + Trimmed(t) + r
  {
    hide TrimmedLeft, TrimmedRight;
    var u := TrimmedLeft(t);
    var m := TrimmedRight(u);
    l, r := t[..|t| - |u|], u[|m|..];
    assert u == m + r && t == l + u;
  }

  lemma AlikeCovers(a: Addressing, x: Range, y: Range, d: nat)
    requires Alike(x, y)
    ensures Covers(a, x, d) <==> Covers(a, y, d)
  {
    hide Trimmed, Pow2;
  }

  lemma TrimmingKeepsMeaning(a: Addressing, t: string, d: nat)
    ensures Covers(a, RangeOf(Trimmed(t)), d) <==> Covers(a, RangeOf(t), d)
  {
    hide RangeOf, Covers, Alike, Trimmed;
    var l, r := TrimmedBetweenBlanks(t);
    RangeBetweenBlanks(l, Trimmed(t), r);
    AlikeCovers(a, RangeOf(t), RangeOf(Trimmed(t)), d);
  }

  lemma {:induction false} BlanklessMeans(a: Addressing, sites: seq<string>, d: nat)
    ensures InAny(a, Blankless(sites), d) <==> InAny(a, sites, d)
  {
    hide InAny, Covers, Trimmed, RangeOf;
    if sites != [] {
      var init, last := sites[..|sites| - 1], sites[|sites| - 1];
      var t := Trimmed(last);
      BlanklessMeans(a, init, d);
      assert sites == init + [last];
      InAnySum(a, init, [last], d);
      InAnySum(a, Blankless(init), if t == "" then [] else [t], d);
      TrimmedMeans(a, last, d);
    }
  }

  lemma TrimmedMeans(a: Addressing, t: string, d: nat)
    ensures InAny(a, [Trimmed(t)], d) <==> InAny(a, [t], d)
    ensures Trimmed(t) == "" ==> !InAny(a, [t], d)
  {
    TrimmingKeepsMeaning(a, t, d);
    assert Trimmed(t) in [Trimmed(t)] && t in [t];
  }

  // ---------- what the lists do ----------

  lemma DefaultCoversAll(a: Addressing, d: nat)
    requires a.value("0.0.0.0") == 0 && d < 0x1_0000_0000
    ensures InAnyRange(a, DefaultRanges, d)
  {
    hide Pow2, Trimmed;
    Pow2Of32();
    ZeroText();
    assert Covers(a, DefaultRanges[0], d);
  }

  lemma ZeroText()
    ensures Trimmed("0.0.0.0") == "0.0.0.0"
  {
    assert TrimmedLeft("0.0.0.0") == "0.0.0.0";
    assert TrimmedRight("0.0.0.0") == "0.0.0.0";
  }

  lemma Pow2Of32()
    ensures Pow2(32) == 0x1_0000_0000
  {
    assert Pow2(8) == 256;
    assert Pow2(16) == 65536;
    assert Pow2(24) == 0x100_0000;
  }

  lemma RangesCover(a: Addressing, sites: seq<string>, d: nat)
    ensures InAnyRange(a, Ranges(sites), d) <==> InAny(a, sites, d)
  {
    hide Covers, RangeOf;
    var r := Ranges(sites);
    if InAnyRange(a, r, d) {
      var i :| 0 <= i < |r| && Covers(a, r[i], d);
      assert sites[i] in sites && Covers(a, RangeOf(sites[i]), d);
    }
    if InAny(a, sites, d) {
      var t :| t in sites && Covers(a, RangeOf(t), d);
      var i :| 0 <= i < |sites| && sites[i] == t;
      assert Covers(a, r[i], d);
    }
  }

  lemma InAnySum(a: Addressing, x: seq<string>, y: seq<string>, d: nat)
    ensures InAny(a, x + y, d) <==> InAny(a, x, d) || InAny(a, y, d)
    ensures InAny(a, Distinct(x), d) <==> InAny(a, x, d)
    ensures !InAny(a, [], d)
  {
    hide Covers, RangeOf, Distinct;
    assert forall t :: t in x + y <==> t in x || t in y;
  }

  /** The plan's sites, by membership. */
  lemma PlanSites(a: Addressing, c: Choice, d: nat)
    ensures var plan := PlanFor(a, c);
      && (plan.mode.VpnOnlyForwardSites? ==>
            (InAny(a, plan.sites, d) <==>
               InAny(a, Sites(a, c.rules), d) || (c.amneziaDns && InAny(a, DnsPair(c), d))))
      && (plan.mode.VpnAllExceptSites? ==>
            (InAny(a, plan.sites, d) <==>
               (c.enabled && InAny(a, Sites(a, c.rules), d)) || (!c.amneziaDns && InAny(a, DnsPair(c), d))))
  {
    hide InAny;
    var sites := if c.enabled then Distinct(Sites(a, c.rules)) else [];
    InAnySum(a, Sites(a, c.rules), [], d);
    InAnySum(a, sites, DnsPair(c), d);
  }

  /** What the two lists do, read off the plan. */
  lemma ListsRoute(a: Addressing, plan: Plan, server: string, learned: seq<string>, d: nat)
    requires a.value("0.0.0.0") == 0 && d < 0x1_0000_0000
    ensures Inside(a, ListsFor(plan, server), learned, d) <==>
      && !InAny(a, [server], d) && !InAny(a, learned, d)
      && (plan.mode.VpnOnlyForwardSites? ==> InAny(a, plan.sites, d))
      && (plan.mode.VpnAllExceptSites? ==> !InAny(a, plan.sites, d))
  {
    hide InAny, InAnyRange, Trimmed, Ranges, Blankless;
    TrimmedMeans(a, server, d);
    BlanklessMeans(a, plan.sites, d);
    InAnySum(a, [Trimmed(server)], Blankless(plan.sites), d);
    RangesCover(a, plan.sites, d);
    DefaultCoversAll(a, d);
    assert [Trimmed(server)] + [] == [Trimmed(server)];
  }

  /** For every site list, mode, pair of DNS servers and set of learned routes, an IPv4 destination is
      routed as the choice says, except for exactly the stray ones. */
  lemma MeaningIsPreserved(a: Addressing, c: Choice, learned: seq<string>, d: nat)
    requires a.value("0.0.0.0") == 0 && d < 0x1_0000_0000
    ensures Inside(a, ListsFor(PlanFor(a, c), c.server), learned, d) == Wanted(a, c, learned, d)
            <==> !Stray(a, c, learned, d)
  {
    hide InAny, Inside, ListsFor;
    ListsRoute(a, PlanFor(a, c), c.server, learned, d);
    PlanSites(a, c, d);
    InAnySum(a, Sites(a, []), [], d);
  }

  /** When only listed sites are forwarded, a destination of a listed host is inside until the daemon
      resolves the host, and outside from then on. */
  lemma ResolvedHostLeaves(a: Addressing, c: Choice, learned: seq<string>, d: nat)
    requires a.value("0.0.0.0") == 0 && d < 0x1_0000_0000
    requires EffectiveMode(a, c).VpnOnlyForwardSites? && InAny(a, Sites(a, c.rules), d) && !InAny(a, [c.server], d)
    ensures var lists := ListsFor(PlanFor(a, c), c.server);
      && Inside(a, lists, [], d)
      && (Inside(a, lists, learned, d) <==> !InAny(a, learned, d))
      && Wanted(a, c, learned, d)
  {
    hide InAny, Inside, ListsFor;
    ListsRoute(a, PlanFor(a, c), c.server, [], d);
    ListsRoute(a, PlanFor(a, c), c.server, learned, d);
    PlanSites(a, c, d);
    InAnySum(a, Sites(a, []), [], d);
  }

  /** The server is always reached outside the tunnel; DNS servers are outside when they are not
      Amnezia's and the mode is not forward-only, and inside when they are and it is, until an answer
      names them. */
  lemma ServersAreRouted(a: Addressing, c: Choice, learned: seq<string>, d: nat)
    requires a.value("0.0.0.0") == 0 && d < 0x1_0000_0000
    ensures var inside := Inside(a, ListsFor(PlanFor(a, c), c.server), learned, d);
            var dns := InAny(a, DnsPair(c), d);
            var forward := EffectiveMode(a, c).VpnOnlyForwardSites?;
      && (InAny(a, [c.server], d) ==> !inside)
      && (dns && !c.amneziaDns && !forward ==> !inside)
      && (dns && c.amneziaDns && forward && !InAny(a, [c.server], d) ==> (inside <==> !InAny(a, learned, d)))
  {
    hide InAny, Inside, ListsFor;
    ListsRoute(a, PlanFor(a, c), c.server, learned, d);
    PlanSites(a, c, d);
  }

  // ---------- concrete stray destinations ----------

  const SITE := "198.51.100.7"
  const SERVER := "203.0.113.1"

  /** An addressing that knows the two addresses above. */
  predicate Knows(a: Addressing) {
    a.value("0.0.0.0") == 0 && a.wellFormed(SITE) && a.value(SITE) == 0xC6336407 && a.value(SERVER) == 0xCB007101
  }

  lemma {:induction false} NoSlash(t: string)
    requires '/' !in t
    ensures SlashAt(t) == |t|
  {
    if t != "" { NoSlash(t[1..]); }
  }

  lemma SingleAddress(a: Addressing, t: string, d: nat)
    requires '/' !in t && t != "" && Trimmed(t) == t
    ensures InAny(a, [t], d) <==> d == a.value(t)
  {
    NoSlash(t);
    assert t in [t] && Pow2(0) == 1;
  }

  function ForwardedHost(): Choice {
    Choice(true, VpnOnlyForwardSites, [Host("example.org", false, [SITE])], false, "", "", SERVER)
  }

  function ListedSite(): Choice { Choice(true, VpnAllSites, [Subnet(SITE)], false, "", "", SERVER) }

  lemma WitnessSites(a: Addressing)
    requires a.wellFormed(SITE)
    ensures Sites(a, ForwardedHost().rules) == [SITE] && Sites(a, ListedSite().rules) == [SITE]
  {
    var host, site := ForwardedHost().rules, ListedSite().rules;
    assert [SITE][..0] == [] && WellFormedOnly(a, [SITE]) == [SITE];
    assert host[..0] == [] && site[..0] == [] && Sites(a, []) == [];
    assert RuleSites(a, host[0]) == [SITE] && RuleSites(a, site[0]) == [SITE];
  }

  lemma WitnessAddresses(a: Addressing)
    requires Knows(a)
    ensures InAny(a, [SITE], 0xC6336407) && !InAny(a, [SERVER], 0xC6336407) && !InAny(a, ["", ""], 0xC6336407)
  {
    hide InAny, Trimmed;
    assert Trimmed(SITE) == SITE && Trimmed(SERVER) == SERVER by { WitnessTexts(); }
    assert '/' !in SITE && '/' !in SERVER;
    SingleAddress(a, SITE, 0xC6336407);
    SingleAddress(a, SERVER, 0xC6336407);
    NoDns(a, 0xC6336407);
  }

  lemma WitnessTexts()
    ensures Trimmed(SITE) == SITE && Trimmed(SERVER) == SERVER
  {
  }

  /** One forwarded host with its stored address: inside at first, outside once resolved. */
  lemma ForwardedHostStrays(a: Addressing)
    requires Knows(a)
    ensures var c := ForwardedHost();
            var lists := ListsFor(PlanFor(a, c), c.server);
      && Inside(a, lists, [], 0xC6336407) && !Inside(a, lists, [SITE], 0xC6336407)
      && Wanted(a, c, [SITE], 0xC6336407)
  {
    hide InAny, Inside, ListsFor, Wanted, PlanFor, Sites;
    WitnessSites(a);
    WitnessAddresses(a);
    ResolvedHostLeaves(a, ForwardedHost(), [SITE], 0xC6336407);
  }

  /** One subnet listed under "all sites", with DNS servers that are not Amnezia's: wanted inside, but
      excluded. */
  lemma ListedSiteStrays(a: Addressing)
    requires Knows(a)
    ensures var c := ListedSite();
      && !Inside(a, ListsFor(PlanFor(a, c), c.server), [], 0xC6336407)
      && Wanted(a, c, [], 0xC6336407)
  {
    hide InAny, Inside, ListsFor, PlanFor, Sites, Hosts;
    WitnessSites(a);
    WitnessAddresses(a);
    MeaningIsPreserved(a, ListedSite(), [], 0xC6336407);
  }

  /** Empty DNS servers denote no address. */
  lemma NoDns(a: Addressing, d: nat)
    ensures !InAny(a, ["", ""], d)
  {
    hide Covers;
    TrimmedMeans(a, "", d);
    assert forall t :: t in ["", ""] ==> t in [""];
  }

  // ---------- the plan, by the texts it lists ----------

  /** The rule contributes this address. */
  predicate Gives(a: Addressing, rule: Rule, t: string) {
    (rule.Subnet? && rule.text == t) || (rule.Host? && t in rule.ips && a.wellFormed(t))
  }

  lemma {:induction false} WellFormedMembers(a: Addressing, ips: seq<string>, t: string)
    ensures t in WellFormedOnly(a, ips) <==> t in ips && a.wellFormed(t)
  {
    if ips != [] {
      WellFormedMembers(a, ips[..|ips| - 1], t);
      assert ips == ips[..|ips| - 1] + [ips[|ips| - 1]];
    }
  }

  lemma {:induction false} SiteMembers(a: Addressing, rules: seq<Rule>, t: string)
    ensures t in Sites(a, rules) <==> exists rule :: rule in rules && Gives(a, rule, t)
  {
    if rules != [] {
      var init, last := rules[..|rules| - 1], rules[|rules| - 1];
      SiteMembers(a, init, t);
      assert rules == init + [last];
      assert t in RuleSites(a, last) <==> Gives(a, last, t) by {
        if last.Host? { WellFormedMembers(a, last.ips, t); }
      }
    }
  }

  lemma {:induction false} HostMembers(rules: seq<Rule>, t: string)
    ensures t in Hosts(rules) <==> exists rule :: rule in rules && rule.Host? && rule.text == t
  {
    if rules != [] {
      HostMembers(rules[..|rules| - 1], t);
      assert rules == rules[..|rules| - 1] + [rules[|rules| - 1]];
    }
  }

  lemma {:induction false} AnyRuleCounts(a: Addressing, rules: seq<Rule>)
    ensures (Sites(a, rules) != [] || Hosts(rules) != []) <==> exists rule :: rule in rules && !rule.Malformed?
  {
    if rules != [] {
      var init, last := rules[..|rules| - 1], rules[|rules| - 1];
      AnyRuleCounts(a, init);
      assert rules == init + [last];
    }
  }

  /** The plan for every choice: its mode, its sites and its DNS rules. The chosen mode is in force if splitting is
      on and some rule is well formed; DNS servers that are not Amnezia's are excluded, which needs a mode that
      excludes; Amnezia's are forwarded along with the sites. */
  lemma PlanTexts(a: Addressing, c: Choice, t: string)
    ensures var plan := PlanFor(a, c);
            var split := c.enabled && exists rule :: rule in c.rules && !rule.Malformed?;
            var forward := split && c.mode.VpnOnlyForwardSites?;
      && plan.mode == (if forward then VpnOnlyForwardSites
                       else if !c.amneziaDns then VpnAllExceptSites
                       else if split then c.mode else VpnAllSites)
      && (t in plan.sites <==>
            || (c.enabled && exists rule :: rule in c.rules && Gives(a, rule, t))
            || (c.amneziaDns == forward && (t == c.dns1 || t == c.dns2)))
      && (t in plan.dnsRules <==> c.enabled && exists rule :: rule in c.rules && rule.Host? && rule.text == t)
  {
    hide Sites, Hosts, Gives;
    AnyRuleCounts(a, c.rules);
    SiteMembers(a, c.rules, t);
    HostMembers(c.rules, t);
  }

  /** The IPv6 default route is in the tunnel unless only listed sites are. */
  lemma DefaultRoutes(plan: Plan, server: string)
    ensures var allowed := ListsFor(plan, server).allowed;
      && (Range("::", 0, true) in allowed <==> !plan.mode.VpnOnlyForwardSites?)
      && (!plan.mode.VpnOnlyForwardSites? ==> Range("0.0.0.0", 0, false) in allowed && |allowed| == 2)
  {
    hide RangeOf;
    if plan.mode.VpnOnlyForwardSites? { RangesAreV4(plan.sites); }
  }

  lemma RangesAreV4(sites: seq<string>)
    ensures Range("::", 0, true) !in Ranges(sites)
  {
  }

  // ---------- reading a subnet ----------

  const DIGITS := "0123456789"

  /** A number in decimal. */
  function Decimal(n: nat): string {
    if n < 10 then [DIGITS[n]] else Decimal(n / 10) + [DIGITS[n % 10]]
  }

  function Zeros(k: nat): string { if k == 0 then "" else "0" + Zeros(k - 1) }

  predicate AllDigits(t: string) { forall i :: 0 <= i < |t| ==> '0' <= t[i] <= '9' }

  lemma {:induction false} DigitsAppend(t: string, c: char, acc: int)
    requires AllDigits(t) && '0' <= c <= '9'
    ensures Digits(t + [c], acc) == 10 * Digits(t, acc) + (c - '0') as int
    decreases |t|
  {
    if t == "" {
      assert (t + [c])[1..] == "";
    } else {
      DigitsAppend(t[1..], c, 10 * acc + (t[0] - '0') as int);
      assert (t + [c])[1..] == t[1..] + [c];
    }
  }

  lemma DigitValue(n: nat)
    requires n < 10
    ensures '0' <= DIGITS[n] <= '9' && (DIGITS[n] - '0') as int == n
  {
  }

  lemma {:induction false} DecimalReads(n: nat)
    ensures AllDigits(Decimal(n)) && Decimal(n) != "" && Digits(Decimal(n), 0) == n
  {
    DigitValue(n % 10);
    if n < 10 {
      assert Digits(Decimal(n), 0) == Digits("" + [DIGITS[n]], 0);
      DigitsAppend("", DIGITS[n], 0);
    } else {
      DecimalReads(n / 10);
      DigitsAppend(Decimal(n / 10), DIGITS[n % 10], 0);
    }
  }

  lemma {:induction false} ZerosRead(k: nat, t: string)
    requires AllDigits(t)
    ensures AllDigits(Zeros(k) + t) && Digits(Zeros(k) + t, 0) == Digits(t, 0)
  {
    if k == 0 {
      assert Zeros(k) + t == t;
    } else {
      ZerosRead(k - 1, t);
      var s := Zeros(k) + t;
      assert s == "0" + (Zeros(k - 1) + t);
      ZeroFirst(Zeros(k - 1) + t);
    }
  }

  lemma ZeroFirst(t: string)
    requires AllDigits(t)
    ensures AllDigits("0" + t) && Digits("0" + t, 0) == Digits(t, 0)
  {
    var s := "0" + t;
    assert s[0] == '0' && s[1..] == t;
  }

  lemma AtoiReadsDigits(t: string)
    requires AllDigits(t)
    ensures Atoi(t) == Digits(t, 0)
  {
    if t != "" { assert TrimmedLeft(t) == t; }
  }

  lemma {:induction false} DigitsHaveNoSlash(t: string)
    requires AllDigits(t)
    ensures SlashAt(t) == |t|
  {
    if t != "" { DigitsHaveNoSlash(t[1..]); }
  }

  lemma {:induction false} FirstSlash(address: string, tail: string)
    requires '/' !in address
    ensures SlashAt(address + "/" + tail) == |address|
  {
    var t := address + "/" + tail;
    if address != "" {
      FirstSlash(address[1..], tail);
      assert t[1..] == address[1..] + "/" + tail;
    }
  }

  /** "address/n", with n in decimal and any leading zeros, is the range of length n of that address. */
  lemma SubnetReads(address: string, n: nat, zeros: nat)
    requires '/' !in address
    ensures RangeOf(address + "/" + (Zeros(zeros) + Decimal(n))) == Range(address, n, false)
  {
    hide RangeOf, Atoi, SlashAt, Decimal, Zeros, Digits;
    var tail := Zeros(zeros) + Decimal(n);
    DecimalReads(n);
    ZerosRead(zeros, Decimal(n));
    AtoiReadsDigits(tail);
    DigitsHaveNoSlash(tail);
    FirstSlash(address, tail);
    RangeOfParts(address, tail);
    assert tail[..|tail|] == tail;
  }

  function Signed(sign: char, n: nat): int { if sign == '-' then 0 - n else n }

  /** A sign before the length is read as one, so a negative length covers nothing. */
  lemma SignedReads(address: string, sign: char, n: nat)
    requires '/' !in address && (sign == '-' || sign == '+')
    ensures RangeOf(address + "/" + ([sign] + Decimal(n))) == Range(address, Signed(sign, n), false)
  {
    hide RangeOf, SlashAt, Decimal, Digits, Atoi;
    var tail := [sign] + Decimal(n);
    DecimalReads(n);
    SignedAtoi(sign, Decimal(n));
    FirstSlash(address, tail);
    SignedHasNoSlash(sign, Decimal(n));
    RangeOfParts(address, tail);
    assert tail[..|tail|] == tail;
  }

  lemma SignedAtoi(sign: char, t: string)
    requires sign == '-' || sign == '+'
    ensures Atoi([sign] + t) == if sign == '-' then -Digits(t, 0) else Digits(t, 0)
  {
    hide Digits;
    var s := [sign] + t;
    assert s[0] == sign && s[1..] == t;
    assert TrimmedLeft(s) == s;
  }

  lemma SignedHasNoSlash(sign: char, t: string)
    requires AllDigits(t) && (sign == '-' || sign == '+')
    ensures SlashAt([sign] + t) == |[sign] + t|
  {
    var s := [sign] + t;
    DigitsHaveNoSlash(t);
    assert s[0] == sign && s[1..] == t;
  }

  /** Bit `j` of a number, counted from the lowest. */
  function Bit(x: nat, j: nat): nat { (x / Pow2(j)) % 2 }

  /** The two addresses agree on their first `n` bits. */
  predicate Agree(n: nat, x: nat, y: nat) {
    forall j: nat :: 32 - n <= j < 32 ==> Bit(x, j) == Bit(y, j)
  }

  lemma HalvesOf(x: nat, j: nat)
    ensures x / Pow2(j) == 2 * (x / Pow2(j + 1)) + Bit(x, j)
  {
    var p := Pow2(j);
    assert Pow2(j + 1) == 2 * p;
    HalfOf(x, p);
  }

  lemma HalfOf(x: nat, p: nat)
    requires p > 0
    ensures (x / p) / 2 == x / (2 * p)
  {
    var q := x / (2 * p);
    var r := x - q * (2 * p);
    assert 0 <= r < 2 * p && x == (2 * q) * p + r;
    if r < p {
      QuotientIs(x, p, 2 * q, r);
    } else {
      QuotientIs(x, p, 2 * q + 1, r - p);
    }
  }

  lemma QuotientIs(x: int, p: int, q: int, r: int)
    requires p > 0 && 0 <= r < p && x == q * p + r
    ensures x / p == q
  {
    var z := x / p;
    assert z * p <= x < z * p + p;
    assert q * p <= x < q * p + p;
    if z < q { NextMultiple(p, z, q); }
    if q < z { NextMultiple(p, q, z); }
  }

  lemma NextMultiple(p: int, a: int, b: int)
    requires p > 0 && a < b
    ensures a * p + p <= b * p
  {
    var k := b - a - 1;
    assert b == a + 1 + k;
    assert b * p == a * p + p + k * p;
    ProductIsNatural(k, p);
  }

  lemma ProductIsNatural(k: int, p: int)
    requires k >= 0 && p >= 0
    ensures k * p >= 0
  {
  }

  lemma {:induction false} PrefixIsBits(x: nat, y: nat, n: nat)
    requires n <= 32 && x < 0x1_0000_0000 && y < 0x1_0000_0000
    ensures x / Pow2(32 - n) == y / Pow2(32 - n) <==> Agree(n, x, y)
    decreases n
  {
    hide Pow2, Bit;
    if n == 0 {
      Pow2Of32();
    } else {
      PrefixIsBits(x, y, n - 1);
      HalvesOf(x, 32 - n);
      HalvesOf(y, 32 - n);
      BitsAreSmall(x, 32 - n);
      BitsAreSmall(y, 32 - n);
      if Agree(n, x, y) { assert Bit(x, 32 - n) == Bit(y, 32 - n); }
    }
  }

  lemma BitsAreSmall(x: nat, j: nat)
    ensures 0 <= Bit(x, j) <= 1
  {
  }

  /** A destination is covered by a listed subnet if and only if it agrees with the address on the first n bits. */
  lemma SubnetCovers(a: Addressing, address: string, n: nat, zeros: nat, d: nat)
    requires '/' !in address && address != "" && Trimmed(address) == address && n <= 32
    requires d < 0x1_0000_0000 && a.value(address) < 0x1_0000_0000
    ensures InAny(a, [address + "/" + (Zeros(zeros) + Decimal(n))], d) <==> Agree(n, d, a.value(address))
  {
    hide RangeOf, Trimmed, Pow2, Agree, Decimal, Zeros;
    var t := address + "/" + (Zeros(zeros) + Decimal(n));
    SubnetReads(address, n, zeros);
    PrefixIsBits(d, a.value(address), n);
    assert t in [t];
  }
}
