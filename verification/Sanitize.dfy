/** The argument filter for helper processes started with privileges. */
module Sanitize {

  datatype Process = Invalid | OpenVPN | Wireguard | Tun2Socks | CertUtil | PermittedProcessCount

  /** A named argument stands alone or takes a value that a validator accepts. */
  datatype Named = Flag | Valued(accepts: string -> bool)

  datatype Rules = Rules(named: map<string, Named>, positional: seq<string -> bool>)

  datatype Policy = Nothing | Everything | Filtered(rules: Rules)

  predicate StartsWith(text: string, prefix: string) { prefix <= text }

  /** `isPort` is QString::toInt followed by the range test 1..65535. */
  function PolicyFor(proc: Process, isPort: string -> bool): Policy {
    match proc
    case OpenVPN =>
      Filtered(Rules(map["--config" := Valued(v => v != ""),
                         "--management" := Valued(v => v != ""),
                         "--management-client" := Flag],
                     [isPort]))
    case Tun2Socks =>
      Filtered(Rules(map["-device" := Valued(v => StartsWith(v, "tun://")),
                         "-proxy" := Valued(v => StartsWith(v, "socks5://"))],
                     []))
    case CertUtil => Everything
    case _ => Nothing
  }

  /** What is kept of `args` when `pos` positionals have been taken already. */
  function Kept(r: Rules, args: seq<string>, pos: nat): seq<string>
    decreases |args|
  {
    if args == [] then []
    else if args[0] in r.named then
      match r.named[args[0]]
      case Flag => [args[0]] + Kept(r, args[1..], pos)
      case Valued(accepts) =>
        if |args| > 1 && accepts(args[1]) then [args[0], args[1]] + Kept(r, args[2..], pos)
        else Kept(r, args[1..], pos)
    else if pos < |r.positional| && r.positional[pos](args[0]) then [args[0]] + Kept(r, args[1..], pos + 1)
    else Kept(r, args[1..], pos)
  }

  /** Loop invariant: what is kept so far and what will be kept make up the result. */
  predicate Progress(r: Rules, args: seq<string>, out: seq<string>, i: nat, pos: nat)
    requires i <= |args|
  {
    out + Kept(r, args[i..], pos) == Kept(r, args, 0)
  }

  predicate TakesValue(r: Rules, args: seq<string>, i: nat)
    requires i < |args| && args[i] in r.named
  {
    r.named[args[i]].Valued? && i + 1 < |args| && r.named[args[i]].accepts(args[i + 1])
  }

  lemma NamedStep(r: Rules, args: seq<string>, out: seq<string>, i: nat, pos: nat)
    requires i < |args| && args[i] in r.named && Progress(r, args, out, i, pos)
    ensures r.named[args[i]].Flag? ==> Progress(r, args, out + [args[i]], i + 1, pos)
    ensures TakesValue(r, args, i) ==> Progress(r, args, out + [args[i], args[i + 1]], i + 2, pos)
    ensures r.named[args[i]].Valued? && !TakesValue(r, args, i) ==> Progress(r, args, out, i + 1, pos)
  {
    assert args[i..][1..] == args[i + 1..];
    if TakesValue(r, args, i) {
      assert args[i..][2..] == args[i + 2..];
    }
  }

  lemma PositionalStep(r: Rules, args: seq<string>, out: seq<string>, i: nat, pos: nat)
    requires i < |args| && args[i] !in r.named && Progress(r, args, out, i, pos)
    ensures if pos < |r.positional| && r.positional[pos](args[i])
            then Progress(r, args, out + [args[i]], i + 1, pos + 1)
            else Progress(r, args, out, i + 1, pos)
  {
    assert args[i..][1..] == args[i + 1..];
  }

  /** The loop of sanitizeArguments, with the index that skips over accepted values. */
  method Filter(r: Rules, args: seq<string>) returns (sanitized: seq<string>)
    ensures sanitized == Kept(r, args, 0)
  {
    sanitized := [];
    var i, pos := 0, 0;
    assert Progress(r, args, [], 0, 0) by { assert args[0..] == args; }
    while i < |args|
      invariant 0 <= i <= |args| && 0 <= pos
      invariant Progress(r, args, sanitized, i, pos)
    {
      hide Progress, Kept;
      var key := args[i];
      if key in r.named {
        NamedStep(r, args, sanitized, i, pos);
        match r.named[key] {
          case Valued(accepts) =>
            if i + 1 < |args| {
              var value := args[i + 1];
              if accepts(value) {
                sanitized := sanitized + [key, value];
                i := i + 1;
              }
            }
          case Flag =>
            sanitized := sanitized + [key];
        }
      } else {
        PositionalStep(r, args, sanitized, i, pos);
        if pos < |r.positional| {
          if r.positional[pos](key) {
            sanitized := sanitized + [key];
            pos := pos + 1;
          }
        }
      }
      i := i + 1;
    }
  }

  method SanitizeArguments(proc: Process, args: seq<string>, isPort: string -> bool) returns (sanitized: seq<string>)
    ensures sanitized == Sanitized(proc, args, isPort)
  {
    match PolicyFor(proc, isPort) {
      case Everything => sanitized := args;
      case Nothing => sanitized := [];
      case Filtered(rules) => sanitized := Filter(rules, args);
    }
  }

  function Sanitized(proc: Process, args: seq<string>, isPort: string -> bool): seq<string> {
    match PolicyFor(proc, isPort)
    case Everything => args
    case Nothing => []
    case Filtered(rules) => Kept(rules, args, 0)
  }

  // ---------- what an acceptable command line is ----------

  /** Only flags, keys with a valid value, and at most the permitted positionals in their order. */
  predicate Acceptable(r: Rules, args: seq<string>, pos: nat)
    decreases |args|
  {
    args == [] ||
    if args[0] in r.named then
      match r.named[args[0]]
      case Flag => Acceptable(r, args[1..], pos)
      case Valued(accepts) => |args| > 1 && accepts(args[1]) && Acceptable(r, args[2..], pos)
    else
      pos < |r.positional| && r.positional[pos](args[0]) && Acceptable(r, args[1..], pos + 1)
  }

  predicate Subsequence(a: seq<string>, b: seq<string>)
    decreases |b|
  {
    a == [] || (b != [] && ((a[0] == b[0] && Subsequence(a[1..], b[1..])) || Subsequence(a, b[1..])))
  }

  /** The arguments that are neither flags, keys nor values. */
  function Positionals(r: Rules, args: seq<string>): nat
    decreases |args|
  {
    if args == [] then 0
    else if args[0] in r.named then
      if r.named[args[0]].Flag? || |args| == 1 then Positionals(r, args[1..]) else Positionals(r, args[2..])
    else 1 + Positionals(r, args[1..])
  }

  /** Exactly the acceptable command lines pass unchanged. */
  lemma {:induction false} UnchangedIffAcceptable(r: Rules, args: seq<string>, pos: nat)
    ensures Kept(r, args, pos) == args <==> Acceptable(r, args, pos)
    ensures |Kept(r, args, pos)| <= |args|
    decreases |args|
  {
    if args != [] {
      UnchangedIffAcceptable(r, args[1..], pos);
      UnchangedIffAcceptable(r, args[1..], pos + 1);
      if |args| > 1 { UnchangedIffAcceptable(r, args[2..], pos); }
      assert args == [args[0]] + args[1..];
      assert |args| > 1 ==> args == [args[0], args[1]] + args[2..];
    }
  }

  lemma {:induction false} KeptIsAcceptable(r: Rules, args: seq<string>, pos: nat)
    ensures Acceptable(r, Kept(r, args, pos), pos)
    decreases |args|
  {
    if args != [] {
      var out := Kept(r, args, pos);
      if args[0] in r.named {
        match r.named[args[0]]
        case Flag =>
          KeptIsAcceptable(r, args[1..], pos);
          assert out[1..] == Kept(r, args[1..], pos);
        case Valued(accepts) =>
          if |args| > 1 && accepts(args[1]) {
            KeptIsAcceptable(r, args[2..], pos);
            assert out[2..] == Kept(r, args[2..], pos);
          } else {
            KeptIsAcceptable(r, args[1..], pos);
          }
      } else if pos < |r.positional| && r.positional[pos](args[0]) {
        KeptIsAcceptable(r, args[1..], pos + 1);
        assert out[1..] == Kept(r, args[1..], pos + 1);
      } else {
        KeptIsAcceptable(r, args[1..], pos);
      }
    }
  }

  lemma {:induction false} KeptIsSubsequence(r: Rules, args: seq<string>, pos: nat)
    ensures Subsequence(Kept(r, args, pos), args)
    decreases |args|
  {
    if args != [] {
      var out := Kept(r, args, pos);
      KeptIsSubsequence(r, args[1..], pos);
      KeptIsSubsequence(r, args[1..], pos + 1);
      if |args| > 1 {
        KeptIsSubsequence(r, args[2..], pos);
        assert args[1..][1..] == args[2..];
        if out == [args[0], args[1]] + Kept(r, args[2..], pos) {
          assert out[1..][1..] == Kept(r, args[2..], pos);
        }
      }
    }
  }

  lemma {:induction false} AcceptableCounts(r: Rules, args: seq<string>, pos: nat)
    requires Acceptable(r, args, pos) && pos <= |r.positional|
    ensures Positionals(r, args) <= |r.positional| - pos
    decreases |args|
  {
    if args != [] {
      if args[0] !in r.named {
        AcceptableCounts(r, args[1..], pos + 1);
      } else if r.named[args[0]].Flag? {
        AcceptableCounts(r, args[1..], pos);
      } else {
        AcceptableCounts(r, args[2..], pos);
      }
    }
  }

  /** For every process and every command line: part of the input, acceptable, with no more positionals
      than permitted, and stable under a second pass. */
  lemma SanitizingIsSound(proc: Process, args: seq<string>, isPort: string -> bool)
    ensures var out := Sanitized(proc, args, isPort);
      && Subsequence(out, args)
      && Sanitized(proc, out, isPort) == out
      && (var policy := PolicyFor(proc, isPort);
          policy.Filtered? ==>
            && Acceptable(policy.rules, out, 0)
            && Positionals(policy.rules, out) <= |policy.rules.positional|)
  {
    hide PolicyFor;
    match PolicyFor(proc, isPort)
    case Everything => WholeIsSubsequence(args);
    case Nothing =>
    case Filtered(rules) =>
      var out := Kept(rules, args, 0);
      KeptIsSubsequence(rules, args, 0);
      KeptIsAcceptable(rules, args, 0);
      UnchangedIffAcceptable(rules, out, 0);
      AcceptableCounts(rules, out, 0);
  }

  lemma {:induction false} WholeIsSubsequence(args: seq<string>)
    ensures Subsequence(args, args)
  {
    if args != [] { WholeIsSubsequence(args[1..]); }
  }

  // ---------- the processes, by the texts they accept ----------

  /** A command line for OpenVPN: a configuration and a management address with their values, the client flag,
      and one port, in any order. */
  predicate OpenVpnLine(args: seq<string>, isPort: string -> bool, port: bool)
    decreases |args|
  {
    args == [] ||
    if args[0] == "--config" || args[0] == "--management" then
      |args| > 1 && args[1] != "" && OpenVpnLine(args[2..], isPort, port)
    else if args[0] == "--management-client" then OpenVpnLine(args[1..], isPort, port)
    else port && isPort(args[0]) && OpenVpnLine(args[1..], isPort, false)
  }

  /** A command line for tun2socks: devices and proxies. */
  predicate Tun2SocksLine(args: seq<string>)
    decreases |args|
  {
    args == [] ||
    ((args[0] == "-device" || args[0] == "-proxy") && |args| > 1 &&
     (if args[0] == "-device" then "tun://" <= args[1] else "socks5://" <= args[1]) && Tun2SocksLine(args[2..]))
  }

  lemma {:induction false} OpenVpnAccepts(r: Rules, args: seq<string>, isPort: string -> bool, pos: nat)
    requires PolicyFor(OpenVPN, isPort) == Filtered(r) && pos <= 1
    ensures Acceptable(r, args, pos) <==> OpenVpnLine(args, isPort, pos == 0)
    decreases |args|
  {
    if args != [] {
      OpenVpnAccepts(r, args[1..], isPort, pos);
      OpenVpnAccepts(r, args[1..], isPort, 1);
      if |args| > 1 { OpenVpnAccepts(r, args[2..], isPort, pos); }
    }
  }

  lemma {:induction false} Tun2SocksAccepts(r: Rules, args: seq<string>, isPort: string -> bool)
    requires PolicyFor(Tun2Socks, isPort) == Filtered(r)
    ensures Acceptable(r, args, 0) <==> Tun2SocksLine(args)
    decreases |args|
  {
    if |args| > 1 { Tun2SocksAccepts(r, args[2..], isPort); }
  }

  /** For each process: which results there can be, and which command lines pass unchanged. */
  lemma ProcessOutcome(proc: Process, args: seq<string>, isPort: string -> bool)
    ensures var out := Sanitized(proc, args, isPort);
      match proc
      case OpenVPN => OpenVpnLine(out, isPort, true) && (out == args <==> OpenVpnLine(args, isPort, true))
      case Tun2Socks => Tun2SocksLine(out) && (out == args <==> Tun2SocksLine(args))
      case CertUtil => out == args
      case _ => out == []
  {
    if proc.OpenVPN? || proc.Tun2Socks? {
      var r := PolicyFor(proc, isPort).rules;
      var out := Sanitized(proc, args, isPort);
      SanitizingIsSound(proc, args, isPort);
      UnchangedIffAcceptable(r, args, 0);
      hide Kept, Acceptable, OpenVpnLine, Tun2SocksLine, Subsequence;
      if proc.OpenVPN? {
        OpenVpnAccepts(r, args, isPort, 0);
        OpenVpnAccepts(r, out, isPort, 0);
      } else {
        Tun2SocksAccepts(r, args, isPort);
        Tun2SocksAccepts(r, out, isPort);
      }
    }
  }
}
