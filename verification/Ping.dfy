/** Ping statistics: a ring of the last 32 pings indexed by a wrapping 16-bit sequence number. */
module Ping {

  const UINT_MAX := 0xffff_ffff

  datatype Slot = Slot(timestamp: int, latency: int, sequence: nat)

  const Empty := Slot(-1, -1, 0)

  // ---------- which ping a slot belongs to ----------

  /** The latest of `n` pings that went to slot `i`. */
  function LastIn(n: nat, i: nat): (k: nat)
    requires i < 32 && i < n
    ensures k < n && n <= k + 32 && k % 32 == i
  {
    n - 1 - (n - 1 - i) % 32
  }

  /** It is the only one among the last 32. */
  lemma OnlyOneIn(n: nat, i: nat, k: nat)
    requires i < 32 && k < n && n <= k + 32 && k % 32 == i
    ensures i < n && k == LastIn(n, i)
  {
  }

  /** Was sequence number `q` used by one of the last 32 of `n` pings? */
  predicate Recent(n: nat, q: nat) {
    exists k: nat :: k < n && n <= k + 32 && k % 65536 == q
  }

  /** The ring after the pings sent at the times of `log`. */
  predicate Tracks(ring: seq<Slot>, log: seq<int>) {
    && |ring| == 32
    && forall i :: 0 <= i < 32 ==>
         if i < |log| then ring[i].sequence == LastIn(|log|, i) % 65536 && ring[i].timestamp == log[LastIn(|log|, i)]
         else ring[i].sequence == 0 && ring[i].timestamp == -1
  }

  /** 65536 is a multiple of 32, so the slots do not jump when the sequence number wraps. */
  lemma WrapsTogether(n: nat)
    ensures (n % 65536) % 32 == n % 32
    ensures (n % 65536 + 1) % 65536 == (n + 1) % 65536
  {
    var m, r := n / 65536, n % 65536;
    Periodic(r, 2048 * m);
    assert n == r + 32 * (2048 * m);
    assert n + 1 == 65536 * m + (r + 1);
  }

  lemma Periodic(r: nat, j: nat)
    ensures (r + 32 * j) % 32 == r % 32
  {
  }

  lemma NextKeepsOthers(n: nat, i: nat)
    requires i < 32 && i != n % 32
    ensures i < n <==> i < n + 1
    ensures i < n ==> LastIn(n + 1, i) == LastIn(n, i)
  {
    if i < n { OnlyOneIn(n + 1, i, LastIn(n, i)); }
  }

  lemma SendTracks(ring: seq<Slot>, log: seq<int>, now: int)
    requires Tracks(ring, log)
    ensures Tracks(ring[|log| % 32 := Slot(now, -1, |log| % 65536)], log + [now])
  {
    var n := |log|;
    var r := ring[n % 32 := Slot(now, -1, n % 65536)];
    forall i | 0 <= i < 32
      ensures if i < n + 1
              then r[i].sequence == LastIn(n + 1, i) % 65536 && r[i].timestamp == (log + [now])[LastIn(n + 1, i)]
              else r[i].sequence == 0 && r[i].timestamp == -1
    {
      if i == n % 32 {
        OnlyOneIn(n + 1, i, n);
      } else {
        NextKeepsOthers(n, i);
      }
    }
  }

  /** A slot holds sequence number `q` exactly when `q` belongs to one of the last 32 pings, and then
      it holds that ping's send time; 16-bit wrap-around does not matter. */
  lemma SlotMatchesRecent(ring: seq<Slot>, log: seq<int>, q: nat)
    requires Tracks(ring, log) && log != [] && q < 65536
    ensures ring[q % 32].sequence == q <==> Recent(|log|, q)
    ensures Recent(|log|, q) ==> q % 32 < |log| && ring[q % 32].timestamp == log[LastIn(|log|, q % 32)]
                                 && LastIn(|log|, q % 32) % 65536 == q
  {
    var n, i := |log|, q % 32;
    if Recent(n, q) {
      var k: nat :| k < n && n <= k + 32 && k % 65536 == q;
      WrapsTogether(k);
      OnlyOneIn(n, i, k);
    }
  }

  // ---------- averages ----------

  /** The latencies of answered pings. */
  function Answered(ring: seq<Slot>): (ls: seq<int>)
    ensures forall l :: l in ls <==> l >= 0 && exists i :: 0 <= i < |ring| && ring[i].latency == l
  {
    if ring == [] then []
    else
      var init := ring[..|ring| - 1];
      var last := ring[|ring| - 1];
      assert forall i :: 0 <= i < |init| ==> init[i] == ring[i];
      if last.latency < 0 then Answered(init) else Answered(init) + [last.latency]
  }

  function Sum(ls: seq<int>): int {
    if ls == [] then 0 else Sum(ls[..|ls| - 1]) + ls[|ls| - 1]
  }

  /** The rounded average, truncated to an unsigned int; 0 without answers. */
  function Average(ls: seq<int>): int {
    if ls == [] then 0 else ((Sum(ls) + |ls| / 2) / |ls|) % (UINT_MAX + 1)
  }

  /** The largest latency below UINT_MAX, or 0. */
  function Largest(ls: seq<int>): (m: int)
    ensures 0 <= m
    ensures forall l :: l in ls && l < UINT_MAX ==> l <= m
    ensures m != 0 ==> m in ls && m < UINT_MAX
  {
    if ls == [] then 0
    else
      var m := Largest(ls[..|ls| - 1]);
      var l := ls[|ls| - 1];
      assert ls == ls[..|ls| - 1] + [l];
      if l > m && l < UINT_MAX then l else m
  }

  lemma {:induction false} SumBetween(ls: seq<int>, lo: int, hi: int)
    requires forall i :: 0 <= i < |ls| ==> lo <= ls[i] <= hi
    ensures |ls| * lo <= Sum(ls) <= |ls| * hi
  {
    if ls != [] {
      var n := |ls| - 1;
      SumBetween(ls[..n], lo, hi);
      assert n * lo + lo == |ls| * lo && n * hi + hi == |ls| * hi;
    }
  }

  lemma Scaled(n: int, x: int, y: int)
    requires n > 0 && x <= y
    ensures n * x <= n * y
  {
  }

  lemma QuotientBetween(a: int, n: int, lo: int, hi: int)
    requires n > 0 && n * lo <= a < n * hi + n
    ensures lo <= a / n <= hi
  {
    var q := a / n;
    assert n * q <= a < n * (q + 1);
    if q < lo { Scaled(n, q + 1, lo); }
    if q > hi { Scaled(n, hi + 1, q); }
  }

  /** The truncation to unsigned int does nothing while latencies fit. */
  lemma AverageFits(ls: seq<int>, lo: int, hi: int)
    requires ls != [] && 0 <= lo && hi <= UINT_MAX
    requires forall l :: l in ls ==> lo <= l <= hi
    ensures Average(ls) == (Sum(ls) + |ls| / 2) / |ls|
    ensures lo <= Average(ls) <= hi
  {
    assert forall i :: 0 <= i < |ls| ==> ls[i] in ls;
    SumBetween(ls, lo, hi);
    QuotientBetween(Sum(ls) + |ls| / 2, |ls|, lo, hi);
  }

  /** The rounded average lies between the smallest and the largest latency, and is the nearest
      integer to the exact one: off by at most half a unit. */
  lemma AverageBetween(ls: seq<int>, lo: int, hi: int)
    requires ls != [] && 0 <= lo && hi <= UINT_MAX
    requires forall l :: l in ls ==> lo <= l <= hi
    ensures lo <= Average(ls) <= hi
    ensures -|ls| <= 2 * (|ls| * Average(ls) - Sum(ls)) <= |ls|
  {
    hide Average;
    AverageFits(ls, lo, hi);
    NearestQuotient(Sum(ls), |ls|);
  }

  lemma NearestQuotient(t: int, n: int)
    requires n > 0
    ensures -n <= 2 * (n * ((t + n / 2) / n) - t) <= n
  {
    var q := (t + n / 2) / n;
    assert n * q <= t + n / 2 < n * q + n;
  }

  /** While every latency is below UINT_MAX, the average never exceeds the maximum. */
  lemma AverageBelowLargest(ls: seq<int>)
    requires forall l :: l in ls ==> 0 <= l < UINT_MAX
    ensures Average(ls) <= Largest(ls)
  {
    if ls != [] { AverageBetween(ls, 0, Largest(ls)); }
  }

  /** The maximum bounds every latency if and only if all of them are below UINT_MAX. */
  lemma MaximumBoundsIffBelow(ls: seq<int>)
    requires forall l :: l in ls ==> 0 <= l
    ensures (forall l :: l in ls ==> l <= Largest(ls)) <==> (forall l :: l in ls ==> l < UINT_MAX)
  {
    if l :| l in ls && l >= UINT_MAX { assert Largest(ls) < l; }
  }

  /** A latency of exactly UINT_MAX fits in the result of the average but is left out of the maximum. */
  lemma UnboundedLatencyIsLost()
    ensures Average([UINT_MAX]) == UINT_MAX && Largest([UINT_MAX]) == 0
  {
    assert Sum([UINT_MAX]) == UINT_MAX;
  }

  // ---------- the object ----------

  class PingHelper {
    var pingData: array<Slot>
    var sequence: nat
    ghost var log: seq<int> // send times since the statistics were reset

    ghost predicate Valid()
      reads this, pingData
    {
      sequence == |log| % 65536 && pingData.Length == 32 && Tracks(pingData[..], log)
    }

    constructor ()
      ensures Valid() && fresh(pingData) && log == []
    {
      sequence := 0;
      log := [];
      pingData := new Slot[32](_ => Empty);
    }

    /** start(): the statistics are reset. */
    method Start()
      requires pingData.Length == 32
      modifies this, pingData
      ensures Valid() && pingData == old(pingData) && log == []
      ensures Answered(pingData[..]) == []
    {
      sequence := 0;
      log := [];
      for i := 0 to 32
        invariant pingData == old(pingData) && sequence == 0 && log == []
        invariant forall j :: 0 <= j < i ==> pingData[j] == Empty
      {
        pingData[i] := Slot(-1, -1, 0);
      }
      NothingAnswered(pingData[..]);
    }

    /** nextPing(): the sequence number wraps at 16 bits. */
    method NextPing(now: int) returns (sent: nat)
      requires Valid()
      modifies this, pingData
      ensures Valid() && pingData == old(pingData) && log == old(log) + [now]
      ensures sent == |old(log)| % 65536
      ensures pingData[..] == old(pingData[..])[sent % 32 := Slot(now, -1, sent)]
    {
      hide Tracks;
      WrapsTogether(|log|);
      SendTracks(pingData[..], log, now);
      var index := sequence % 32;
      pingData[index] := Slot(now, -1, sequence);
      sent := sequence;
      sequence := (sequence + 1) % 65536;
      log := log + [now];
      assert pingData[..] == old(pingData[..])[index := Slot(now, -1, sent)];
    }

    /** pingReceived(): once a ping has been sent, a reply is accepted exactly when its sequence number
        is among the last 32 sent, and is timed against that ping. */
    method PingReceived(q: nat, now: int) returns (accepted: bool)
      requires Valid() && q < 65536
      modifies pingData
      ensures Valid()
      ensures log != [] ==> (accepted <==> Recent(|log|, q))
      ensures log == [] ==> (accepted <==> q == 0)
      ensures accepted && log != [] ==> q % 32 < |log|
      ensures accepted && log != [] ==> pingData[..] == old(pingData[..])[q % 32 :=
                Slot(log[LastIn(|log|, q % 32)], now - log[LastIn(|log|, q % 32)], q)]
      ensures !accepted ==> pingData[..] == old(pingData[..])
    {
      var index := q % 32;
      if log != [] { SlotMatchesRecent(pingData[..], log, q); }
      accepted := pingData[index].sequence == q;
      if accepted {
        var sendTime := pingData[index].timestamp;
        pingData[index] := pingData[index].(latency := now - sendTime);
      }
    }

    method Latency() returns (average: int)
      requires Valid()
      ensures average == Average(Answered(pingData[..]))
    {
      var recvCount, totalMsec := 0, 0;
      for i := 0 to 32
        invariant recvCount == |Answered(pingData[..i])| && totalMsec == Sum(Answered(pingData[..i]))
      {
        TakesNext(pingData[..], i);
        if pingData[i].latency >= 0 {
          recvCount := recvCount + 1;
          totalMsec := totalMsec + pingData[i].latency;
        }
      }
      assert pingData[..32] == pingData[..];
      if recvCount <= 0 {
        return 0;
      }
      totalMsec := totalMsec + recvCount / 2;
      return (totalMsec / recvCount) % (UINT_MAX + 1);
    }

    method Maximum() returns (maxRtt: int)
      requires Valid()
      ensures maxRtt == Largest(Answered(pingData[..]))
    {
      maxRtt := 0;
      for i := 0 to 32
        invariant maxRtt == Largest(Answered(pingData[..i]))
      {
        TakesNext(pingData[..], i);
        if pingData[i].latency >= 0 {
          if pingData[i].latency > maxRtt && pingData[i].latency < UINT_MAX {
            maxRtt := pingData[i].latency;
          }
        }
      }
      assert pingData[..32] == pingData[..];
    }
  }

  lemma {:induction false} NothingAnswered(ring: seq<Slot>)
    requires forall i :: 0 <= i < |ring| ==> ring[i] == Empty
    ensures Answered(ring) == []
  {
    if ring != [] { NothingAnswered(ring[..|ring| - 1]); }
  }

  lemma TakesNext(ring: seq<Slot>, i: nat)
    requires i < |ring|
    ensures Answered(ring[..i + 1]) ==
            if ring[i].latency < 0 then Answered(ring[..i]) else Answered(ring[..i]) + [ring[i].latency]
    ensures Sum(Answered(ring[..i]) + [ring[i].latency]) == Sum(Answered(ring[..i])) + ring[i].latency
    ensures var m := Largest(Answered(ring[..i]));
      Largest(Answered(ring[..i]) + [ring[i].latency]) ==
        if ring[i].latency > m && ring[i].latency < UINT_MAX then ring[i].latency else m
  {
    assert ring[..i + 1][..i] == ring[..i];
    var ls := Answered(ring[..i]);
    assert (ls + [ring[i].latency])[..|ls|] == ls;
  }
}
