/** The Internet checksum of PingSender::inetChecksum, with its signed 32-bit accumulator, against
    the one's-complement sum of RFC 1071. */
module Checksum {

  newtype Byte = b: int | 0 <= b < 256

  const WORD := 65536
  const INT_MAX := 0x7fff_ffff

  datatype Order = LittleEndian | BigEndian

  /** The 16-bit word a host of the given byte order reads from two bytes. */
  function Word(order: Order, first: Byte, second: Byte): (w: nat)
    ensures w < WORD
  {
    if order.LittleEndian? then first as int + 256 * second as int
    else 256 * first as int + second as int
  }

  /** The words of a buffer; an odd last byte is followed by a zero byte. */
  function Words(order: Order, data: seq<Byte>): (ws: seq<nat>)
    ensures |ws| == (|data| + 1) / 2
    ensures forall i :: 0 <= i < |ws| ==> ws[i] < WORD
  {
    if |data| == 0 then []
    else if |data| == 1 then [Word(order, data[0], 0)]
    else [Word(order, data[0], data[1])] + Words(order, data[2..])
  }

  function Sum(ws: seq<nat>): nat {
    if ws == [] then 0 else ws[0] + Sum(ws[1..])
  }

  // ---------- RFC 1071 ----------

  /** One's-complement addition: a carry out of the top goes back in at the bottom. */
  function OnesAdd(a: nat, b: nat): (r: nat)
    requires a < WORD && b < WORD
    ensures r < WORD
  {
    if a + b < WORD then a + b else a + b - WORD + 1
  }

  function OnesSum(ws: seq<nat>): (r: nat)
    requires forall i :: 0 <= i < |ws| ==> ws[i] < WORD
    ensures r < WORD
  {
    if ws == [] then 0 else OnesAdd(ws[0], OnesSum(ws[1..]))
  }

  /** The checksum the standard asks for. */
  function Expected(order: Order, data: seq<Byte>): (r: nat)
    ensures r < WORD
  {
    WORD - 1 - OnesSum(Words(order, data))
  }

  // ---------- the representative of a sum ----------

  /** The number in 0..65535 that one's-complement arithmetic makes of `n`: 65535 counts as 0,
      but only 0 itself is represented by 0. */
  function Rep(n: nat): (r: nat)
    ensures r < WORD && r <= n
    ensures r == 0 <==> n == 0
  {
    if n < WORD then n else Rep(n - (WORD - 1))
  }

  lemma {:induction false} RepCarry(n: nat, k: nat)
    requires n > 0
    ensures Rep(n + (WORD - 1) * k) == Rep(n)
    decreases k
  {
    if k > 0 { RepCarry(n, k - 1); }
  }

  lemma {:induction false} RepAdd(a: nat, b: nat)
    requires a < WORD
    ensures Rep(a + b) == OnesAdd(a, Rep(b))
    decreases b
  {
    if b >= WORD {
      RepAdd(a, b - (WORD - 1));
    }
  }

  lemma {:induction false} RepOfSum(ws: seq<nat>)
    requires forall i :: 0 <= i < |ws| ==> ws[i] < WORD
    ensures OnesSum(ws) == Rep(Sum(ws))
  {
    if ws != [] {
      RepOfSum(ws[1..]);
      RepAdd(ws[0], Sum(ws[1..]));
    }
  }

  // ---------- the code ----------

  /** Two's-complement 32-bit wrap-around. */
  function Int32(n: int): (r: int)
    ensures -INT_MAX - 1 <= r <= INT_MAX
    ensures -INT_MAX - 1 <= n <= INT_MAX ==> r == n
    ensures 0 <= n ==> r <= n
  {
    var m := n % 0x1_0000_0000;
    if m <= INT_MAX then m else m - 0x1_0000_0000
  }

  /** Arithmetic shift right by 16, and the low 16 bits. */
  function High(n: int): int { n / 65536 }
  function Low(n: int): (r: nat) ensures r < WORD { n % 65536 }

  /** The two folds and the final complement, truncated to 16 bits. */
  function Folded(sum: int): (answer: nat)
    ensures answer < WORD
  {
    var once := Int32(High(sum) + Low(sum));
    var twice := Int32(once + High(once));
    Low(-twice - 1)
  }

  lemma FoldKeepsRep(sum: nat)
    ensures Rep(sum) == Rep(High(sum) + Low(sum))
  {
    var hi, lo := High(sum), Low(sum);
    assert sum == (hi + lo) + 65535 * hi;
    if sum > 0 { RepCarry(hi + lo, hi); }
  }

  lemma SecondFold(once: nat)
    requires once < 2 * 65535
    ensures Low(-(once + High(once)) - 1) == 65535 - Rep(once)
  {
    assert Rep(once) == if once < 65536 then once else once - 65535;
  }

  /** Two folds are enough for every sum the accumulator can hold. */
  lemma TwoFoldsSuffice(sum: nat)
    requires sum <= INT_MAX
    ensures Folded(sum) == 65535 - Rep(sum)
  {
    hide Rep;
    var once := High(sum) + Low(sum);
    FirstFold(sum);
    FoldKeepsRep(sum);
    SecondFold(once);
    assert Folded(sum) == Low(-(once + High(once)) - 1) by { NoWrap(sum, once); }
  }

  lemma FirstFold(sum: nat)
    requires sum <= INT_MAX
    ensures 0 <= High(sum) + Low(sum) < 2 * 65535
  {
  }

  /** The folds of a sum in range do not overflow themselves. */
  lemma NoWrap(sum: nat, once: nat)
    requires once == High(sum) + Low(sum) && once < 2 * 65535
    ensures Folded(sum) == Low(-(once + High(once)) - 1)
  {
    hide Int32;
    assert 0 <= High(once) <= 1;
  }

  /** The length and the sum of the words fit the signed 32-bit variables. */
  predicate Fits(order: Order, data: seq<Byte>) {
    |data| <= INT_MAX && Sum(Words(order, data)) <= INT_MAX
  }

  /** What is still to be added from offset `w` on. */
  function Rest(order: Order, data: seq<Byte>, w: nat): nat
    requires w <= |data|
  {
    Sum(Words(order, data[w..]))
  }

  lemma RestSteps(order: Order, data: seq<Byte>, w: nat)
    requires w < |data|
    ensures w + 1 < |data| ==> Rest(order, data, w) == Word(order, data[w], data[w + 1]) + Rest(order, data, w + 2)
    ensures w + 1 == |data| ==> Rest(order, data, w) == Word(order, data[w], 0)
  {
    if w + 1 < |data| {
      assert data[w..][2..] == data[w + 2..];
    } else {
      assert Sum(Words(order, data[w..])[1..]) == 0;
    }
  }

  lemma RestEnds(order: Order, data: seq<Byte>)
    ensures Rest(order, data, 0) == Sum(Words(order, data)) && Rest(order, data, |data|) == 0
  {
    assert data[0..] == data;
  }

  // ---------- the exact range ----------

  lemma WrapOnce(n: int, x: int)
    ensures Int32(Int32(n) + x) == Int32(n + x)
  {
  }

  lemma {:induction false} RepMod(n: nat)
    ensures (n - Rep(n)) % 65535 == 0
    decreases n
  {
    if n >= WORD {
      RepMod(n - 65535);
      assert (n - Rep(n)) == (n - 65535 - Rep(n)) + 65535;
    }
  }

  /** On negative sums, too, the folds complement a number congruent to the sum. */
  lemma FoldedMod(sum: int)
    requires -INT_MAX - 1 <= sum <= INT_MAX
    ensures (sum - (65535 - Folded(sum))) % 65535 == 0
  {
    var hi, lo := High(sum), Low(sum);
    assert sum == 65536 * hi + lo;
    var once := hi + lo;
    assert -32768 <= once <= 32767 + 65535;
    var carry := High(once);
    assert -1 <= carry <= 1;
    assert Folded(sum) == Low(-(once + carry) - 1) == 65535 + 65536 * carry - once - carry;
    assert sum - (65535 - Folded(sum)) == 65535 * (hi + carry);
    Multiple(hi + carry);
  }

  lemma Multiple(k: int)
    ensures (65535 * k) % 65535 == 0
  {
  }

  /** A wrapped sum is the true one less k times 2^32, and 2^32 leaves 1 modulo 65535; fewer wraps than
      65535 therefore always show in the answer. */
  lemma WrappedSumIsNoticed(total: nat)
    requires INT_MAX < total <= 65535 * 0x4000_0000
    ensures Folded(Int32(total)) != 65535 - Rep(total)
  {
    hide Int32, Folded, Rep;
    var sum := Int32(total);
    var k := Wraps(total);
    FoldedMod(sum);
    RepMod(total);
    if Folded(sum) == 65535 - Rep(total) {
      NotBoth(total - Rep(total), sum - Rep(total), k);
    }
  }

  lemma Wraps(total: nat) returns (k: int)
    requires INT_MAX < total <= 65535 * 0x4000_0000
    ensures total == Int32(total) + 0x1_0000_0000 * k && 1 <= k <= 16384
  {
    k := (total - Int32(total)) / 0x1_0000_0000;
  }

  lemma NotBoth(x: int, y: int, k: int)
    requires x == y + 0x1_0000_0000 * k && 1 <= k <= 16384
    requires x % 65535 == 0
    ensures y % 65535 != 0
  {
  }

  /** What the code answers for a buffer whose length fits an int, signed overflow wrapping around. */
  function Computed(order: Order, data: seq<Byte>): (r: nat)
    ensures r < WORD
  {
    Folded(Int32(Sum(Words(order, data))))
  }

  /** The code answers what the standard asks for if and only if the plain sum of the words fits an int. */
  lemma RightIffItFits(order: Order, data: seq<Byte>)
    requires |data| <= INT_MAX
    ensures Computed(order, data) == Expected(order, data) <==> Sum(Words(order, data)) <= INT_MAX
  {
    hide Folded, Rep, Int32, Words, Sum, OnesSum;
    var ws := Words(order, data);
    RepOfSum(ws);
    SumIsBounded(ws);
    if Sum(ws) <= INT_MAX { TwoFoldsSuffice(Sum(ws)); } else { WrappedSumIsNoticed(Sum(ws)); }
  }

  method InetChecksum(order: Order, data: seq<Byte>) returns (answer: nat)
    ensures answer < WORD
    ensures |data| <= INT_MAX ==> (answer == Expected(order, data) <==> Sum(Words(order, data)) <= INT_MAX)
    ensures |data| <= INT_MAX ==> answer == Computed(order, data)
  {
    hide Int32, Folded, Word, Words, Sum, Rest, Expected;
    var nleft := Int32(|data|);
    var sum := 0;
    var w := 0;
    ghost var total := Sum(Words(order, data));
    RestEnds(order, data);
    while nleft > 1
      invariant nleft <= INT_MAX && 0 <= w && w + nleft <= |data| && w <= |data|
      invariant -INT_MAX - 1 <= sum <= INT_MAX
      invariant |data| <= INT_MAX ==> 0 <= nleft && w + nleft == |data|
      invariant |data| <= INT_MAX ==> sum == Int32(total - Rest(order, data, w))
    {
      RestSteps(order, data, w);
      WrapOnce(total - Rest(order, data, w), Word(order, data[w], data[w + 1]));
      sum := Int32(sum + Word(order, data[w], data[w + 1]));
      w := w + 2;
      nleft := nleft - 2;
    }
    if nleft == 1 {
      RestSteps(order, data, w);
      WrapOnce(total - Rest(order, data, w), Word(order, data[w], 0));
      sum := Int32(sum + Word(order, data[w], 0));
    }
    answer := Folded(sum);
    if |data| <= INT_MAX {
      assert sum == Int32(total);
      RightIffItFits(order, data);
    }
  }

  // ---------- the length bound ----------

  lemma {:induction false} SumIsBounded(ws: seq<nat>)
    requires forall i :: 0 <= i < |ws| ==> ws[i] < WORD
    ensures Sum(ws) <= 65535 * |ws|
  {
    if ws != [] { SumIsBounded(ws[1..]); }
  }

  /** Up to 65536 bytes the accumulator cannot overflow. */
  lemma ShortBuffersFit(order: Order, data: seq<Byte>)
    requires |data| <= 65536
    ensures Fits(order, data)
  {
    SumIsBounded(Words(order, data));
  }

  lemma {:induction false} SumOfOnes(order: Order, data: seq<Byte>)
    requires |data| % 2 == 0 && forall i :: 0 <= i < |data| ==> data[i] == 255
    ensures Sum(Words(order, data)) == 65535 * (|data| / 2)
  {
    if data != [] { SumOfOnes(order, data[2..]); }
  }

  /** Two bytes more are too many, whatever the byte order: the answer is wrong. */
  lemma LongBuffersOverflow(order: Order, data: seq<Byte>)
    requires |data| == 65538 && forall i :: 0 <= i < |data| ==> data[i] == 255
    ensures !Fits(order, data) && Computed(order, data) != Expected(order, data)
  {
    hide Computed, Expected;
    SumOfOnes(order, data);
    RightIffItFits(order, data);
  }

  // ---------- verification of a received buffer ----------

  /** The bytes that read as the word `w`. */
  function Bytes(order: Order, w: nat): (bs: (Byte, Byte))
    requires w < WORD
    ensures Word(order, bs.0, bs.1) == w
  {
    if order.LittleEndian? then ((w % 256) as Byte, (w / 256) as Byte)
    else ((w / 256) as Byte, (w % 256) as Byte)
  }

  /** `data` with the word at byte offset 2k replaced by `w`. */
  function Patched(order: Order, data: seq<Byte>, k: nat, w: nat): (r: seq<Byte>)
    requires 2 * k + 1 < |data| && w < WORD
    ensures |r| == |data|
  {
    data[2 * k := Bytes(order, w).0][2 * k + 1 := Bytes(order, w).1]
  }

  lemma {:induction false} PatchedSum(order: Order, data: seq<Byte>, k: nat, w: nat)
    requires 2 * k + 1 < |data| && w < WORD
    requires data[2 * k] == 0 && data[2 * k + 1] == 0
    ensures Sum(Words(order, Patched(order, data, k, w))) == Sum(Words(order, data)) + w
    decreases k
  {
    var p := Patched(order, data, k, w);
    if k == 0 {
      assert p[2..] == data[2..];
    } else {
      PatchedSum(order, data[2..], k - 1, w);
      assert p[2..] == Patched(order, data[2..], k - 1, w);
    }
  }

  /** Section 1 of RFC 1071: with the checksum in its zeroed field, the buffer checks to zero. */
  lemma ChecksumVerifies(order: Order, data: seq<Byte>, k: nat)
    requires 2 * k + 1 < |data| && data[2 * k] == 0 && data[2 * k + 1] == 0
    ensures Expected(order, Patched(order, data, k, Expected(order, data))) == 0
    ensures |data| <= 65536 ==> Computed(order, Patched(order, data, k, Computed(order, data))) == 0
  {
    hide Computed, Expected;
    ExpectedVerifies(order, data, k);
    if |data| <= 65536 {
      ShortBuffersAreRight(order, data);
      ShortBuffersAreRight(order, Patched(order, data, k, Expected(order, data)));
    }
  }

  lemma ShortBuffersAreRight(order: Order, data: seq<Byte>)
    requires |data| <= 65536
    ensures Computed(order, data) == Expected(order, data)
  {
    hide Computed, Expected;
    ShortBuffersFit(order, data);
    RightIffItFits(order, data);
  }

  lemma ExpectedVerifies(order: Order, data: seq<Byte>, k: nat)
    requires 2 * k + 1 < |data| && data[2 * k] == 0 && data[2 * k + 1] == 0
    ensures Expected(order, Patched(order, data, k, Expected(order, data))) == 0
  {
    var w := Expected(order, data);
    var p := Patched(order, data, k, w);
    var n := Sum(Words(order, data));
    PatchedSum(order, data, k, w);
    RepOfSum(Words(order, data));
    RepOfSum(Words(order, p));
    assert Rep(n + 65535 - Rep(n)) == 65535 by { RepAddsToOnes(n); }
  }

  lemma {:induction false} RepAddsToOnes(n: nat)
    ensures Rep(n + 65535 - Rep(n)) == 65535
    decreases n
  {
    if n >= WORD { RepAddsToOnes(n - 65535); }
  }

  // ---------- byte order independence ----------

  function Swap(w: nat): (r: nat)
    requires w < WORD
    ensures r < WORD
  {
    256 * (w % 256) + w / 256
  }

  lemma SwapOf(high: nat, low: nat)
    requires high < 256 && low < 256
    ensures Swap(256 * high + low) == 256 * low + high
  {
  }

  lemma SwapAdds(a1: nat, a0: nat, b1: nat, b0: nat)
    requires a1 < 256 && a0 < 256 && b1 < 256 && b0 < 256
    ensures Swap(OnesAdd(256 * a1 + a0, 256 * b1 + b0)) == OnesAdd(256 * a0 + a1, 256 * b0 + b1)
  {
    var s1, s0 := a1 + b1, a0 + b0;
    if s0 < 256 && s1 < 256 { SwapOf(s1, s0); }
    else if s0 < 256 { if s0 == 255 { SwapOf(s1 - 255, 0); } else { SwapOf(s1 - 256, s0 + 1); } }
    else if s1 < 255 { SwapOf(s1 + 1, s0 - 256); }
    else { SwapOf(s1 - 255, s0 - 255); }
  }

  function Swapped(ws: seq<nat>): (r: seq<nat>)
    requires forall i :: 0 <= i < |ws| ==> ws[i] < WORD
    ensures |r| == |ws| && forall i :: 0 <= i < |r| ==> r[i] < WORD
  {
    if ws == [] then [] else [Swap(ws[0])] + Swapped(ws[1..])
  }

  lemma {:induction false} SwappedSum(ws: seq<nat>)
    requires forall i :: 0 <= i < |ws| ==> ws[i] < WORD
    ensures OnesSum(Swapped(ws)) == Swap(OnesSum(ws))
  {
    if ws != [] {
      hide Swap, OnesAdd;
      SwappedSum(ws[1..]);
      SwapsAddUp(ws[0], OnesSum(ws[1..]));
      assert Swapped(ws)[1..] == Swapped(ws[1..]);
    }
  }

  lemma SwapsAddUp(a: nat, b: nat)
    requires a < WORD && b < WORD
    ensures OnesAdd(Swap(a), Swap(b)) == Swap(OnesAdd(a, b))
  {
    hide OnesAdd;
    SwapAdds(a / 256, a % 256, b / 256, b % 256);
  }

  lemma {:induction false} OtherOrder(data: seq<Byte>)
    ensures Words(BigEndian, data) == Swapped(Words(LittleEndian, data))
  {
    hide Word, Swap;
    if |data| == 1 {
      WordSwaps(LittleEndian, data[0], 0);
    } else if |data| >= 2 {
      WordSwaps(LittleEndian, data[0], data[1]);
      OtherOrder(data[2..]);
      assert Words(LittleEndian, data)[1..] == Words(LittleEndian, data[2..]);
    }
  }

  /** Section 2(B) of RFC 1071: hosts of either byte order compute the same bytes. */
  lemma ByteOrderIndependence(data: seq<Byte>)
    ensures Expected(BigEndian, data) == Swap(Expected(LittleEndian, data))
    ensures |data| <= 65536 ==> Computed(BigEndian, data) == Swap(Computed(LittleEndian, data))
  {
    hide Computed, Swap;
    if |data| <= 65536 {
      ShortBuffersAreRight(BigEndian, data);
      ShortBuffersAreRight(LittleEndian, data);
    }
    OtherOrder(data);
    SwappedSum(Words(LittleEndian, data));
    SwapComplements(OnesSum(Words(LittleEndian, data)));
  }

  lemma SwapComplements(w: nat)
    requires w < WORD
    ensures Swap(65535 - w) == 65535 - Swap(w)
  {
    var high, low := w / 256, w % 256;
    SwapOf(255 - high, 255 - low);
  }

  /** A buffer with the bytes of every word exchanged. */
  function SwapBytes(data: seq<Byte>): (r: seq<Byte>)
    requires |data| % 2 == 0
    ensures |r| == |data|
  {
    if data == [] then [] else [data[1], data[0]] + SwapBytes(data[2..])
  }

  lemma WordSwaps(order: Order, first: Byte, second: Byte)
    ensures Word(order, second, first) == Swap(Word(order, first, second))
    ensures Word(BigEndian, first, second) == Swap(Word(LittleEndian, first, second))
  {
    SwapOf(first as int, second as int);
    SwapOf(second as int, first as int);
  }

  lemma {:induction false} SwappedWords(order: Order, data: seq<Byte>)
    requires |data| % 2 == 0
    ensures Words(order, SwapBytes(data)) == Swapped(Words(order, data))
  {
    hide Word, Swap;
    if data != [] {
      WordSwaps(order, data[0], data[1]);
      SwappedWords(order, data[2..]);
      assert SwapBytes(data)[2..] == SwapBytes(data[2..]);
      assert Words(order, data)[1..] == Words(order, data[2..]);
    }
  }

  /** Exchanging the bytes of every word exchanges the bytes of the checksum. */
  lemma SwappingCommutes(order: Order, data: seq<Byte>)
    requires |data| % 2 == 0
    ensures Expected(order, SwapBytes(data)) == Swap(Expected(order, data))
    ensures |data| <= 65536 ==> Computed(order, SwapBytes(data)) == Swap(Computed(order, data))
  {
    hide Computed, Swap;
    if |data| <= 65536 {
      ShortBuffersAreRight(order, data);
      ShortBuffersAreRight(order, SwapBytes(data));
    }
    SwappedWords(order, data);
    SwappedSum(Words(order, data));
    SwapComplements(OnesSum(Words(order, data)));
  }
}
