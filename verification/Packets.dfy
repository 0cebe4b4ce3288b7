/** The Internet checksum and the packet parser of the WireGuard test peer
    (scripts/task009-wg-peer/observe.go; section 1 of RFC 1071, section 3.1 of RFC 791). Machine
    words are integers with their wrap-around written out. */
module Packets {
  import opened Common

  type byte = x: int | 0 <= x < 256

  const TWO16: nat := 0x1_0000
  const TWO31: nat := 0x8000_0000
  const TWO32: nat := 0x1_0000_0000

  /** Big-endian words. */
  function U16(b: seq<byte>, at: nat): (r: nat)
    requires at + 2 <= |b|
    ensures r < TWO16
  {
    256 * (b[at] as int) + (b[at + 1] as int)
  }

  function U32(b: seq<byte>, at: nat): (r: nat)
    requires at + 4 <= |b|
    ensures r < TWO32
  {
    TWO16 * U16(b, at) + U16(b, at + 2)
  }

  // ---- the sum the checksum stands for ---------------------------------------------------------------

  /** Sum of the 16-bit words, an odd last byte being the high half of a word. */
  function WordSum(b: seq<byte>): nat {
    if b == [] then 0
    else if |b| == 1 then 256 * (b[0] as int)
    else U16(b, 0) + WordSum(b[2..])
  }

  /** The 16-bit ones' complement representative of n: the same residue modulo 65535, and zero only
      for zero. */
  function Folded(n: nat): (f: nat)
    ensures f < TWO16
    ensures f % 65535 == n % 65535
    ensures f == 0 <==> n == 0
  {
    if n == 0 then 0 else (n - 1) % 65535 + 1
  }

  /** The bit complement of the folded sum. */
  function Complement(n: nat): (c: nat)
    ensures c < TWO16
  {
    65535 - Folded(n)
  }

  lemma FoldStep(n: nat)
    ensures Folded(n % TWO16 + n / TWO16) == Folded(n)
    ensures n >= TWO16 ==> n % TWO16 + n / TWO16 < n
  {
    var m := n % TWO16 + n / TWO16;
    assert n - m == 65535 * (n / TWO16);
    if m > 0 {
      SameResidue(m - 1, n - 1, n / TWO16);
    }
  }

  lemma SameResidue(a: nat, b: nat, k: nat)
    requires b - a == 65535 * k
    ensures a % 65535 == b % 65535
  {
    assert b == 65535 * (a / 65535 + k) + a % 65535;
  }

  /** The low 32 bits. */
  function Wrap32(n: int): (r: nat)
    ensures r < TWO32
    ensures 0 <= n < TWO32 ==> r == n
  {
    n % TWO32
  }

  lemma WrapInside(a: int, b: int)
    ensures Wrap32(Wrap32(a) + b) == Wrap32(a + b)
  {
    var q := a / TWO32;
    assert a + b == TWO32 * q + (Wrap32(a) + b);
    WrapMultiple(Wrap32(a) + b, q);
  }

  lemma WrapMultiple(n: int, q: int)
    ensures Wrap32(TWO32 * q + n) == Wrap32(n)
  {
    var k := n / TWO32;
    assert TWO32 * q + n == TWO32 * (q + k) + n % TWO32;
  }

  /** The program's checksum: a wrapping 32-bit sum, then carries folded until none is left. */
  method Checksum(data: seq<byte>, initial: nat) returns (r: nat)
    requires initial < TWO32
    ensures r == Complement(Wrap32(initial + WordSum(data)))
  {
    var sum := Accumulate(data, initial);
    sum := FoldCarries(sum);
    r := 65535 - sum % TWO16;
  }

  method Accumulate(data: seq<byte>, initial: nat) returns (sum: nat)
    requires initial < TWO32
    ensures sum == Wrap32(initial + WordSum(data))
  {
    hide Wrap32;
    var b := data;
    sum := initial;
    while |b| >= 2
      invariant sum < TWO32
      invariant Wrap32(sum + WordSum(b)) == Wrap32(initial + WordSum(data))
      decreases |b|
    {
      WrapInside(sum + U16(b, 0), WordSum(b[2..]));
      sum := Wrap32(sum + U16(b, 0));
      b := b[2..];
    }
    if |b| == 1 {
      sum := Wrap32(sum + 256 * (b[0] as int));
    }
  }

  method FoldCarries(total: nat) returns (sum: nat)
    requires total < TWO32
    ensures sum == Folded(total)
  {
    sum := total;
    while sum / TWO16 != 0
      invariant sum < TWO32 && Folded(sum) == Folded(total)
      decreases sum
    {
      FoldStep(sum);
      sum := Wrap32(sum % TWO16 + sum / TWO16);
    }
    FoldedSmall(sum);
  }

  lemma FoldedSmall(n: nat)
    requires n < TWO16
    ensures Folded(n) == n
  {
  }

  // ---- bounds: the accumulator does not wrap -----------------------------------------------------------

  lemma {:induction false} WordSumBound(b: seq<byte>)
    ensures WordSum(b) <= 65535 * ((|b| + 1) / 2)
  {
    if |b| >= 2 {
      WordSumBound(b[2..]);
    }
  }

  /** The pseudo header's contribution, before the body. */
  function PseudoSum(src: seq<byte>, dst: seq<byte>, proto: nat, length: nat): nat
    requires |src| == 4 && |dst| == 4
  {
    proto + length + U16(src, 0) + U16(src, 2) + U16(dst, 0) + U16(dst, 2)
  }

  /** For any data a 16-bit length can describe, even with a pseudo header, nothing is lost to the
      32-bit accumulator, and there is room for one more word. */
  lemma {:induction false} NoWrap(data: seq<byte>, src: seq<byte>, dst: seq<byte>, proto: nat)
    requires |data| <= 65535 && |src| == 4 && |dst| == 4 && proto < 256
    ensures PseudoSum(src, dst, proto, |data|) + WordSum(data) + 65535 < TWO32
  {
    WordSumBound(data);
  }

  /** Without wrap-around a checksum verifies exactly when the sum is a positive multiple of 65535. */
  predicate Verifies(total: nat) { total > 0 && total % 65535 == 0 }

  lemma ZeroMeansVerifies(total: nat)
    ensures Complement(total) == 0 <==> Verifies(total)
  {
    if Verifies(total) {
      assert (total - 1) % 65535 == 65534;
    }
  }

  // ---- writing the checksum makes it verify --------------------------------------------------------------

  /** The 16-bit value c stored big-endian at offset k. */
  function Stored(b: seq<byte>, k: nat, c: nat): (r: seq<byte>)
    requires k + 2 <= |b| && c < TWO16
    ensures |r| == |b|
  {
    b[k := c / 256][k + 1 := c % 256]
  }

  lemma {:induction false} StoredSum(b: seq<byte>, k: nat, c: nat)
    requires k % 2 == 0 && k + 2 <= |b| && c < TWO16 && b[k] == 0 && b[k + 1] == 0
    ensures WordSum(Stored(b, k, c)) == WordSum(b) + c
  {
    if k == 0 {
      assert Stored(b, 0, c)[2..] == b[2..];
    } else {
      assert Stored(b, k, c)[2..] == Stored(b[2..], k - 2, c);
      StoredSum(b[2..], k - 2, c);
    }
  }

  /** Whatever the packet and the aligned, zeroed field: storing the computed checksum makes the
      packet verify. */
  lemma StoredChecksumVerifies(b: seq<byte>, k: nat, initial: nat)
    requires k % 2 == 0 && k + 2 <= |b| && b[k] == 0 && b[k + 1] == 0
    requires initial + WordSum(b) + 65535 < TWO32
    ensures var c := Complement(Wrap32(initial + WordSum(b)));
      Complement(Wrap32(initial + WordSum(Stored(b, k, c)))) == 0
  {
    hide Complement, WordSum, Stored, Wrap32;
    var total := initial + WordSum(b);
    StoredSum(b, k, Complement(total));
    ComplementVerifies(total);
    ZeroMeansVerifies(total + Complement(total));
  }

  lemma ComplementVerifies(total: nat)
    ensures Verifies(total + Complement(total))
  {
    if total > 0 {
      var q := (total - 1) / 65535;
      assert total - Folded(total) == 65535 * q;
      assert total + 65535 - Folded(total) == 65535 * (q + 1);
      MultipleOf(q + 1);
    }
  }

  lemma MultipleOf(q: nat)
    ensures (65535 * q) % 65535 == 0
  {
  }

  // ---- parsePacket ------------------------------------------------------------------------------------------

  datatype Packet = Packet(src: seq<byte>, dst: seq<byte>, proto: nat, body: seq<byte>)

  function HeaderLength(raw: seq<byte>): nat
    requires |raw| >= 1
  {
    (raw[0] % 16) * 4
  }

  /** An unfragmented IPv4 packet that fits into the buffer. */
  predicate HeaderBounds(raw: seq<byte>) {
    && |raw| >= 20 && raw[0] / 16 == 4
    && 20 <= HeaderLength(raw) <= U16(raw, 2) <= |raw|
    && U16(raw, 6) % 0x4000 == 0
  }

  function PacketOf(raw: seq<byte>): Packet
    requires HeaderBounds(raw)
  {
    Packet(raw[12..16], raw[16..20], raw[9], raw[HeaderLength(raw)..U16(raw, 2)])
  }

  predicate TcpBounds(body: seq<byte>) {
    |body| >= 20 && 20 <= (body[12] / 16) * 4 <= |body|
  }

  predicate TransportValid(p: Packet)
    requires |p.src| == 4 && |p.dst| == 4
  {
    if p.proto == 6 then
      TcpBounds(p.body) && Verifies(PseudoSum(p.src, p.dst, 6, |p.body|) + WordSum(p.body))
    else if p.proto == 1 then
      |p.body| >= 8 && Verifies(WordSum(p.body))
    else if p.proto == 17 then
      && |p.body| >= 8 && U16(p.body, 4) == |p.body|
      && (U16(p.body, 6) != 0 ==> Verifies(PseudoSum(p.src, p.dst, 17, |p.body|) + WordSum(p.body)))
    else false
  }

  /** Exactly the packets whose bounds hold and whose sums are multiples of 65535. */
  predicate Acceptable(raw: seq<byte>) {
    && HeaderBounds(raw)
    && Verifies(WordSum(raw[..HeaderLength(raw)]))
    && TransportValid(PacketOf(raw))
  }

  method ChecksumIsZero(data: seq<byte>, initial: nat) returns (zero: bool)
    requires initial + WordSum(data) < TWO32
    ensures zero <==> Verifies(initial + WordSum(data))
  {
    var c := Checksum(data, initial);
    ZeroMeansVerifies(initial + WordSum(data));
    zero := c == 0;
  }

  method ParsePacket(raw: seq<byte>) returns (r: Option<Packet>)
    ensures r.Some? <==> Acceptable(raw)
    ensures r.Some? ==> r.value == PacketOf(raw)
  {
    if |raw| < 20 || raw[0] / 16 != 4 { return None; }
    var h := (raw[0] % 16) * 4;
    var n := U16(raw, 2);
    if h < 20 || h > |raw| || n < h || n > |raw| || U16(raw, 6) % 0x4000 != 0 { return None; }
    WordSumBound(raw[..h]);
    var header := ChecksumIsZero(raw[..h], 0);
    if !header { return None; }
    var p := Packet(raw[12..16], raw[16..20], raw[9], raw[h..n]);
    NoWrap(p.body, p.src, p.dst, p.proto);
    var transport := TransportIsValid(p);
    r := if transport then Some(p) else None;
  }

  method TransportIsValid(p: Packet) returns (ok: bool)
    requires |p.src| == 4 && |p.dst| == 4 && p.proto < 256
    requires PseudoSum(p.src, p.dst, p.proto, |p.body|) + WordSum(p.body) < TWO32
    ensures ok <==> TransportValid(p)
  {
    match p.proto {
      case 6 =>
        if |p.body| < 20 || (p.body[12] / 16) * 4 < 20 || (p.body[12] / 16) * 4 > |p.body| { return false; }
        ok := ChecksumIsZero(p.body, PseudoSum(p.src, p.dst, 6, |p.body|));
      case 1 =>
        if |p.body| < 8 { return false; }
        ok := ChecksumIsZero(p.body, 0);
      case 17 =>
        if |p.body| < 8 || U16(p.body, 4) != |p.body| { return false; }
        if U16(p.body, 6) == 0 { return true; }
        ok := ChecksumIsZero(p.body, PseudoSum(p.src, p.dst, 17, |p.body|));
      case _ => ok := false;
    }
  }
}
