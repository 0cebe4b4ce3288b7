/** The layout of the packets the test peer reads (sections 3.1 of RFC 791 and RFC 9293): a packet built
    from its fields, with the checksums computed and stored, is accepted and read back as these
    fields (scripts/task009-wg-peer/observe.go). */
module WireFormat {
  import opened Common
  import opened Packets
  import opened TcpObserver

  function Byte(n: nat): byte
    requires n < 256
  {
    n
  }

  /** Big-endian. */
  function Put16(n: nat): (r: seq<byte>)
    requires n < TWO16
    ensures |r| == 2
  {
    [Byte(n / 256), Byte(n % 256)]
  }

  function Put32(n: nat): (r: seq<byte>)
    requires n < TWO32
    ensures |r| == 4
  {
    Put16(n / TWO16) + Put16(n % TWO16)
  }

  function Weight(set1: bool, weight: nat): nat { if set1 then weight else 0 }

  /** FIN, SYN, RST and ACK in their bits. */
  function Flags(g: Segment): (r: nat)
    ensures r < 32
  {
    Weight(g.fin, 1) + Weight(g.syn, 2) + Weight(g.rst, 4) + Weight(g.ack, 16)
  }

  predicate Encodable(g: Segment) {
    && g.source < TWO16 && g.dest < TWO16 && g.seqNo < TWO32 && g.ackNo < TWO32 && |g.payload| <= 65495
  }

  /** A TCP header without options and with a zero checksum, and the data. */
  function TcpBytes(g: Segment): (r: seq<byte>)
    requires Encodable(g)
    ensures |r| == 20 + |g.payload|
  {
    Put16(g.source) + Put16(g.dest) + Put32(g.seqNo) + Put32(g.ackNo) + [80, Byte(Flags(g))] + [255, 255] + [0, 0] + [0, 0] + g.payload
  }

  /** An IPv4 header of a TCP packet without options and with a zero checksum. */
  function IpHeader(src: seq<byte>, dst: seq<byte>, length: nat): (r: seq<byte>)
    requires |src| == 4 && |dst| == 4 && length < TWO16
    ensures |r| == 20
  {
    [69, 0] + Put16(length) + [0, 0] + [0, 0] + [64, 6] + [0, 0] + src + dst
  }

  /** The segment with its checksum. */
  function Summed(src: seq<byte>, dst: seq<byte>, g: Segment): (r: seq<byte>)
    requires |src| == 4 && |dst| == 4 && Encodable(g)
    ensures |r| == 20 + |g.payload|
  {
    var b := TcpBytes(g);
    Stored(b, 16, Complement(PseudoSum(src, dst, 6, |b|) + WordSum(b)))
  }

  /** The whole packet. */
  function Built(src: seq<byte>, dst: seq<byte>, g: Segment): seq<byte>
    requires |src| == 4 && |dst| == 4 && Encodable(g)
  {
    var header := IpHeader(src, dst, 40 + |g.payload|);
    Stored(header, 10, Complement(WordSum(header))) + Summed(src, dst, g)
  }

  lemma Put16Reads(b: seq<byte>, at: nat, n: nat)
    requires n < TWO16 && at + 2 <= |b| && b[at..at + 2] == Put16(n)
    ensures U16(b, at) == n
  {
    assert b[at] == b[at..at + 2][0] && b[at + 1] == b[at..at + 2][1];
  }

  lemma Put32Reads(b: seq<byte>, at: nat, n: nat)
    requires n < TWO32 && at + 4 <= |b| && b[at..at + 4] == Put32(n)
    ensures U32(b, at) == n
  {
    assert b[at..at + 4][..2] == b[at..at + 2] && b[at..at + 4][2..] == b[at + 2..at + 4];
    Put16Reads(b, at, n / TWO16);
    Put16Reads(b, at + 2, n % TWO16);
  }

  /** The parts of a segment's bytes, whatever checksum is stored. */
  lemma TcpLayout(g: Segment, c: nat)
    requires Encodable(g) && c < TWO16
    ensures var b := Stored(TcpBytes(g), 16, c);
      && b[0..2] == Put16(g.source) && b[2..4] == Put16(g.dest) && b[4..8] == Put32(g.seqNo) && b[8..12] == Put32(g.ackNo)
      && b[12] == 80 && b[13] == Flags(g) && b[20..] == g.payload
  {
  }

  lemma FlagBits(g: Segment)
    ensures (Bit(Flags(g), 1) <==> g.fin) && (Bit(Flags(g), 2) <==> g.syn) && (Bit(Flags(g), 4) <==> g.rst) && (Bit(Flags(g), 16) <==> g.ack)
  {
  }

  /** What is read from a segment is what was written. */
  lemma SegmentRoundTrip(g: Segment, c: nat)
    requires Encodable(g) && c < TWO16
    ensures var b := Stored(TcpBytes(g), 16, c);
      TcpBounds(b) && SegmentOf(b, g.incoming) == g
  {
    var b := Stored(TcpBytes(g), 16, c);
    TcpLayout(g, c);
    FlagBits(g);
    hide TcpBytes, Stored, Flags, Bit, Put16, Put32, U16, U32;
    Put16Reads(b, 0, g.source);
    Put16Reads(b, 2, g.dest);
    Put32Reads(b, 4, g.seqNo);
    Put32Reads(b, 8, g.ackNo);
  }

  lemma HeaderLayout(src: seq<byte>, dst: seq<byte>, length: nat, c: nat)
    requires |src| == 4 && |dst| == 4 && length < TWO16 && c < TWO16
    ensures var h := Stored(IpHeader(src, dst, length), 10, c);
      && h[0] == 69 && h[2..4] == Put16(length) && h[6..8] == [0, 0] && h[9] == 6 && h[12..16] == src && h[16..20] == dst
  {
  }

  lemma SummedVerifies(src: seq<byte>, dst: seq<byte>, g: Segment)
    requires |src| == 4 && |dst| == 4 && Encodable(g)
    ensures Verifies(PseudoSum(src, dst, 6, |Summed(src, dst, g)|) + WordSum(Summed(src, dst, g)))
  {
    var b := TcpBytes(g);
    assert b[16] == 0 && b[17] == 0;
    hide TcpBytes, WordSum, Complement;
    var total := PseudoSum(src, dst, 6, |b|) + WordSum(b);
    StoredSum(b, 16, Complement(total));
    ComplementVerifies(total);
  }

  lemma HeaderVerifies(src: seq<byte>, dst: seq<byte>, length: nat)
    requires |src| == 4 && |dst| == 4 && length < TWO16
    ensures var h := IpHeader(src, dst, length); Verifies(WordSum(Stored(h, 10, Complement(WordSum(h)))))
  {
    var h := IpHeader(src, dst, length);
    assert h[10] == 0 && h[11] == 0;
    hide IpHeader, WordSum, Complement;
    StoredSum(h, 10, Complement(WordSum(h)));
    ComplementVerifies(WordSum(h));
  }

  /** A built packet is accepted, and what is read from it is what it was built from. */
  lemma BuiltPacketIsRead(src: seq<byte>, dst: seq<byte>, g: Segment)
    requires |src| == 4 && |dst| == 4 && Encodable(g)
    ensures var raw := Built(src, dst, g);
      && Acceptable(raw) && PacketOf(raw) == Packet(src, dst, 6, Summed(src, dst, g))
      && TcpBounds(PacketOf(raw).body) && SegmentOf(PacketOf(raw).body, g.incoming) == g
  {
    hide IpHeader, TcpBytes, Stored, WordSum, Complement, PseudoSum, SegmentOf, Put16, U16, HeaderBounds, TcpBounds, PacketOf,
      Acceptable, Verifies, HeaderLength;
    var header := IpHeader(src, dst, 40 + |g.payload|);
    var sum := Complement(WordSum(header));
    var h, body := Stored(header, 10, sum), Summed(src, dst, g);
    var raw := Built(src, dst, g);
    HeaderLayout(src, dst, 40 + |g.payload|, sum);
    HeaderVerifies(src, dst, 40 + |g.payload|);
    SummedVerifies(src, dst, g);
    SegmentRoundTrip(g, Complement(PseudoSum(src, dst, 6, |TcpBytes(g)|) + WordSum(TcpBytes(g))));
    Joined(raw, h, body, src, dst, |g.payload|);
    AcceptedParts(raw, src, dst, body);
  }

  lemma {:induction false} AcceptedParts(raw: seq<byte>, src: seq<byte>, dst: seq<byte>, body: seq<byte>)
    requires HeaderBounds(raw) && Verifies(WordSum(raw[..HeaderLength(raw)]))
    requires |src| == 4 && |dst| == 4 && PacketOf(raw) == Packet(src, dst, 6, body)
    requires TcpBounds(body) && Verifies(PseudoSum(src, dst, 6, |body|) + WordSum(body))
    ensures Acceptable(raw)
  {
    hide WordSum, PseudoSum, HeaderBounds, PacketOf, HeaderLength;
  }

  /** The bounds and parts of a packet that is its header followed by its body. */
  lemma Joined(raw: seq<byte>, h: seq<byte>, body: seq<byte>, src: seq<byte>, dst: seq<byte>, data: nat)
    requires raw == h + body && |h| == 20 && |body| == 20 + data && 40 + data < TWO16
    requires h[0] == 69 && h[2..4] == Put16(40 + data) && h[6..8] == [0, 0] && h[9] == 6 && h[12..16] == src && h[16..20] == dst
    ensures HeaderBounds(raw) && HeaderLength(raw) == 20 && raw[..20] == h
    ensures |src| == 4 && |dst| == 4 && PacketOf(raw) == Packet(src, dst, 6, body)
  {
    assert raw[0] == h[0] && raw[9] == h[9] && raw[2..4] == h[2..4] && raw[6..8] == h[6..8];
    assert raw[12..16] == h[12..16] && raw[16..20] == h[16..20];
    Put16Reads(raw, 2, 40 + data);
    assert raw[6] == raw[6..8][0] && raw[7] == raw[6..8][1];
    assert raw[20..40 + data] == body;
  }
}
