/** The observer that decides whether the client acknowledged the whole response
    (scripts/task009-wg-peer/observe.go, observer.inspect, tcp, checkACK, icmp; section 3.4 of
    RFC 9293 for the sequence space). */
module TcpObserver {
  import opened Common
  import opened Packets

  const RESPONSE_TEXT: string := "HTTP/1.1 204 No Content\r\nContent-Length: 0\r\nConnection: close\r\n\r\n"

  const LENGTH: nat := 65

  function Response(): (r: seq<byte>)
    ensures |r| == LENGTH
  {
    seq(|RESPONSE_TEXT|, i requires 0 <= i < |RESPONSE_TEXT| => AsByte(RESPONSE_TEXT[i]))
  }

  function AsByte(c: char): byte { (c as int) % 256 }

  const DUT_IP: seq<byte> := [198, 18, 0, 1]
  const PEER_IP: seq<byte> := [198, 18, 0, 2]
  const SERVER_PORT: nat := 18080
  const BYTE_LIMIT: nat := 0x10_0000
  const ACK_LIMIT: nat := 128

  // ---- segments -----------------------------------------------------------------------------------

  datatype Segment = Segment(
    incoming: bool, source: nat, dest: nat, seqNo: nat, ackNo: nat,
    fin: bool, syn: bool, rst: bool, ack: bool, payload: seq<byte>)

  predicate Bit(flags: nat, weight: nat)
    requires weight > 0
  {
    (flags / weight) % 2 == 1
  }

  function SegmentOf(b: seq<byte>, incoming: bool): (g: Segment)
    requires TcpBounds(b)
    ensures g.seqNo < TWO32 && g.ackNo < TWO32
  {
    Segment(incoming, U16(b, 0), U16(b, 2), U32(b, 4), U32(b, 8),
            Bit(b[13], 1), Bit(b[13], 2), Bit(b[13], 4), Bit(b[13], 16), b[(b[12] / 16) * 4..])
  }

  /** Distance from b to a in the 32-bit sequence space. */
  function Distance(a: nat, b: nat): nat { Wrap32(a - b) }

  /** A SYN occupies one sequence number in front of the data it carries. */
  function DataSeq(g: Segment): nat {
    if g.syn && g.payload != [] then Wrap32(g.seqNo + 1) else g.seqNo
  }

  // ---- what the segments seen so far say -------------------------------------------------------------

  predicate OpensServer(g: Segment) { !g.incoming && g.syn }

  ghost predicate Opened(seen: seq<Segment>) {
    exists i :: 0 <= i < |seen| && OpensServer(seen[i])
  }

  /** Every server SYN names the same first data byte. */
  ghost predicate StartsAt(seen: seq<Segment>, start: nat) {
    forall i :: 0 <= i < |seen| && OpensServer(seen[i]) ==> start == Wrap32(seen[i].seqNo + 1)
  }

  /** The segment carries response byte k at its sequence position. */
  predicate Carries(g: Segment, start: nat, k: nat) {
    && !g.incoming
    && var delta := Distance(DataSeq(g), start);
       delta <= k < delta + |g.payload| && k < LENGTH && g.payload[k - delta] == Response()[k]
  }

  ghost predicate ByteSeen(seen: seq<Segment>, start: nat, k: nat) {
    exists i :: 0 <= i < |seen| && Carries(seen[i], start, k)
  }

  /** The segment ends the server's stream exactly behind the response. */
  predicate EndsStream(g: Segment, start: nat) {
    !g.incoming && g.fin && Wrap32(Distance(DataSeq(g), start) + |g.payload|) == LENGTH
  }

  /** A FIN counts from the moment the connection is open. */
  ghost predicate FinSeen(seen: seq<Segment>, start: nat) {
    exists i :: 0 <= i < |seen| && EndsStream(seen[i], start) && OpenedBy(seen, i)
  }

  ghost predicate OpenedBy(seen: seq<Segment>, i: nat)
    requires i < |seen|
  {
    exists j :: 0 <= j <= i && OpensServer(seen[j])
  }

  predicate Acknowledges(g: Segment, a: nat) { g.incoming && g.ack && g.ackNo == a }

  ghost predicate AckSeen(seen: seq<Segment>, a: nat) {
    exists i :: 0 <= i < |seen| && Acknowledges(seen[i], a)
  }

  /** A server SYN fixed the start, every response byte was seen at its position, and the client
      acknowledged the end of the response, or one past it once the stream has ended there; in any
      order, with repetitions and across the wrap of the sequence space. */
  ghost predicate ResponseAcknowledged(seen: seq<Segment>) {
    exists start :: Delivered(seen, start)
  }

  ghost predicate Delivered(seen: seq<Segment>, start: nat) {
    && Opened(seen) && StartsAt(seen, start)
    && (forall k :: 0 <= k < LENGTH ==> ByteSeen(seen, start, k))
    && (AckSeen(seen, Wrap32(start + LENGTH))
        || (FinSeen(seen, start) && AckSeen(seen, Wrap32(start + LENGTH + 1))))
  }

  // ---- which segments and pings are accepted ----------------------------------------------------------------

  /** The first client SYN to the server port names the client's port. */
  function PortAfter(port: nat, g: Segment): nat {
    if g.incoming && port == 0 && g.dest == SERVER_PORT && g.syn && !g.ack then g.source else port
  }

  predicate TupleFits(port: nat, g: Segment) {
    && !g.rst
    && (if g.incoming then g.source == PortAfter(port, g) && g.dest == SERVER_PORT else g.source == SERVER_PORT && g.dest == port)
  }

  predicate StartFits(open: bool, start: nat, g: Segment) {
    OpensServer(g) && open ==> start == Wrap32(g.seqNo + 1)
  }

  function StartAfter(start: nat, g: Segment): nat {
    if OpensServer(g) then Wrap32(g.seqNo + 1) else start
  }

  predicate Matches(payload: seq<byte>, delta: nat)
    requires delta + |payload| <= LENGTH
  {
    forall j :: 0 <= j < |payload| ==> payload[j] == Response()[delta + j]
  }

  /** Data of the server lies inside the response and equals it there. */
  predicate PayloadFits(open: bool, start: nat, g: Segment) {
    !g.incoming && g.payload != [] ==>
      open && Distance(DataSeq(g), start) + |g.payload| <= LENGTH && Matches(g.payload, Distance(DataSeq(g), start))
  }

  predicate FinFits(open: bool, start: nat, g: Segment) {
    !g.incoming && g.fin && open ==> EndsStream(g, start)
  }

  predicate AckFits(count: nat, g: Segment) {
    g.incoming && g.ack ==> count < ACK_LIMIT
  }

  predicate SegmentFits(port: nat, open: bool, start: nat, count: nat, g: Segment) {
    var nowOpen, nowStart := open || OpensServer(g), StartAfter(start, g);
    && TupleFits(port, g) && StartFits(open, start, g)
    && PayloadFits(nowOpen, nowStart, g) && FinFits(nowOpen, nowStart, g) && AckFits(count, g)
  }

  /** The next echo request when every earlier one was answered, or the reply to the last one. */
  predicate PingFits(active: bool, token: seq<byte>, sent: nat, received: nat, body: seq<byte>, incoming: bool)
    requires |body| >= 8
  {
    var number := U16(body, 6);
    && active && body[1] == 0 && U16(body, 4) == 9
    && |body| == 8 + |token| + 1 && body[8..|body| - 1] == token && body[|body| - 1] as int == number
    && 1 <= number <= 3
    && (if incoming then body[0] == 0 && number == received + 1 == sent
        else body[0] == 8 && number == sent + 1 && sent == received)
  }

  predicate AddressesFit(p: Packet, incoming: bool) {
    if incoming then p.src == DUT_IP && p.dst == PEER_IP else p.src == PEER_IP && p.dst == DUT_IP
  }

  // ---- one more segment -----------------------------------------------------------------------------------

  lemma OpenedMore(seen: seq<Segment>, g: Segment)
    ensures Opened(seen + [g]) <==> Opened(seen) || OpensServer(g)
  {
    var more := seen + [g];
    if i :| 0 <= i < |seen| && OpensServer(seen[i]) { assert OpensServer(more[i]); }
    if OpensServer(g) { assert OpensServer(more[|seen|]); }
  }

  lemma StartsAtMore(seen: seq<Segment>, g: Segment, start: nat)
    ensures StartsAt(seen + [g], start) <==>
      StartsAt(seen, start) && (OpensServer(g) ==> start == Wrap32(g.seqNo + 1))
  {
    var more := seen + [g];
    if StartsAt(more, start) {
      forall i | 0 <= i < |seen| && OpensServer(seen[i]) ensures start == Wrap32(seen[i].seqNo + 1) {
        assert more[i] == seen[i];
      }
      assert more[|seen|] == g;
    }
  }

  lemma ByteSeenMore(seen: seq<Segment>, g: Segment, start: nat, k: nat)
    ensures ByteSeen(seen + [g], start, k) <==> ByteSeen(seen, start, k) || Carries(g, start, k)
  {
    hide Carries;
    var more := seen + [g];
    if i :| 0 <= i < |seen| && Carries(seen[i], start, k) { assert Carries(more[i], start, k); }
    if Carries(g, start, k) { assert Carries(more[|seen|], start, k); }
  }

  lemma OpenedByMore(seen: seq<Segment>, g: Segment, i: nat)
    requires i < |seen|
    ensures OpenedBy(seen + [g], i) <==> OpenedBy(seen, i)
  {
    var more := seen + [g];
    if j :| 0 <= j <= i && OpensServer(seen[j]) { assert OpensServer(more[j]); }
    if j :| 0 <= j <= i && OpensServer(more[j]) { assert OpensServer(seen[j]); }
  }

  lemma OpenedByLast(seen: seq<Segment>)
    requires seen != []
    ensures OpenedBy(seen, |seen| - 1) <==> Opened(seen)
  {
  }

  lemma FinSeenMore(seen: seq<Segment>, g: Segment, start: nat)
    ensures FinSeen(seen + [g], start) <==>
      FinSeen(seen, start) || (EndsStream(g, start) && Opened(seen + [g]))
  {
    hide EndsStream, Opened, OpenedBy;
    var more := seen + [g];
    forall i | 0 <= i < |seen| ensures more[i] == seen[i] && OpenedBy(more, i) == OpenedBy(seen, i) {
      OpenedByMore(seen, g, i);
    }
    OpenedByLast(more);
    if i :| 0 <= i < |seen| && EndsStream(seen[i], start) && OpenedBy(seen, i) {
      assert EndsStream(more[i], start) && OpenedBy(more, i);
    }
    if EndsStream(g, start) && Opened(more) { assert EndsStream(more[|seen|], start); }
  }

  lemma AckSeenMore(seen: seq<Segment>, g: Segment, a: nat)
    ensures AckSeen(seen + [g], a) <==> AckSeen(seen, a) || Acknowledges(g, a)
  {
    hide Acknowledges;
    var more := seen + [g];
    if i :| 0 <= i < |seen| && Acknowledges(seen[i], a) { assert Acknowledges(more[i], a); }
    if Acknowledges(g, a) { assert Acknowledges(more[|seen|], a); }
  }

  /** The program's window test picks out exactly the two acknowledgements. */
  lemma AckWindow(ack: nat, end: nat, fin: bool)
    requires ack < TWO32 && end < TWO32
    ensures var limit := if fin then Wrap32(end + 1) else end;
      (Distance(ack, end) < TWO31 && Distance(limit, ack) < TWO31) <==> ack == end || (fin && ack == Wrap32(end + 1))
  {
  }

  class Observer {
    var err: bool
    var total: nat
    var rx: nat
    var tx: nat
    var clientPort: nat
    var start: nat
    var haveStart: bool
    const covered: array<bool>
    var fin: bool
    var acks: seq<nat>
    var acked: bool
    const token: seq<byte>
    const icmpActive: bool
    var icmpSent: nat
    var icmpReceived: nat
    const allowUdp: bool
    /** The TCP segments accepted so far. */
    ghost var seen: seq<Segment>

    ghost predicate StartOk(s: seq<Segment>)
      reads this`start, this`haveStart
    {
      (haveStart <==> Opened(s)) && (haveStart ==> StartsAt(s, start))
    }

    ghost predicate CoverOk(s: seq<Segment>)
      requires covered.Length == LENGTH
      reads this`start, this`haveStart, covered
    {
      && (forall k :: 0 <= k < LENGTH ==> (covered[k] <==> haveStart && ByteSeen(s, start, k)))
      && (!haveStart ==> forall i :: 0 <= i < |s| ==> s[i].incoming || s[i].payload == [])
    }

    ghost predicate FinOk(s: seq<Segment>)
      reads this`start, this`haveStart, this`fin
    {
      fin <==> haveStart && FinSeen(s, start)
    }

    ghost predicate AcksOk(s: seq<Segment>)
      reads this`acks
    {
      && |acks| <= ACK_LIMIT && (forall i :: 0 <= i < |acks| ==> acks[i] < TWO32)
      && forall a :: a in acks <==> AckSeen(s, a)
    }

    /** While no error is latched the fields say exactly what the segments seen say, and `acked`
        is the answer to the observer's question. */
    ghost predicate Valid()
      reads this, covered
    {
      && covered.Length == LENGTH && start < TWO32
      && (!err ==>
            && StartOk(seen) && CoverOk(seen) && FinOk(seen) && AcksOk(seen)
            && (acked <==> ResponseAcknowledged(seen))
            && rx + tx == |seen|
            && icmpReceived <= icmpSent <= icmpReceived + 1 && icmpSent <= 3)
    }

    constructor (token: seq<byte>, icmpActive: bool, allowUdp: bool)
      ensures Valid() && !err && !acked && seen == [] && fresh(covered)
    {
      err, total, rx, tx, clientPort := false, 0, 0, 0, 0;
      start, haveStart, fin, acked := 0, false, false, false;
      covered := new bool[LENGTH](i => false);
      acks := [];
      this.token, this.icmpActive, this.allowUdp := token, icmpActive, allowUdp;
      icmpSent, icmpReceived := 0, 0;
      seen := [];
    }

    predicate Completes(a: nat)
      reads this
    {
      a == Wrap32(start + LENGTH) || (fin && a == Wrap32(start + LENGTH + 1))
    }

    /** checkACK's condition on the fields. */
    ghost predicate Complete()
      requires covered.Length == LENGTH
      reads this, covered
    {
      && haveStart && (forall k :: 0 <= k < LENGTH ==> covered[k])
      && exists i :: 0 <= i < |acks| && Completes(acks[i])
    }

    /** checkACK. */
    method CheckAck()
      requires covered.Length == LENGTH && start < TWO32 && forall i :: 0 <= i < |acks| ==> acks[i] < TWO32
      modifies this`acked
      ensures acked == (old(acked) || Complete())
    {
      if !haveStart { return; }
      var k := 0;
      while k < LENGTH
        invariant 0 <= k <= LENGTH && forall j :: 0 <= j < k ==> covered[j]
        invariant acked == old(acked)
      {
        if !covered[k] { return; }
        k := k + 1;
      }
      var end := Wrap32(start + LENGTH);
      var limit := if fin then Wrap32(end + 1) else end;
      WrapInside(start + LENGTH, 1);
      var i := 0;
      while i < |acks|
        invariant 0 <= i <= |acks|
        invariant acked == (old(acked) || exists j :: 0 <= j < i && Completes(acks[j]))
      {
        AckWindow(acks[i], end, fin);
        if Distance(acks[i], end) < TWO31 && Distance(limit, acks[i]) < TWO31 {
          assert Completes(acks[i]);
          acked := true;
        }
        i := i + 1;
      }
    }

    lemma CompleteIsDelivered(s: seq<Segment>)
      requires covered.Length == LENGTH && StartOk(s) && CoverOk(s) && FinOk(s) && AcksOk(s)
      ensures Complete() <==> ResponseAcknowledged(s)
    {
      hide Carries, EndsStream, Acknowledges, OpensServer;
      if Complete() {
        var i :| 0 <= i < |acks| && Completes(acks[i]);
        assert acks[i] in acks;
        assert Delivered(s, start);
      }
      if ResponseAcknowledged(s) {
        var other :| Delivered(s, other);
        SameStart(s, start, other);
        var a := if AckSeen(s, Wrap32(start + LENGTH)) then Wrap32(start + LENGTH) else Wrap32(start + LENGTH + 1);
        assert a in acks;
        var i :| 0 <= i < |acks| && acks[i] == a;
        assert Completes(acks[i]);
      }
    }

    /** A server SYN fixes the start, or repeats it. */
    method TakeStart(g: Segment) returns (ok: bool)
      requires covered.Length == LENGTH && start < TWO32
      requires StartOk(seen) && CoverOk(seen) && FinOk(seen)
      modifies this`start, this`haveStart
      ensures start < TWO32
      ensures ok <==> StartFits(old(haveStart), old(start), g)
      ensures ok ==> StartOk(seen + [g]) && FinOk(seen) && CoverOk(seen)
      ensures ok ==> haveStart == (old(haveStart) || OpensServer(g)) && start == StartAfter(old(start), g)
    {
      OpenedMore(seen, g);
      if OpensServer(g) {
        var first := Wrap32(g.seqNo + 1);
        if haveStart && start != first { return false; }
        StartsAtMore(seen, g, first);
        if !haveStart {
          NothingBeforeOpen(seen, first);
        }
        start, haveStart := first, true;
      } else {
        StartsAtMore(seen, g, start);
      }
      ok := true;
    }

    /** Compare the data with the response and mark it covered. */
    method TakePayload(g: Segment) returns (ok: bool)
      requires covered.Length == LENGTH && start < TWO32 && CoverOk(seen)
      modifies covered
      ensures ok <==> PayloadFits(haveStart, start, g)
      ensures ok ==> CoverOk(seen + [g])
    {
      hide Carries, ByteSeen, Distance, DataSeq, Response;
      forall k | 0 <= k < LENGTH ensures ByteSeen(seen + [g], start, k) <==> ByteSeen(seen, start, k) || Carries(g, start, k) {
        ByteSeenMore(seen, g, start, k);
      }
      if g.incoming || g.payload == [] {
        CarriesNothing(g, start);
        return true;
      }
      if !haveStart { return false; }
      var delta := Distance(DataSeq(g), start);
      if delta >= TWO31 || delta + |g.payload| > LENGTH { return false; }
      ok := CompareAndCover(g.payload, delta);
      if ok { CarriesExactly(g, start, delta); }
    }

    /** The byte loop. */
    method CompareAndCover(payload: seq<byte>, delta: nat) returns (ok: bool)
      requires covered.Length == LENGTH && delta + |payload| <= LENGTH
      modifies covered
      ensures ok <==> Matches(payload, delta)
      ensures ok ==> forall k :: 0 <= k < LENGTH ==> (covered[k] <==> old(covered[k]) || delta <= k < delta + |payload|)
    {
      hide Response;
      var i := 0;
      while i < |payload|
        invariant 0 <= i <= |payload|
        invariant forall j :: 0 <= j < i ==> payload[j] == Response()[delta + j]
        invariant forall k :: 0 <= k < LENGTH ==> (covered[k] <==> old(covered[k]) || delta <= k < delta + i)
      {
        if payload[i] != Response()[delta + i] { return false; }
        covered[delta + i] := true;
        i := i + 1;
      }
      ok := true;
    }

    method TakeFin(g: Segment) returns (ok: bool)
      requires start < TWO32 && StartOk(seen + [g]) && FinOk(seen)
      modifies this`fin
      ensures ok <==> FinFits(haveStart, start, g)
      ensures ok ==> FinOk(seen + [g])
    {
      FinSeenMore(seen, g, start);
      if !g.incoming && g.fin && haveStart {
        if Wrap32(Distance(DataSeq(g), start) + |g.payload|) != LENGTH { return false; }
        fin := true;
      }
      ok := true;
    }

    method TakeAck(g: Segment) returns (ok: bool)
      requires AcksOk(seen) && g.ackNo < TWO32
      modifies this`acks
      ensures forall i :: 0 <= i < |acks| ==> acks[i] < TWO32
      ensures ok <==> AckFits(|old(acks)|, g)
      ensures ok ==> AcksOk(seen + [g])
    {
      forall a ensures AckSeen(seen + [g], a) <==> AckSeen(seen, a) || Acknowledges(g, a) {
        AckSeenMore(seen, g, a);
      }
      if g.incoming && g.ack {
        if |acks| >= ACK_LIMIT { return false; }
        acks := acks + [g.ackNo];
      }
      ok := true;
    }

    /** The four-tuple and reset checks. */
    method CheckTuple(g: Segment) returns (ok: bool)
      modifies this`rx, this`tx, this`clientPort
      ensures rx + tx == old(rx + tx) + 1
      ensures ok <==> TupleFits(old(clientPort), g)
      ensures clientPort == PortAfter(old(clientPort), g)
    {
      if g.incoming {
        rx := rx + 1;
        if clientPort == 0 && g.dest == SERVER_PORT && g.syn && !g.ack { clientPort := g.source; }
        if g.source != clientPort || g.dest != SERVER_PORT { return false; }
      } else {
        tx := tx + 1;
        if g.source != SERVER_PORT || g.dest != clientPort { return false; }
      }
      ok := !g.rst;
    }

    method TakeSegment(g: Segment) returns (ok: bool)
      requires covered.Length == LENGTH && start < TWO32 && g.ackNo < TWO32
      requires StartOk(seen) && CoverOk(seen) && FinOk(seen) && AcksOk(seen)
      modifies this`start, this`haveStart, this`fin, this`acks, covered
      ensures start < TWO32 && forall i :: 0 <= i < |acks| ==> acks[i] < TWO32
      ensures ok <==>
        && StartFits(old(haveStart), old(start), g)
        && PayloadFits(old(haveStart) || OpensServer(g), StartAfter(old(start), g), g)
        && FinFits(old(haveStart) || OpensServer(g), StartAfter(old(start), g), g)
        && AckFits(|old(acks)|, g)
      ensures ok ==> StartOk(seen + [g]) && CoverOk(seen + [g]) && FinOk(seen + [g]) && AcksOk(seen + [g])
    {
      AcksInRange();
      hide StartOk, CoverOk, FinOk, AcksOk, StartFits, PayloadFits, FinFits, AckFits, StartAfter, OpensServer;
      ok := TakeStart(g);
      if ok { ok := TakePayload(g); }
      if ok { ok := TakeFin(g); }
      if ok { ok := TakeAck(g); }
    }

    lemma AcksInRange()
      requires AcksOk(seen)
      ensures forall i :: 0 <= i < |acks| ==> acks[i] < TWO32
    {
    }

    method Tcp(g: Segment)
      requires Valid() && !err && g.seqNo < TWO32 && g.ackNo < TWO32
      modifies this, covered
      ensures Valid() && total == old(total)
      ensures !err <==> SegmentFits(old(clientPort), old(haveStart), old(start), |old(acks)|, g)
      ensures !err ==> seen == old(seen) + [g]
      ensures icmpSent == old(icmpSent) && icmpReceived == old(icmpReceived)
    {
      hide Opened, StartsAt, ByteSeen, FinSeen, AckSeen, ResponseAcknowledged, StartOk, CoverOk, FinOk, AcksOk, Complete;
      hide TupleFits, StartFits, PayloadFits, FinFits, AckFits, StartAfter;
      ghost var before := seen;
      var ok := CheckTuple(g);
      if ok { ok := TakeSegment(g); }
      if !ok { err := true; return; }
      seen := seen + [g];
      CheckAck();
      CompleteIsDelivered(seen);
      if ResponseAcknowledged(before) { StaysComplete(before, g); }
    }

    lemma StaysComplete(s: seq<Segment>, g: Segment)
      requires StartOk(s + [g]) && ResponseAcknowledged(s)
      ensures ResponseAcknowledged(s + [g])
    {
      StaysAcknowledged(s, g, start);
    }

    /** One ping at a time, numbered one to three, each answered before the next. */
    method Icmp(body: seq<byte>, incoming: bool)
      requires Valid() && !err && |body| >= 8
      modifies this`err, this`icmpSent, this`icmpReceived
      ensures Valid()
      ensures !err <==> PingFits(icmpActive, token, old(icmpSent), old(icmpReceived), body, incoming)
      ensures !err && incoming ==> icmpReceived == old(icmpReceived) + 1 == icmpSent == old(icmpSent)
      ensures !err && !incoming ==> icmpSent == old(icmpSent) + 1 && icmpReceived == old(icmpReceived) == old(icmpSent)
    {
      if !icmpActive || body[1] != 0 || U16(body, 4) != 9 || |body| != 8 + |token| + 1 || body[8..|body| - 1] != token {
        err := true;
        return;
      }
      var number := U16(body, 6);
      if number < 1 || number > 3 || body[|body| - 1] as int != number % 256 { err := true; return; }
      if incoming {
        if body[0] != 0 || number != icmpReceived + 1 || number > icmpSent { err := true; return; }
        icmpReceived := icmpReceived + 1;
      } else {
        if body[0] != 8 || number != icmpSent + 1 || icmpSent != icmpReceived { err := true; return; }
        icmpSent := icmpSent + 1;
      }
    }

    /** inspect: a packet latches no error exactly when it is well-formed, within the byte limit,
        between the two peers, and fits what was seen before; while no error is latched, `acked` holds exactly when the segments accepted so far
        acknowledge the whole response; an error, once latched, freezes everything. */
    method Inspect(raw: seq<byte>, incoming: bool)
      requires Valid()
      modifies this, covered
      ensures Valid()
      ensures old(err) ==> err && acked == old(acked) && seen == old(seen) && total == old(total)
      ensures !err <==>
        && !old(err) && Acceptable(raw) && old(total) + |raw| <= BYTE_LIMIT && AddressesFit(PacketOf(raw), incoming)
        && match PacketOf(raw).proto
           case 6 => SegmentFits(old(clientPort), old(haveStart), old(start), |old(acks)|, SegmentOf(PacketOf(raw).body, incoming))
           case 1 => PingFits(icmpActive, token, old(icmpSent), old(icmpReceived), PacketOf(raw).body, incoming)
           case _ => allowUdp
      ensures !err ==>
        && Acceptable(raw) && total == old(total) + |raw| <= BYTE_LIMIT
        && seen == old(seen) + (if PacketOf(raw).proto == 6 then [SegmentOf(PacketOf(raw).body, incoming)] else [])
        && (acked <==> ResponseAcknowledged(seen))
    {
      hide Acceptable, StartOk, CoverOk, FinOk, AcksOk, ResponseAcknowledged;
      var parsed := ParsePacket(raw);
      if err { return; }
      if parsed.None? { err := true; return; }
      var p := parsed.value;
      AcceptedTransport(raw);
      total := total + |raw|;
      if total > BYTE_LIMIT { err := true; return; }
      if (incoming && (p.src != DUT_IP || p.dst != PEER_IP)) || (!incoming && (p.src != PEER_IP || p.dst != DUT_IP)) {
        err := true;
        return;
      }
      match p.proto {
        case 6 => Tcp(SegmentOf(p.body, incoming));
        case 1 => Icmp(p.body, incoming);
        case _ => if !allowUdp { err := true; }
      }
    }
  }

  lemma AcceptedTransport(raw: seq<byte>)
    requires Acceptable(raw)
    ensures HeaderBounds(raw)
    ensures PacketOf(raw).proto in {1, 6, 17}
    ensures PacketOf(raw).proto == 6 ==> TcpBounds(PacketOf(raw).body)
    ensures PacketOf(raw).proto == 1 ==> |PacketOf(raw).body| >= 8
  {
  }

  lemma CarriesNothing(g: Segment, start: nat)
    requires g.incoming || g.payload == []
    ensures forall k :: !Carries(g, start, k)
  {
  }

  lemma CarriesExactly(g: Segment, start: nat, delta: nat)
    requires !g.incoming && delta == Distance(DataSeq(g), start) && delta + |g.payload| <= LENGTH
    requires forall j :: 0 <= j < |g.payload| ==> g.payload[j] == Response()[delta + j]
    ensures forall k :: 0 <= k < LENGTH ==> (Carries(g, start, k) <==> delta <= k < delta + |g.payload|)
  {
    hide Response, Distance, DataSeq;
    forall k | delta <= k < delta + |g.payload| ensures Carries(g, start, k) {
      assert g.payload[k - delta] == Response()[delta + (k - delta)];
    }
  }

  lemma SameStart(s: seq<Segment>, a: nat, b: nat)
    requires Opened(s) && StartsAt(s, a) && StartsAt(s, b)
    ensures a == b
  {
    var i :| 0 <= i < |s| && OpensServer(s[i]);
  }

  lemma NothingBeforeOpen(s: seq<Segment>, start: nat)
    requires forall i :: 0 <= i < |s| ==> s[i].incoming || s[i].payload == []
    requires !Opened(s)
    ensures forall k :: !ByteSeen(s, start, k)
    ensures !FinSeen(s, start)
  {
  }

  /** An acknowledgement is not taken back by a later segment. */
  lemma StaysAcknowledged(s: seq<Segment>, g: Segment, start: nat)
    requires ResponseAcknowledged(s) && (Opened(s + [g]) ==> StartsAt(s + [g], start))
    ensures ResponseAcknowledged(s + [g])
  {
    var first :| Delivered(s, first);
    OpenedMore(s, g);
    StartsAtMore(s, g, start);
    SameStart(s, first, start);
    hide Opened, StartsAt, ByteSeen, FinSeen, AckSeen;
    forall k | 0 <= k < LENGTH ensures ByteSeen(s + [g], start, k) { ByteSeenMore(s, g, start, k); }
    FinSeenMore(s, g, start);
    AckSeenMore(s, g, Wrap32(start + LENGTH));
    AckSeenMore(s, g, Wrap32(start + LENGTH + 1));
    assert Delivered(s + [g], start);
  }
}
