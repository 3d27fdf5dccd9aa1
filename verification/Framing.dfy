/** Finding packets in a byte stream: the packet loop that NetServer and NetClient run after every
    receive, however the network has cut the stream. */
module Framing {
  import opened PacketCodec
  import RingBuffer

  /** What a receiver has made of the bytes so far: the payloads handed to OnReceive, the bytes kept for
      the next receive, and whether it still listens. */
  datatype Reader = Reader(payloads: seq<seq<byte>>, kept: seq<byte>, open: bool)

  datatype Verdict = TooShort | Bad | Overruns | Packet(payload: seq<byte>, size: nat)

  /** The first packet of the bytes. A wrong code, a payload above the limit and a failed check end the
      connection. A payload within the limit that is longer than a packet buffer is copied past the buffer's
      end; nothing is said of what follows. */
  function First(bytes: seq<byte>, limit: nat): (v: Verdict)
    ensures v.Packet? ==> HEADER_SIZE <= v.size <= |bytes|
  {
    if |bytes| < HEADER_SIZE then TooShort
    else if bytes[0] != NETWORK_HEADER_CODE || LengthField(bytes) > limit then Bad
    else Complete(bytes, HEADER_SIZE + LengthField(bytes))
  }

  /** The first packet, if its `size` bytes are there. */
  function Complete(bytes: seq<byte>, size: nat): Verdict
    requires size >= HEADER_SIZE
  {
    if |bytes| < size then TooShort
    else if size > HEADER_SIZE + DEFAULT_SIZE then Overruns
    else match Unwire(bytes[..size])
      case Intact(payload) => Packet(payload, size)
      case Damaged => Bad
  }

  /** The packet loop. */
  function Parse(bytes: seq<byte>, limit: nat): Reader
    decreases |bytes|
  {
    match First(bytes, limit)
    case TooShort => Reader([], bytes, true)
    case Bad => Reader([], bytes, false)
    case Overruns => Reader([], bytes, false)
    case Packet(payload, size) =>
      var rest := Parse(bytes[size..], limit);
      Reader([payload] + rest.payloads, rest.kept, rest.open)
  }

  /** A receive: the new bytes go behind those kept. */
  function Receive(r: Reader, bytes: seq<byte>, limit: nat): Reader {
    if !r.open then r else
    var parsed := Parse(r.kept + bytes, limit);
    Reader(r.payloads + parsed.payloads, parsed.kept, parsed.open)
  }

  function ReceiveAll(chunks: seq<seq<byte>>, limit: nat): Reader {
    if chunks == [] then Reader([], [], true)
    else Receive(ReceiveAll(chunks[..|chunks| - 1], limit), chunks[|chunks| - 1], limit)
  }

  function Concat(chunks: seq<seq<byte>>): seq<byte> {
    if chunks == [] then [] else Concat(chunks[..|chunks| - 1]) + chunks[|chunks| - 1]
  }

  function Behind(payloads: seq<seq<byte>>, r: Reader): Reader {
    Reader(payloads + r.payloads, r.kept, r.open)
  }

  lemma ParseOnce(bytes: seq<byte>, limit: nat)
    ensures First(bytes, limit).TooShort? ==> Parse(bytes, limit) == Reader([], bytes, true)
    ensures First(bytes, limit).Bad? || First(bytes, limit).Overruns? ==>
      Parse(bytes, limit) == Reader([], bytes, false)
    ensures
      var v := First(bytes, limit);
      v.Packet? ==> Parse(bytes, limit) == Behind([v.payload], Parse(bytes[v.size..], limit))
  {
  }

  lemma FirstCases(bytes: seq<byte>, limit: nat)
    ensures |bytes| < HEADER_SIZE ==> First(bytes, limit) == TooShort
    ensures |bytes| >= HEADER_SIZE && (bytes[0] != NETWORK_HEADER_CODE || LengthField(bytes) > limit) ==>
      First(bytes, limit) == Bad
    ensures |bytes| >= HEADER_SIZE && bytes[0] == NETWORK_HEADER_CODE && LengthField(bytes) <= limit ==>
      First(bytes, limit) == Complete(bytes, HEADER_SIZE + LengthField(bytes))
  {
    hide Unwire, Value2;
  }

  /** A prefix long enough decides. */
  lemma FirstOfHeader(bytes: seq<byte>, limit: nat)
    requires |bytes| >= HEADER_SIZE
    ensures LengthField(bytes[..HEADER_SIZE]) == LengthField(bytes) && bytes[..HEADER_SIZE][0] == bytes[0]
  {
    hide Value2;
  }

  /** A packet copied to a packet buffer and decoded there. */
  method ReadPacket(wire: seq<byte>) returns (r: Received)
    requires HEADER_SIZE <= |wire| <= HEADER_SIZE + DEFAULT_SIZE && |wire| == HEADER_SIZE + LengthField(wire)
    ensures r == Unwire(wire)
  {
    hide Unwire, Value2;
    var packet := new Serializer();
    packet.Fill(wire);
    var intact := packet.DecodeInPlace();
    if !intact {
      return Damaged;
    }
    var payload := packet.GetPayload();
    r := Intact(payload);
  }

  /** A header is there, the packet is not, and there is no room for more. */
  predicate Clogs(kept: seq<byte>, capacity: nat) { HEADER_SIZE <= |kept| == capacity - 1 }

  /** One round of the packet loop: a whole packet is taken out of the receive buffer. */
  method NextPacket(ring: RingBuffer.RingBuffer, limit: nat) returns (v: Verdict)
    requires ring.Valid()
    modifies ring`front
    ensures ring.Valid()
    ensures
      var first := old(First(ring.Contents(), limit));
      v == if first.TooShort? && Clogs(old(ring.Contents()), ring.capacity) then Bad else first
    ensures v.Packet? ==> ring.Contents() == old(ring.Contents())[v.size..]
    ensures v.TooShort? ==> ring.Contents() == old(ring.Contents())
  {
    hide Unwire, Value2, First, RingBuffer.Between;
    ghost var bytes := ring.Contents();
    FirstCases(bytes, limit);
    if ring.GetUseSize() < HEADER_SIZE {
      return TooShort;
    }
    FirstOfHeader(bytes, limit);
    var _, header := ring.Peek(HEADER_SIZE);
    if header[0] != NETWORK_HEADER_CODE {
      return Bad;
    }
    var length := LengthField(header);
    if length > limit {
      return Bad;
    }
    if ring.GetUseSize() < HEADER_SIZE + length {
      if ring.GetFreeSize() <= 0 {
        return Bad;
      }
      return TooShort;
    }
    if length > DEFAULT_SIZE {
      return Overruns;
    }
    var _, wire := ring.Dequeue(HEADER_SIZE + length);
    assert wire == bytes[..HEADER_SIZE + length];
    FirstOfHeader(wire, limit);
    var received := ReadPacket(wire);
    v := if received.Intact? then Packet(received.payload, HEADER_SIZE + length) else Bad;
  }

  /** The packet loop of NetServer, on its receive buffer. */
  method PacketLoop(ring: RingBuffer.RingBuffer, limit: nat) returns (payloads: seq<seq<byte>>, open: bool)
    requires ring.Valid()
    modifies ring`front
    ensures ring.Valid()
    ensures
      var r := old(Parse(ring.Contents(), limit));
      && payloads == r.payloads && open == (r.open && !Clogs(r.kept, ring.capacity))
      && (open ==> ring.Contents() == r.kept)
  {
    hide First, Parse, RingBuffer.Between;
    ghost var received := ring.Contents();
    payloads := [];
    while true
      invariant ring.Valid()
      invariant Parse(received, limit) == Behind(payloads, Parse(ring.Contents(), limit))
      decreases |ring.Contents()|
    {
      ParseOnce(ring.Contents(), limit);
      var v := NextPacket(ring, limit);
      if !v.Packet? {
        return payloads, v.TooShort?;
      }
      payloads := payloads + [v.payload];
    }
  }

  /** One receive of a connection: its bytes go into the buffer and the packet loop runs. If they fill
      the buffer to the last byte, they are lost with all that was kept. */
  method OnReceived(ring: RingBuffer.RingBuffer, data: seq<byte>, limit: nat) returns (payloads: seq<seq<byte>>,
                    open: bool)
    requires ring.Valid() && |data| <= ring.GetDirectEnqueueSize()
    modifies ring`front, ring`rear, ring.buffer
    ensures ring.Valid()
    ensures
      var r := if |old(ring.Contents())| + |data| < ring.capacity
               then Receive(Reader([], old(ring.Contents()), true), data, limit) else Reader([], [], true);
      && payloads == r.payloads && open == (r.open && !Clogs(r.kept, ring.capacity))
      && (open ==> ring.Contents() == r.kept)
  {
    hide Parse, First, RingBuffer.Between;
    var _ := ring.Receive(data);
    EmptyReader(limit);
    payloads, open := PacketLoop(ring, limit);
  }

  lemma EmptyReader(limit: nat)
    ensures Parse([], limit) == Reader([], [], true)
  {
  }

  /** A session's receives one after the other, from Init's ClearBuffer on, until the stream or the list of sizes
      ends or the connection is closed: recv gives some bytes, at most as many as were offered. As long as no
      receive fills the buffer, what is handed on is what the bytes so far parse to as a whole. */
  method ReceiveStream(ring: RingBuffer.RingBuffer, stream: seq<byte>, sizes: seq<nat>, limit: nat)
    returns (payloads: seq<seq<byte>>, taken: nat, open: bool, filled: bool)
    requires ring.Valid()
    modifies ring`front, ring`rear, ring.buffer
    ensures ring.Valid() && taken <= |stream|
    ensures !filled ==>
      var r := Parse(stream[..taken], limit);
      && payloads == r.payloads && open == (r.open && !Clogs(r.kept, ring.capacity))
          && (open ==> ring.Contents() == r.kept)
      && (!r.open ==> payloads == Parse(stream, limit).payloads && !Parse(stream, limit).open)
    ensures open && !filled && (forall i :: 0 <= i < |sizes| ==> sizes[i] > 0) ==>
      taken == |stream| || taken >= |sizes|
  {
    hide Parse, First, RingBuffer.Between, Clogs;
    ring.ClearBuffer();
    payloads, taken, open, filled := [], 0, true, false;
    EmptyReader(limit);
    NeverClogged(ring.capacity);
    var i := 0;
    while i < |sizes| && taken < |stream| && open && !filled
      invariant ring.Valid() && taken <= |stream| && i <= |sizes|
      invariant (forall j :: 0 <= j < |sizes| ==> sizes[j] > 0) ==> taken >= i
      invariant !filled ==>
        var r := Parse(stream[..taken], limit);
        && payloads == r.payloads && open == (r.open && !Clogs(r.kept, ring.capacity))
            && (open ==> ring.Contents() == r.kept)
      decreases |sizes| - i
    {
      var n := Least(sizes[i], Least(ring.GetDirectEnqueueSize(), |stream| - taken));
      var data := stream[taken..taken + n];
      filled := ring.GetUseSize() + n == ring.capacity;
      ParseSplit(stream[..taken], data, limit);
      assert stream[..taken] + data == stream[..taken + n];
      ghost var kept := ring.Contents();
      var more, listens := OnReceived(ring, data, limit);
      ReceiveIs(kept, data, limit);
      payloads, open, taken, i := payloads + more, listens, taken + n, i + 1;
    }
    ParseSplit(stream[..taken], stream[taken..], limit);
    assert stream[..taken] + stream[taken..] == stream;
  }

  function Least(m: nat, n: nat): nat { if m < n then m else n }

  lemma NeverClogged(capacity: nat)
    ensures !Clogs([], capacity)
  {
  }

  lemma ReceiveIs(kept: seq<byte>, data: seq<byte>, limit: nat)
    ensures Receive(Reader([], kept, true), data, limit) == Parse(kept + data, limit)
  {
    hide Parse;
    var parsed := Parse(kept + data, limit);
    assert [] + parsed.payloads == parsed.payloads;
  }

  /** More bytes do not change a first packet that is there, nor a verdict. */
  lemma FirstStays(a: seq<byte>, b: seq<byte>, limit: nat)
    ensures !First(a, limit).TooShort? ==> First(a + b, limit) == First(a, limit)
  {
    hide Unwire, Value2;
    if HEADER_SIZE <= |a| && HEADER_SIZE + LengthField(a) <= |a| {
      assert (a + b)[..HEADER_SIZE + LengthField(a)] == a[..HEADER_SIZE + LengthField(a)];
    }
  }

  /** Parsing in two goes. */
  lemma {:induction false} ParseSplit(a: seq<byte>, b: seq<byte>, limit: nat)
    ensures
      var whole, first := Parse(a + b, limit), Parse(a, limit);
      if first.open then
        var rest := Parse(first.kept + b, limit);
        whole == Reader(first.payloads + rest.payloads, rest.kept, rest.open)
      else whole.payloads == first.payloads && !whole.open
    decreases |a|
  {
    hide First;
    var v := First(a, limit);
    FirstStays(a, b, limit);
    if v.Packet? {
      ParseSplit(a[v.size..], b, limit);
      assert (a + b)[v.size..] == a[v.size..] + b;
    }
  }

  /** How the network cuts the stream makes no difference to what is delivered, for any bytes at all. */
  lemma {:induction false} ChunksDoNotMatter(chunks: seq<seq<byte>>, limit: nat)
    ensures
      var piecewise, whole := ReceiveAll(chunks, limit), Parse(Concat(chunks), limit);
      && piecewise.payloads == whole.payloads && piecewise.open == whole.open
      && (whole.open ==> piecewise.kept == whole.kept)
  {
    if chunks != [] {
      var n := |chunks| - 1;
      ChunksDoNotMatter(chunks[..n], limit);
      ParseSplit(Concat(chunks[..n]), chunks[n], limit);
    }
  }

  /** The bytes kept are less than one packet: if the longest fits in the receive buffer with a slot to spare,
      they never clog it. */
  lemma {:induction false} KeptIsShort(bytes: seq<byte>, limit: nat)
    ensures
      var r := Parse(bytes, limit);
      r.open ==> |r.kept| < HEADER_SIZE + limit && forall capacity: nat :: HEADER_SIZE + limit < capacity ==>
        !Clogs(r.kept, capacity)
    decreases |bytes|
  {
    var v := First(bytes, limit);
    if v.Packet? {
      KeptIsShort(bytes[v.size..], limit);
    }
  }

  /** The stream of packets sent one after the other. */
  function WireAll(payloads: seq<seq<byte>>, keys: seq<byte>): seq<byte>
    requires |keys| == |payloads|
  {
    if payloads == [] then [] else Wire(payloads[0], keys[0]) + WireAll(payloads[1..], keys[1..])
  }

  lemma FirstOfWire(payload: seq<byte>, key: byte, more: seq<byte>, limit: nat)
    requires |payload| <= limit < 0xFFFF && |payload| <= DEFAULT_SIZE
    ensures First(Wire(payload, key) + more, limit) == Packet(payload, HEADER_SIZE + |payload|)
  {
    UnwireWire(payload, key);
    var wire := Wire(payload, key);
    assert wire[0] == NETWORK_HEADER_CODE;
    hide Wire, Unwire, Value2;
    assert wire[..HEADER_SIZE + LengthField(wire)] == wire;
    assert First(wire, limit) == Packet(payload, HEADER_SIZE + |payload|);
    FirstStays(wire, more, limit);
  }

  lemma {:induction false} ParseWire(payloads: seq<seq<byte>>, keys: seq<byte>, limit: nat)
    requires |keys| == |payloads| && limit < 0xFFFF
    requires forall i :: 0 <= i < |payloads| ==> |payloads[i]| <= limit && |payloads[i]| <= DEFAULT_SIZE
    ensures Parse(WireAll(payloads, keys), limit) == Reader(payloads, [], true)
  {
    if payloads != [] {
      var more := WireAll(payloads[1..], keys[1..]);
      FirstOfWire(payloads[0], keys[0], more, limit);
      ParseWire(payloads[1..], keys[1..], limit);
      hide First, Wire;
      assert (Wire(payloads[0], keys[0]) + more)[HEADER_SIZE + |payloads[0]|..] == more;
      assert payloads == [payloads[0]] + payloads[1..];
    }
  }

  /** Packets sent arrive: under any keys and any cutting of the stream, the receiver hands on exactly
      the payloads sent, in order, and keeps nothing. */
  lemma SentIsReceived(payloads: seq<seq<byte>>, keys: seq<byte>, chunks: seq<seq<byte>>, limit: nat)
    requires |keys| == |payloads| && limit < 0xFFFF
    requires forall i :: 0 <= i < |payloads| ==> |payloads[i]| <= limit && |payloads[i]| <= DEFAULT_SIZE
    requires Concat(chunks) == WireAll(payloads, keys)
    ensures ReceiveAll(chunks, limit) == Reader(payloads, [], true)
  {
    ParseWire(payloads, keys, limit);
    ChunksDoNotMatter(chunks, limit);
  }
}
