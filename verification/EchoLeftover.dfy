/** What a client reads behind bytes that an earlier connection left in its receive buffer: after some it is
    handed no packet any more, after others it can be handed one with a tick that nobody sent. */
module EchoLeftover {
  import opened EchoModel
  import opened PacketCodec
  import Framing

  // ---- Packets with a tick ----

  lemma WireBegins(tick: nat, key: byte)
    ensures TickWire(tick, key)[..4] == [NETWORK_HEADER_CODE, 4, 0, key]
  {
    hide Encode, CheckSum;
  }

  lemma LengthFour(bytes: seq<byte>)
    requires |bytes| >= HEADER_SIZE && bytes[1] == 4 && bytes[2] == 0
    ensures LengthField(bytes) == 4
  {
  }

  /** With nothing left in the receive buffer a packet is read as it was sent. */
  lemma ReadsTick(tick: nat, key: byte)
    requires tick < TWO_POW_32
    ensures Read([], tick, key) == Delivers(tick, [])
  {
    var payload := Bytes4(tick);
    Framing.FirstOfWire(payload, key, [], 0xFFFF - 1);
    hide Wire, Bytes4, Framing.First;
    LimitIrrelevant(TickWire(tick, key));
    assert TickWire(tick, key) + [] == TickWire(tick, key) && [] + TickWire(tick, key) == TickWire(tick, key);
    Value4Bytes4(tick);
    assert payload[..4] == payload;
  }

  /** Bytes that begin no whole packet are kept while a slot of the buffer of 8192 stays free beyond the one that always
      does. */
  lemma WaitsExactly(kept: seq<byte>, tick: nat, key: byte)
    requires Framing.First(kept + TickWire(tick, key), 0xFFFF).TooShort?
    ensures Read(kept, tick, key) ==
      if |kept| + 9 < 8191 then Waits(kept + TickWire(tick, key)) else Stops
    ensures Incomplete(kept + TickWire(tick, key)) <==> |kept| + 9 < 8191
  {
    hide Framing.First;
  }

  /** The limit that no length field exceeds. */
  lemma LimitIrrelevant(bytes: seq<byte>)
    ensures Framing.First(bytes, 0xFFFF - 1).Packet? ==>
      Framing.First(bytes, 0xFFFF) == Framing.First(bytes, 0xFFFF - 1)
  {
    hide Unwire, Value2;
  }

  /** What is read when the bytes left are completed to nine that begin like a packet with a tick. */
  lemma ReadsNine(kept: seq<byte>, tick: nat, key: byte, nine: seq<byte>)
    requires |nine| == TICK_PACKET && nine[..3] == [NETWORK_HEADER_CODE, 4, 0]
    requires nine <= kept + TickWire(tick, key)
    ensures
      match Unwire(nine)
      case Intact(payload) =>
        |payload| == 4 && Read(kept, tick, key).Delivers? && Read(kept, tick, key).tick == Value4(payload)
      case Damaged => Read(kept, tick, key).Stops?
  {
    hide TickWire, Unwire, Value2, Value4;
    var bytes := kept + TickWire(tick, key);
    assert nine == bytes[..TICK_PACKET];
    assert bytes[0] == nine[0] && bytes[1] == nine[1] && bytes[2] == nine[2];
    LengthFour(bytes);
    PayloadOfNine(nine);
    Framing.FirstCases(bytes, 0xFFFF);
  }

  lemma PayloadOfNine(nine: seq<byte>)
    requires |nine| == TICK_PACKET
    ensures Unwire(nine).Intact? ==> |Unwire(nine).payload| == 4 && Unwire(nine).payload[..4] == Unwire(nine).payload
  {
    hide CheckSum;
  }

  // ---- Bytes after which nothing is read ----

  /** More bytes, which begin like a packet with a tick, do not help. */
  lemma SwallowsMore(bytes: seq<byte>, more: seq<byte>)
    requires Swallows(bytes) && more != [] && more[0] == NETWORK_HEADER_CODE && (|more| >= 2 ==> more[1] == 4)
    ensures Swallows(bytes + more)
  {
    var all := bytes + more;
    assert all[0] == bytes[0];
    if |bytes| == 1 {
      assert |all| > 2 ==> all[1] == more[0] && all[2] == more[1];
    } else if |bytes| == 2 {
      assert all[2] == more[0];
    } else {
      assert all[1] == bytes[1] && all[2] == bytes[2];
    }
  }

  lemma SwallowsReads(kept: seq<byte>, tick: nat, key: byte)
    requires Swallows(kept)
    ensures
      var r := Read(kept, tick, key);
      r.Stops? || (r == Waits(kept + TickWire(tick, key)) && Swallows(r.bytes))
  {
    WireBegins(tick, key);
    hide TickWire;
    var wire := TickWire(tick, key);
    assert wire[0] == wire[..4][0] && wire[1] == wire[..4][1];
    SwallowsMore(kept, wire);
    hide Unwire, Value2;
    var bytes := kept + wire;
    assert LengthField(bytes) > DEFAULT_SIZE;
    Framing.FirstCases(bytes, 0xFFFF);
  }

  lemma MisreadBegins(kept: seq<byte>, tick: nat, key: byte)
    requires 6 <= |kept| < TICK_PACKET && kept[..3] == [NETWORK_HEADER_CODE, 4, 0]
    ensures Misread(kept) <= kept + TickWire(tick, key) && Misread(kept)[..3] == [NETWORK_HEADER_CODE, 4, 0]
  {
    WireBegins(tick, key);
    hide TickWire;
    var wire, n := TickWire(tick, key), TICK_PACKET - |kept|;
    assert wire[..n] == wire[..4][..n];
    assert kept + wire == kept + wire[..n] + wire[n..];
    assert Misread(kept)[..3] == kept[..3];
  }

  /** A client with such bytes in its buffer is handed nothing, and keeps such bytes. */
  lemma DeafReads(kept: seq<byte>, tick: nat, key: byte)
    requires Deafens(kept)
    ensures var r := Read(kept, tick, key); r.Stops? || (r.Waits? && r.bytes != [] && Deafens(r.bytes))
  {
    hide Read, TickWire, Misread, Unwire;
    if Swallows(kept) {
      SwallowsReads(kept, tick, key);
    } else {
      MisreadBegins(kept, tick, key);
      ReadsNine(kept, tick, key, Misread(kept));
    }
  }

  // ---- Bytes that mislead ----

  /** Some packet that may come next is read as one with another tick. */
  ghost predicate Misleads(bytes: seq<byte>) {
    exists tick: nat, key :: tick < TWO_POW_32 && Read(bytes, tick, key).Delivers?
      && Read(bytes, tick, key).tick != tick
  }

  /** Two packets that are read alike cannot both be read as what they are. */
  lemma AlikeMislead(kept: seq<byte>, tick: nat, tick': nat, key: byte, nine: seq<byte>)
    requires tick < TWO_POW_32 && tick' < TWO_POW_32 && tick != tick'
    requires |nine| == TICK_PACKET && nine[..3] == [NETWORK_HEADER_CODE, 4, 0] && Unwire(nine).Intact?
    requires nine <= kept + TickWire(tick, key) && nine <= kept + TickWire(tick', key)
    ensures Misleads(kept)
  {
    hide Read, TickWire, Unwire, Value4;
    ReadsNine(kept, tick, key, nine);
    ReadsNine(kept, tick', key, nine);
    assert Read(kept, tick, key).tick != tick || Read(kept, tick', key).tick != tick';
  }

  /** Most of a packet jams the client or misleads it, and the check tells which. */
  lemma JamsOrMisleads(kept: seq<byte>)
    requires 6 <= |kept| < TICK_PACKET && kept[..3] == [NETWORK_HEADER_CODE, 4, 0]
    ensures Misleads(kept) <==> Unwire(Misread(kept)).Intact?
    ensures Deafens(kept) <==> Unwire(Misread(kept)).Damaged?
  {
    NotSwallowed(kept);
    hide Read, TickWire, Misread, Unwire, Swallows;
    MisreadBegins(kept, 0, 0);
    MisreadBegins(kept, 1, 0);
    if Unwire(Misread(kept)).Intact? {
      AlikeMislead(kept, 0, 1, 0, Misread(kept));
    } else {
      DeafIsHarmless(kept);
    }
  }

  lemma NotSwallowed(kept: seq<byte>)
    requires |kept| >= 3 && kept[..3] == [NETWORK_HEADER_CODE, 4, 0]
    ensures !Swallows(kept)
  {
    assert kept[1] == kept[..3][1] && kept[2] == kept[..3][2];
  }

  lemma DeafIsHarmless(kept: seq<byte>)
    requires Deafens(kept)
    ensures !Misleads(kept)
  {
    hide Read, Deafens;
    forall tick: nat, key | tick < TWO_POW_32
      ensures !Read(kept, tick, key).Delivers?
    {
      DeafReads(kept, tick, key);
    }
  }

  /** Any four bytes can be completed to an encoded checksum and payload that pass the check. */
  lemma FifthByte(key: byte, head: seq<byte>) returns (last: byte)
    requires |head| == 4
    ensures Unwire([NETWORK_HEADER_CODE, 4, 0, key] + head + [last]).Intact?
  {
    hide Encode, Decode, CheckSum, KeyOfData, KeyOfCode;
    var d := Decode(head, key);
    EncodeDecode(head, key);
    var e := SumByte(d[1..], d[0]);
    var data := d + [e];
    EncodePrefix(data, key, 4);
    assert data[..4] == d && data[1..] == d[1..] + [e];
    last := Encode(data, key)[4];
    DecodeEncode(data, key);
    var bytes := [NETWORK_HEADER_CODE, 4, 0, key] + head + [last];
    assert Encode(data, key) == Encode(data, key)[..4] + [last];
    assert bytes[4..] == Encode(data, key) && bytes[3] == key;
  }

  /** The byte that makes a checksum what it is to be. */
  lemma SumByte(payload: seq<byte>, sum: byte) returns (last: byte)
    ensures CheckSum(payload + [last]) == sum
  {
    last := Low8(256 + sum - CheckSum(payload));
    assert (payload + [last])[..|payload|] == payload;
  }

  /** A tick whose packet has two given bytes behind the header's first four; `high` tells two of them apart. */
  lemma TickWith(first: byte, second: byte, high: byte) returns (tick: nat)
    ensures tick < TWO_POW_32 && tick / 0x100_0000 == high
    ensures TickWire(tick, 0)[..6] == [NETWORK_HEADER_CODE, 4, 0, 0, first, second]
  {
    hide Encode, Decode, CheckSum, KeyOfData, KeyOfCode, TickWire;
    var d := Decode([first, second], 0);
    EncodeDecode([first, second], 0);
    var middle := SumByteBefore([d[1], 0], high, d[0]);
    var payload := [d[1], 0, middle, high];
    tick := TickOf(payload);
    WireOf(tick, payload, 0);
    WireBegins(tick, 0);
    var data := [d[0]] + payload;
    EncodePrefix(data, 0, 2);
    assert data[..2] == d;
    var wire := TickWire(tick, 0);
    assert wire[..6] == wire[..4] + wire[4..][..2];
  }

  lemma SumByteBefore(payload: seq<byte>, last: byte, sum: byte) returns (middle: byte)
    requires |payload| == 2
    ensures CheckSum([payload[0], payload[1], middle, last]) == sum
  {
    var rest := Low8(256 + sum - last);
    middle := SumByte(payload, rest);
    assert payload + [middle] == [payload[0], payload[1], middle];
    assert [payload[0], payload[1], middle, last][..3] == payload + [middle];
    assert CheckSum([payload[0], payload[1], middle, last]) == Low8(rest + last);
  }

  lemma TickOf(payload: seq<byte>) returns (tick: nat)
    requires |payload| == 4
    ensures tick < TWO_POW_32 && Bytes4(tick) == payload && tick / 0x100_0000 == payload[3]
  {
    var low, high := Value2(payload[0], payload[1]), Value2(payload[2], payload[3]);
    Bytes2Value2(payload[0], payload[1]);
    Bytes2Value2(payload[2], payload[3]);
    tick := low + 0x1_0000 * high;
    assert tick % 0x1_0000 == low && tick / 0x1_0000 == high;
    assert high / 0x100 == payload[3];
    hide Value2, Bytes2;
    assert tick / 0x100_0000 == high / 0x100;
  }

  lemma Bytes2Value2(low: byte, high: byte)
    ensures Value2(low, high) < 0x1_0000 && Bytes2(Value2(low, high)) == [low, high]
  {
  }

  lemma WireOf(tick: nat, payload: seq<byte>, key: byte)
    requires Bytes4(tick) == payload
    ensures TickWire(tick, key)[4..] == Encode([CheckSum(payload)] + payload, key)
  {
    PlainFields(payload, key);
    hide Plain, Encode, CheckSum, Bytes4;
  }

  /** Three to five bytes always mislead: what follows them can be chosen to pass the check. */
  lemma ShortMisleads(tick: nat, key: byte, cut: nat)
    requires 3 <= cut <= 5
    ensures Misleads(TickWire(tick, key)[..cut])
  {
    WireBegins(tick, key);
    hide TickWire, Misleads, Unwire;
    var wire := TickWire(tick, key);
    if cut == 3 {
      assert wire[..3] == wire[..4][..3] == [NETWORK_HEADER_CODE, 4, 0];
      ThreeMislead();
    } else if cut == 4 {
      FourMislead(key);
    } else {
      assert wire[..5] == wire[..4] + [wire[4]] == [NETWORK_HEADER_CODE, 4, 0, key, wire[4]];
      FiveMislead(key, wire[4]);
    }
  }

  /** The key of the next packet completes them. */
  lemma FiveMislead(key: byte, first: byte)
    ensures Misleads([NETWORK_HEADER_CODE, 4, 0, key, first])
  {
    hide TickWire, Misleads, Unwire;
    var kept := [NETWORK_HEADER_CODE, 4, 0, key, first];
    var last := FifthByte(key, [first, NETWORK_HEADER_CODE, 4, 0]);
    var nine := [NETWORK_HEADER_CODE, 4, 0, key] + [first, NETWORK_HEADER_CODE, 4, 0] + [last];
    WireBegins(0, last);
    WireBegins(1, last);
    assert kept + TickWire(0, last)[..4] == nine && kept + TickWire(1, last)[..4] == nine;
    Begins(kept, TickWire(0, last), 4);
    Begins(kept, TickWire(1, last), 4);
    AlikeMislead(kept, 0, 1, last, nine);
  }

  lemma Begins(kept: seq<byte>, wire: seq<byte>, k: nat)
    requires k <= |wire|
    ensures kept + wire[..k] <= kept + wire
  {
    assert kept + wire == kept + wire[..k] + wire[k..];
  }

  /** The encoded checksum of the next packet completes them. */
  lemma FourMislead(key: byte)
    ensures Misleads([NETWORK_HEADER_CODE, 4, 0, key])
  {
    hide TickWire, Misleads, Unwire;
    var kept := [NETWORK_HEADER_CODE, 4, 0, key];
    var last := FifthByte(key, [NETWORK_HEADER_CODE, 4, 0, 0]);
    var nine := [NETWORK_HEADER_CODE, 4, 0, key] + [NETWORK_HEADER_CODE, 4, 0, 0] + [last];
    var tick := TickWith(last, 0, 0);
    var tick' := TickWith(last, 0, 1);
    Continues(kept, tick, 5, nine);
    Continues(kept, tick', 5, nine);
    AlikeMislead(kept, tick, tick', 0, nine);
  }

  lemma Continues(kept: seq<byte>, tick: nat, k: nat, nine: seq<byte>)
    requires k <= 6 && kept + TickWire(tick, 0)[..6][..k] == nine
    ensures nine <= kept + TickWire(tick, 0)
  {
    hide TickWire;
    assert TickWire(tick, 0)[..6][..k] == TickWire(tick, 0)[..k];
    Begins(kept, TickWire(tick, 0), k);
  }

  /** The first encoded byte of the next packet's tick completes them. */
  lemma ThreeMislead()
    ensures Misleads([NETWORK_HEADER_CODE, 4, 0])
  {
    hide TickWire, Misleads, Unwire;
    var kept: seq<byte> := [NETWORK_HEADER_CODE, 4, 0];
    var last := FifthByte(NETWORK_HEADER_CODE, [4, 0, 0, 0]);
    var nine := [NETWORK_HEADER_CODE, 4, 0, NETWORK_HEADER_CODE] + [4, 0, 0, 0] + [last];
    var tick := TickWith(0, last, 0);
    var tick' := TickWith(0, last, 1);
    Continues(kept, tick, 6, nine);
    Continues(kept, tick', 6, nine);
    AlikeMislead(kept, tick, tick', 0, nine);
  }

  // ---- Exactly when ----

  /** What part of a packet with a tick does in an empty receive buffer: one or two bytes deafen the client, three
      to five mislead it, and from six on the check of the nine bytes read decides. */
  lemma CutExactly(tick: nat, key: byte, cut: nat)
    requires 0 < cut < TICK_PACKET
    ensures
      var kept := TickWire(tick, key)[..cut];
      && (Misleads(kept) <==> 3 <= cut <= 5 || (cut >= 6 && Unwire(Misread(kept)).Intact?))
      && (Deafens(kept) <==> !Misleads(kept))
  {
    WireBegins(tick, key);
    hide TickWire, Unwire, Misread, Misleads;
    var wire, kept := TickWire(tick, key), TickWire(tick, key)[..cut];
    if cut <= 2 {
      assert kept == wire[..4][..cut];
      DeafIsHarmless(kept);
    } else {
      assert kept[..3] == wire[..4][..3];
      if cut <= 5 {
        ShortMisleads(tick, key, cut);
        NotSwallowed(kept);
      } else {
        JamsOrMisleads(kept);
      }
    }
  }

  /** The same behind bytes left by tame drops: what a drop leaves deafens the client or misleads it. */
  lemma LeftExactly(kept: seq<byte>, tick: nat, key: byte, cut: nat)
    requires 0 < cut < TICK_PACKET && (kept == [] || Deafens(kept))
    requires Incomplete(kept + TickWire(tick, key)[..cut])
    ensures var left := kept + TickWire(tick, key)[..cut]; Deafens(left) <==> !Misleads(left)
  {
    var part := TickWire(tick, key)[..cut];
    WireBegins(tick, key);
    assert part[0] == TickWire(tick, key)[..4][0];
    assert cut >= 2 ==> part[1] == TickWire(tick, key)[..4][1];
    hide TickWire, Unwire, Misread, Misleads;
    if kept == [] {
      assert kept + part == part;
      CutExactly(tick, key, cut);
    } else if Swallows(kept) {
      SwallowsMore(kept, part);
      DeafIsHarmless(kept + part);
    } else {
      JammedStaysShort(kept, part);
      JamsOrMisleads(kept + part);
    }
  }

  lemma JammedStaysShort(kept: seq<byte>, part: seq<byte>)
    requires |kept| >= 6 && kept[..3] == [NETWORK_HEADER_CODE, 4, 0] && Incomplete(kept + part)
    ensures |kept + part| < TICK_PACKET && (kept + part)[..3] == [NETWORK_HEADER_CODE, 4, 0]
  {
    hide Unwire, Value2;
    var bytes := kept + part;
    assert bytes[..3] == kept[..3];
    assert bytes[0] == bytes[..3][0] && bytes[1] == bytes[..3][1] && bytes[2] == bytes[..3][2];
    LengthFour(bytes);
    Framing.FirstCases(bytes, 0xFFFF);
  }

  // ---- A buffer that fills up ----

  /** Under any key, and for any first byte, some packet ends in four bytes that mislead. A deaf client whose buffer
      has room for just the five bytes before them loses all it holds when it receives these (RingBuffer.Receive),
      and keeps the four. */
  lemma EndsMisleading(first: byte, key: byte) returns (tick: nat)
    ensures tick < TWO_POW_32 && TickWire(tick, key)[4] == first && Misleads(TickWire(tick, key)[5..])
  {
    hide Encode, Decode, CheckSum, KeyOfData, KeyOfCode, TickWire, Misleads, Value2;
    var head := [first, NETWORK_HEADER_CODE, 4, 0];
    var last := FifthByte(key, head);
    var bytes := [NETWORK_HEADER_CODE, 4, 0, key] + head + [last];
    var code := head + [last];
    assert bytes[4..] == code && bytes[3] == key;
    var data := Decode(code, key);
    EncodeDecode(code, key);
    assert data[0] == CheckSum(data[1..]);
    tick := TickOf(data[1..]);
    WireOf(tick, data[1..], key);
    assert [CheckSum(data[1..])] + data[1..] == data;
    var wire := TickWire(tick, key);
    assert wire[4..] == code;
    assert wire[5..] == wire[4..][1..] == [NETWORK_HEADER_CODE, 4, 0, last];
    FourMislead(last);
  }
}
