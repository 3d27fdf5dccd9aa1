/** The packet format of Serializer.h: a five-byte header, then the payload. The last header byte, the
    checksum, and the payload are encoded together, each byte depending on the ones before it. */
module PacketCodec {

  type byte = n: nat | n < 256

  const NETWORK_HEADER_CODE: byte := 0x77
  const NETWORK_HEADER_FIXED_KEY: byte := 0x32
  const HEADER_SIZE: nat := 5
  const DEFAULT_SIZE: nat := 1000

  /** Truncation to uint8_t. */
  function Low8(n: nat): byte { n % 256 }

  /** Exclusive or, bit by bit. */
  function BitXor(x: nat, y: nat): nat {
    if x == 0 && y == 0 then 0 else 2 * BitXor(x / 2, y / 2) + if x % 2 == y % 2 then 0 else 1
  }

  function Power2(bits: nat): nat { if bits == 0 then 1 else 2 * Power2(bits - 1) }

  lemma {:induction false} BitXorBound(bits: nat, x: nat, y: nat)
    requires x < Power2(bits) && y < Power2(bits)
    ensures BitXor(x, y) < Power2(bits)
  {
    if bits > 0 {
      BitXorBound(bits - 1, x / 2, y / 2);
    }
  }

  lemma BitXorStep(x: nat, y: nat, a: nat, b: nat)
    requires a < 2 && b < 2
    ensures BitXor(2 * x + a, 2 * y + b) == 2 * BitXor(x, y) + if a == b then 0 else 1
  {
  }

  lemma {:induction false} BitXorTwice(x: nat, y: nat)
    ensures BitXor(BitXor(x, y), y) == x
    decreases x + y
  {
    if x != 0 || y != 0 {
      hide BitXor;
      var a, b := x % 2, y % 2;
      BitXorTwice(x / 2, y / 2);
      BitXorStep(x / 2, y / 2, a, b);
      BitXorStep(BitXor(x / 2, y / 2), y / 2, if a == b then 0 else 1, b);
    } else {
      assert BitXor(0, 0) == 0;
    }
  }

  function Xor(x: byte, y: byte): byte {
    assert Power2(8) == 256 by {
      assert Power2(4) == 16;
    }
    BitXorBound(8, x, y);
    BitXor(x, y)
  }

  /** The mask of position i: the previous value, a key and the position, summed. */
  function Mask(previous: byte, key: byte, i: nat): byte { Low8(previous + key + i + 1) }

  function LastOf(s: seq<byte>): byte { if s == [] then 0 else s[|s| - 1] }

  // ---- The two chains ----

  /** nextRandKey after the bytes of `data`. */
  function KeyOfData(data: seq<byte>, key: byte): byte {
    if data == [] then 0 else
    var n := |data| - 1;
    Xor(data[n], Mask(KeyOfData(data[..n], key), key, n))
  }

  function Encode(data: seq<byte>, key: byte): (code: seq<byte>)
    ensures |code| == |data|
  {
    if data == [] then [] else
    var n := |data| - 1;
    var before := Encode(data[..n], key);
    before + [Xor(KeyOfData(data, key), Mask(LastOf(before), NETWORK_HEADER_FIXED_KEY, n))]
  }

  /** currentRandKey after the bytes of `code`: it does not depend on the key. */
  function KeyOfCode(code: seq<byte>): byte {
    if code == [] then 0 else
    var n := |code| - 1;
    Xor(code[n], Mask(LastOf(code[..n]), NETWORK_HEADER_FIXED_KEY, n))
  }

  function Decode(code: seq<byte>, key: byte): (data: seq<byte>)
    ensures |data| == |code|
  {
    if code == [] then [] else
    var n := |code| - 1;
    Decode(code[..n], key) + [Xor(KeyOfCode(code), Mask(KeyOfCode(code[..n]), key, n))]
  }

  lemma XorTwice(x: byte, y: byte)
    ensures Xor(Xor(x, y), y) == x
  {
    BitXorTwice(x, y);
  }

  /** Decoding undoes encoding, for every key. */
  lemma {:induction false} DecodeEncode(data: seq<byte>, key: byte)
    ensures KeyOfCode(Encode(data, key)) == KeyOfData(data, key)
    ensures Decode(Encode(data, key), key) == data
  {
    if data != [] {
      var n := |data| - 1;
      var code, before := Encode(data, key), Encode(data[..n], key);
      DecodeEncode(data[..n], key);
      assert code[..n] == before;
      hide Xor, Mask;
      XorTwice(KeyOfData(data, key), Mask(LastOf(before), NETWORK_HEADER_FIXED_KEY, n));
      XorTwice(data[n], Mask(KeyOfData(data[..n], key), key, n));
      assert data == data[..n] + [data[n]];
    }
  }

  /** Every text is the encoding of some data: encoding is one-to-one and onto. */
  lemma {:induction false} EncodeDecode(code: seq<byte>, key: byte)
    ensures KeyOfData(Decode(code, key), key) == KeyOfCode(code)
    ensures Encode(Decode(code, key), key) == code
  {
    if code != [] {
      var n := |code| - 1;
      var data, before := Decode(code, key), Decode(code[..n], key);
      EncodeDecode(code[..n], key);
      assert data[..n] == before;
      hide Xor, Mask;
      XorTwice(KeyOfCode(code), Mask(KeyOfCode(code[..n]), key, n));
      XorTwice(code[n], Mask(LastOf(code[..n]), NETWORK_HEADER_FIXED_KEY, n));
      assert code == code[..n] + [code[n]];
    }
  }

  lemma {:induction false} EncodePrefix(data: seq<byte>, key: byte, k: nat)
    requires k <= |data|
    ensures Encode(data[..k], key) == Encode(data, key)[..k]
    decreases |data|
  {
    if k < |data| {
      var n := |data| - 1;
      EncodePrefix(data[..n], key, k);
      assert data[..n][..k] == data[..k];
    } else {
      assert data[..k] == data;
    }
  }

  lemma {:induction false} DecodePrefix(code: seq<byte>, key: byte, k: nat)
    requires k <= |code|
    ensures Decode(code[..k], key) == Decode(code, key)[..k]
  {
    if k < |code| {
      var n := |code| - 1;
      DecodePrefix(code[..n], key, k);
      assert code[..n][..k] == code[..k];
    } else {
      assert code[..k] == code && Decode(code, key)[..k] == Decode(code, key);
    }
  }

  /** Damage does not spread: a decoded byte depends on its own encoded byte and the two before it. */
  lemma DecodeIsLocal(c: seq<byte>, d: seq<byte>, key: byte, j: nat)
    requires j < |c| && j < |d|
    requires forall i :: 0 <= i <= j && j <= i + 2 ==> c[i] == d[i]
    ensures Decode(c, key)[j] == Decode(d, key)[j]
  {
    hide Decode, KeyOfCode, Xor, Mask;
    DecodedAt(c, key, j);
    DecodedAt(d, key, j);
    KeyIsLocal(c, d, j);
    KeyIsLocal(c, d, j + 1);
  }

  lemma DecodedAt(code: seq<byte>, key: byte, j: nat)
    requires j < |code|
    ensures Decode(code, key)[j] == Xor(KeyOfCode(code[..j + 1]), Mask(KeyOfCode(code[..j]), key, j))
  {
    hide Xor, Mask, KeyOfCode;
    DecodePrefix(code, key, j + 1);
    assert code[..j + 1][..j] == code[..j];
  }

  /** The running key depends on the last two bytes. */
  lemma KeyIsLocal(c: seq<byte>, d: seq<byte>, n: nat)
    requires n <= |c| && n <= |d| && forall i :: 0 <= i < n <= i + 2 ==> c[i] == d[i]
    ensures KeyOfCode(c[..n]) == KeyOfCode(d[..n])
  {
    hide Xor, Mask;
    if n > 0 {
      assert c[..n][..n - 1] == c[..n - 1] && d[..n][..n - 1] == d[..n - 1];
    }
  }

  /** One more byte, as the two loops do it. */
  lemma EncodeNext(data: seq<byte>, key: byte, i: nat)
    requires i < |data|
    ensures KeyOfData(data[..i + 1], key) == Xor(data[i], Mask(KeyOfData(data[..i], key), key, i))
    ensures Encode(data[..i + 1], key) == Encode(data[..i], key) +
      [Xor(KeyOfData(data[..i + 1], key), Mask(LastOf(Encode(data[..i], key)), NETWORK_HEADER_FIXED_KEY, i))]
  {
    assert data[..i + 1][..i] == data[..i];
  }

  lemma DecodeNext(code: seq<byte>, key: byte, i: nat)
    requires i < |code|
    ensures KeyOfCode(code[..i + 1]) == Xor(code[i], Mask(LastOf(code[..i]), NETWORK_HEADER_FIXED_KEY, i))
    ensures Decode(code[..i + 1], key) == Decode(code[..i],
      key) + [Xor(KeyOfCode(code[..i + 1]), Mask(KeyOfCode(code[..i]), key, i))]
    ensures LastOf(code[..i + 1]) == code[i]
  {
    assert code[..i + 1][..i] == code[..i];
  }

  // ---- A packet on the wire ----

  /** A 16-bit value as a little-endian processor stores it. */
  function Bytes2(v: nat): (bytes: seq<byte>)
    ensures |bytes| == 2
  {
    [Low8(v), Low8(v / 0x100)]
  }

  function Value2(low: byte, high: byte): nat { low as nat + 0x100 * high as nat }

  lemma Value2Bytes2(v: nat)
    requires v < 0x1_0000
    ensures Value2(Bytes2(v)[0], Bytes2(v)[1]) == v
  {
  }

  function CheckSum(payload: seq<byte>): byte {
    if payload == [] then 0 else Low8(CheckSum(payload[..|payload| - 1]) + payload[|payload| - 1])
  }

  /** The packet before encoding. */
  function Plain(payload: seq<byte>, key: byte): (bytes: seq<byte>)
    ensures |bytes| == HEADER_SIZE + |payload|
  {
    var length := Bytes2(|payload|);
    [NETWORK_HEADER_CODE, length[0], length[1], key, CheckSum(payload)] + payload
  }

  /** What prepareSend leaves in the full buffer: all but the first four bytes encoded. */
  function Wire(payload: seq<byte>, key: byte): (bytes: seq<byte>)
    ensures |bytes| == HEADER_SIZE + |payload|
  {
    Plain(payload, key)[..4] + Encode(Plain(payload, key)[4..], key)
  }

  lemma PlainLength(payload: seq<byte>, key: byte)
    requires |payload| < 0x1_0000
    ensures LengthField(Plain(payload, key)) == |payload|
  {
    Value2Bytes2(|payload|);
    hide Bytes2, Value2, CheckSum;
  }

  lemma PlainFields(payload: seq<byte>, key: byte)
    ensures Plain(payload, key)[3] == key && Plain(payload, key)[4..] == [CheckSum(payload)] + payload
  {
    hide Bytes2, CheckSum;
  }

  function LengthField(bytes: seq<byte>): nat
    requires |bytes| >= HEADER_SIZE
  {
    Value2(bytes[1], bytes[2])
  }

  datatype Received = Intact(payload: seq<byte>) | Damaged

  /** decode() on a packet whose header says it is as long as it is. */
  function Unwire(bytes: seq<byte>): Received
    requires |bytes| >= HEADER_SIZE
  {
    var data := Decode(bytes[4..], bytes[3]);
    if data[0] == CheckSum(data[1..]) then Intact(data[1..]) else Damaged
  }

  /** The check, on the packet decoded in place. */
  lemma AfterDecode(wire: seq<byte>, plain: seq<byte>)
    requires |wire| >= HEADER_SIZE && plain == wire[..4] + Decode(wire[4..], wire[3])
    ensures Unwire(wire) == if plain[4] == CheckSum(plain[5..]) then Intact(plain[5..]) else Damaged
  {
    hide Decode, CheckSum;
    var data := Decode(wire[4..], wire[3]);
    assert plain[4] == data[0] && plain[5..] == data[1..];
  }

  /** Every payload comes back from the wire, whatever the key, and passes the check, if its length
      plus one still fits in the 16 bits of the loop bound. */
  lemma UnwireWire(payload: seq<byte>, key: byte)
    requires |payload| < 0xFFFF
    ensures LengthField(Wire(payload, key)) == |payload|
    ensures Unwire(Wire(payload, key)) == Intact(payload)
  {
    var data := [CheckSum(payload)] + payload;
    DecodeEncode(data, key);
    PlainFields(payload, key);
    PlainLength(payload, key);
    hide Encode, Decode, CheckSum, Value2, Plain;
    assert Wire(payload, key)[4..] == Encode(data, key);
    assert data[1..] == payload;
  }

  // ---- The tick in a packet ----

  /** A 32-bit value as a little-endian processor stores it. */
  function Bytes4(v: nat): (bytes: seq<byte>)
    ensures |bytes| == 4
  {
    Bytes2(v % 0x1_0000) + Bytes2(v / 0x1_0000)
  }

  function Value4(bytes: seq<byte>): nat
    requires |bytes| == 4
  {
    Value2(bytes[0], bytes[1]) + 0x1_0000 * Value2(bytes[2], bytes[3])
  }

  lemma Value4Bytes4(v: nat)
    requires v < 0x1_0000_0000
    ensures Value4(Bytes4(v)) == v
  {
    Value2Bytes2(v % 0x1_0000);
    Value2Bytes2(v / 0x1_0000);
    hide Value2, Bytes2;
  }

  /** The round of the echo test: the server decodes the client's packet and sends its payload again
      under another key; the client reads the tick it sent. */
  lemma TickSurvivesRound(tick: nat, clientKey: byte, serverKey: byte)
    requires tick < 0x1_0000_0000
    ensures
      var atServer := Unwire(Wire(Bytes4(tick), clientKey));
      && atServer.Intact? && |atServer.payload| == 4
      && var atClient := Unwire(Wire(atServer.payload, serverKey));
      && atClient.Intact? && |atClient.payload| == 4 && Value4(atClient.payload) == tick
  {
    UnwireWire(Bytes4(tick), clientKey);
    UnwireWire(Bytes4(tick), serverKey);
    Value4Bytes4(tick);
  }

  // ---- The packet buffer ----

  /** The bytes behind the first four have been replaced as far as `done` goes. */
  predicate Partly(buffer: seq<byte>, full: seq<byte>, done: seq<byte>) {
    && 4 + |done| <= |full| <= |buffer| && buffer[..4] == full[..4] && buffer[4..4 + |done|] == done
    && forall j :: 4 + |done| <= j < |full| ==> buffer[j] == full[j]
  }

  lemma PartlyNone(buffer: seq<byte>, full: seq<byte>)
    requires 4 <= |full| <= |buffer| && buffer[..|full|] == full
    ensures Partly(buffer, full, [])
  {
  }

  lemma PartlyNext(buffer: seq<byte>, full: seq<byte>, done: seq<byte>)
    requires Partly(buffer, full, done) && 4 + |done| < |full|
    ensures buffer[4 + |done|] == full[4..][|done|]
    ensures forall b: byte :: Partly(buffer[4 + |done| := b], full, done + [b])
  {
    forall b: byte
      ensures Partly(buffer[4 + |done| := b], full, done + [b])
    {
      assert buffer[4 + |done| := b][4..4 + |done| + 1] == done + [b];
    }
  }

  lemma PartlyWhole(buffer: seq<byte>, full: seq<byte>, done: seq<byte>)
    requires Partly(buffer, full, done) && 4 + |done| == |full|
    ensures buffer[..|full|] == full[..4] + done
  {
    assert buffer[..|full|] == buffer[..4] + buffer[4..|full|];
  }

  class Serializer {
    const buffer: array<byte>    // the header's five bytes, then the payload at mBuffer
    var size: nat               // mSize
    var deserialized: nat       // mDeserialingSize
    var sendPrepared: bool
    var refCount: nat           // mRefCount; at zero the packet is back in the pool

    ghost predicate Valid()
      reads this
    {
      buffer.Length == HEADER_SIZE + DEFAULT_SIZE && deserialized <= size <= DEFAULT_SIZE
    }

    ghost function Payload(): seq<byte>
      requires Valid()
      reads this, buffer
    {
      buffer[HEADER_SIZE..HEADER_SIZE + size]
    }

    /** The bytes handed to send. */
    ghost function Full(): seq<byte>
      requires Valid()
      reads this, buffer
    {
      buffer[..HEADER_SIZE + size]
    }

    /** Alloc: a packet from the pool, cleared, with one reference. */
    constructor ()
      ensures Valid() && fresh(buffer) && Payload() == [] && deserialized == 0 && !sendPrepared && refCount == 1
    {
      buffer := new byte[HEADER_SIZE + DEFAULT_SIZE];
      size, deserialized, sendPrepared, refCount := 0, 0, false, 1;
    }

    method IncrementRefCount()
      modifies this`refCount
      ensures refCount == old(refCount) + 1
    {
      refCount := refCount + 1;
    }

    /** Free gives up one reference; only a holder of one may call it. */
    method Free()
      requires refCount > 0
      modifies this`refCount
      ensures refCount == old(refCount) - 1
    {
      refCount := refCount - 1;
    }

    /** A packet as received: memcpy from the header on, then SetUseSize. */
    method Fill(bytes: seq<byte>)
      requires Valid() && HEADER_SIZE <= |bytes| <= HEADER_SIZE + DEFAULT_SIZE
      modifies this`size, this`deserialized, this`sendPrepared, buffer
      ensures Valid() && Full() == bytes && deserialized == 0 && !sendPrepared
    {
      forall i | 0 <= i < |bytes| {
        buffer[i] := bytes[i];
      }
      size, deserialized, sendPrepared := |bytes| - HEADER_SIZE, 0, false;
    }

    /** operator<< for 32-bit values; the source asserts that there is room. */
    method Put32(v: nat)
      requires Valid() && size + 4 <= DEFAULT_SIZE
      modifies this`size, buffer
      ensures Valid() && Payload() == old(Payload()) + Bytes4(v)
    {
      ghost var before := Payload();
      var bytes, at := Bytes4(v), HEADER_SIZE + size;
      buffer[at], buffer[at + 1], buffer[at + 2], buffer[at + 3] := bytes[0], bytes[1], bytes[2], bytes[3];
      size := size + 4;
      hide Bytes4;
      assert buffer[HEADER_SIZE..at] == before;
      assert buffer[at..at + 4] == bytes;
      assert buffer[HEADER_SIZE..at + 4] == before + bytes;
    }

    /** operator>> for 32-bit values; the source asserts that they are there. */
    method Get32() returns (v: nat)
      requires Valid() && deserialized + 4 <= size
      modifies this`deserialized
      ensures Valid() && deserialized == old(deserialized) + 4
      ensures v == Value4(Payload()[old(deserialized)..deserialized])
    {
      var at := HEADER_SIZE + deserialized;
      v := Value4(buffer[at..at + 4]);
      deserialized := deserialized + 4;
      assert buffer[HEADER_SIZE..HEADER_SIZE + size][old(deserialized)..deserialized] == buffer[at..at + 4];
    }

    method GetPayload() returns (payload: seq<byte>)
      requires Valid()
      ensures payload == Payload()
    {
      payload := buffer[HEADER_SIZE..HEADER_SIZE + size];
    }

    method GetFull() returns (bytes: seq<byte>)
      requires Valid()
      ensures bytes == Full()
    {
      bytes := buffer[..HEADER_SIZE + size];
    }

    method GetCheckSum() returns (sum: byte)
      requires Valid()
      ensures sum == CheckSum(Payload())
    {
      sum := 0;
      var i := 0;
      while i < size
        invariant i <= size && sum == CheckSum(buffer[HEADER_SIZE..HEADER_SIZE + i])
      {
        ghost var before := buffer[HEADER_SIZE..HEADER_SIZE + i];
        sum := Low8(sum + buffer[HEADER_SIZE + i]);
        i := i + 1;
        assert buffer[HEADER_SIZE..HEADER_SIZE + i][..i - 1] == before;
      }
    }

    method EncodeInPlace()
      requires Valid() && LengthField(Full()) == size
      modifies buffer
      ensures Valid() && Full() == old(Full()[..4] + Encode(Full()[4..], buffer[3]))
    {
      ghost var full := Full();
      ghost var data := full[4..];
      var length := Value2(buffer[1], buffer[2]) + 1;
      var key := buffer[3];
      PartlyNone(buffer[..], full);
      assert buffer[..][..4 + length] == full;
      hide Xor, Mask, Encode, KeyOfData, Bytes2, Value2, Partly;
      assert data[..0] == [];
      var nextRandKey: byte, prevEncodedValue: byte := 0, 0;
      var i := 0;
      while i < length
        invariant i <= length == |data| && Valid() && Partly(buffer[..], full, Encode(data[..i], key))
        invariant nextRandKey == KeyOfData(data[..i], key) && prevEncodedValue == LastOf(Encode(data[..i], key))
      {
        PartlyNext(buffer[..], full, Encode(data[..i], key));
        EncodeNext(data, key, i);
        nextRandKey := Xor(buffer[4 + i], Mask(nextRandKey, key, i));
        buffer[4 + i] := Xor(nextRandKey, Mask(prevEncodedValue, NETWORK_HEADER_FIXED_KEY, i));
        prevEncodedValue := buffer[4 + i];
        i := i + 1;
      }
      assert data[..i] == data;
      PartlyWhole(buffer[..], full, Encode(data, key));
    }

    /** decode() up to the check. */
    method Decipher()
      requires Valid() && LengthField(Full()) == size
      modifies buffer
      ensures Valid() && Full() == old(Full()[..4] + Decode(Full()[4..], buffer[3]))
    {
      ghost var full := Full();
      ghost var code := full[4..];
      var length := Value2(buffer[1], buffer[2]) + 1;
      var key := buffer[3];
      PartlyNone(buffer[..], full);
      assert buffer[..][..4 + length] == full;
      hide Xor, Mask, Decode, KeyOfCode, LastOf, Value2, Partly;
      assert code[..0] == [];
      var prevRandKey: byte, prevEncodedValue: byte := 0, 0;
      var i := 0;
      while i < length
        invariant i <= length == |code| && Valid() && Partly(buffer[..], full, Decode(code[..i], key))
        invariant prevRandKey == KeyOfCode(code[..i]) && prevEncodedValue == LastOf(code[..i])
      {
        PartlyNext(buffer[..], full, Decode(code[..i], key));
        DecodeNext(code, key, i);
        ghost var was := buffer[..];
        var currentRandKey := Xor(buffer[4 + i], Mask(prevEncodedValue, NETWORK_HEADER_FIXED_KEY, i));
        prevEncodedValue := buffer[4 + i];
        buffer[4 + i] := Xor(currentRandKey, Mask(prevRandKey, key, i));
        assert buffer[..] == was[4 + i := buffer[4 + i]];
        prevRandKey := currentRandKey;
        i := i + 1;
      }
      assert code[..i] == code;
      PartlyWhole(buffer[..], full, Decode(code, key));
    }

    method DecodeInPlace() returns (ok: bool)
      requires Valid() && LengthField(Full()) == size
      modifies buffer
      ensures Valid() && Full() == old(Full()[..4] + Decode(Full()[4..], buffer[3]))
      ensures ok <==> old(Unwire(Full())).Intact?
      ensures ok ==> Payload() == old(Unwire(Full())).payload
    {
      hide Decode, Value2, CheckSum, Unwire;
      ghost var full := Full();
      Decipher();
      AfterDecode(full, Full());
      assert buffer[4] == Full()[4] && Payload() == Full()[5..];
      var sum := GetCheckSum();
      ok := buffer[4] == sum;
    }

    /** The header, before encoding; `key` is from rand. */
    method SetHeaderValue(key: byte)
      requires Valid()
      modifies buffer
      ensures Valid() && Full() == old(Plain(Payload(), key))
    {
      ghost var payload := Payload();
      var length := Bytes2(size);
      buffer[0], buffer[1], buffer[2], buffer[3] := NETWORK_HEADER_CODE, length[0], length[1], key;
      assert Payload() == payload;
      var sum := GetCheckSum();
      buffer[4] := sum;
      hide Bytes2, CheckSum;
      assert Payload() == payload;
      assert Full() == buffer[..5] + payload;
    }

    method PrepareSend(key: byte)
      requires Valid()
      modifies this`sendPrepared, buffer
      ensures Valid() && sendPrepared && Full() == old(Wire(Payload(), key))
    {
      ghost var plain := Plain(Payload(), key);
      sendPrepared := true;
      PlainFields(Payload(), key);
      PlainLength(Payload(), key);
      SetHeaderValue(key);
      assert Full() == plain && buffer[3] == Full()[3];
      hide Plain, Encode;
      EncodeInPlace();
    }
  }
}
