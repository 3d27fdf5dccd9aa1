/** The packet format in numbers: what stands in each byte on the wire, said without the functions that compute it. */
module PacketNumerals {
  import opened PacketCodec
  import Framing

  // ---- Exclusive or ----

  function Bit(n: nat, k: nat): nat { if k == 0 then n % 2 else Bit(n / 2, k - 1) }

  /** Each bit of the exclusive or is set exactly when the two bits differ. */
  lemma {:induction false} XorBits(x: nat, y: nat, k: nat)
    ensures Bit(BitXor(x, y), k) == 1 <==> Bit(x, k) != Bit(y, k)
    ensures Bit(BitXor(x, y), k) <= 1
    decreases k
  {
    if k > 0 {
      assert BitXor(x, y) / 2 == BitXor(x / 2, y / 2);
      XorBits(x / 2, y / 2, k - 1);
    }
    BitIsBit(x, k);
    BitIsBit(y, k);
  }

  lemma {:induction false} BitIsBit(n: nat, k: nat)
    ensures Bit(n, k) <= 1
    decreases k
  {
    if k > 0 {
      BitIsBit(n / 2, k - 1);
    }
  }

  // ---- The two chains ----

  /** The running key behind byte i of a code, of which there is none before the first byte. */
  function Running(code: seq<byte>, i: int): byte
    requires i < |code|
  {
    if i < 0 then 0 else Xor(code[i], ((if i == 0 then 0 else code[i - 1]) + 0x32 + i + 1) % 256)
  }

  /** Byte i of what the code stands for. */
  function Meant(code: seq<byte>, key: byte, i: nat): byte
    requires i < |code|
  {
    Xor(Running(code, i), (Running(code, i - 1) + key + i + 1) % 256)
  }

  lemma RunningIsKey(code: seq<byte>, i: nat)
    requires i < |code|
    ensures KeyOfCode(code[..i + 1]) == Running(code, i) && (i > 0 ==> KeyOfCode(code[..i]) == Running(code, i - 1))
  {
    hide Xor;
    assert code[..i + 1][..i] == code[..i];
    if i > 0 {
      assert code[..i][..i - 1] == code[..i - 1];
    }
  }

  /** What decode makes of every byte, for every code and key. */
  lemma DecodeByte(code: seq<byte>, key: byte, i: nat)
    requires i < |code|
    ensures Decode(code, key)[i] == Meant(code, key, i)
  {
    DecodedAt(code, key, i);
    RunningIsKey(code, i);
    if i == 0 {
      assert code[..0] == [];
    }
    hide Xor, Decode, Running;
    if i > 0 {
      hide KeyOfCode;
    }
  }

  /** What encode makes of every byte: the code it leaves means the data. The first byte is the data's, each way
      with the sums of the first position. */
  lemma EncodeByte(data: seq<byte>, key: byte, i: nat)
    requires i < |data|
    ensures Meant(Encode(data, key), key, i) == data[i]
    ensures Encode(data, key)[0] == Xor(Xor(data[0], (key + 1) % 256), 0x33)
  {
    DecodeEncode(data, key);
    DecodeByte(Encode(data, key), key, i);
    FirstByte(data, key);
    hide Xor, Encode, Decode, Meant;
  }

  lemma FirstByte(data: seq<byte>, key: byte)
    requires data != []
    ensures Encode(data, key)[0] == Xor(Xor(data[0], (key + 1) % 256), 0x33)
  {
    hide Xor;
    assert data[..1][..0] == [] && data[..1][0] == data[0] && data[..0] == [];
    EncodeNext(data, key, 0);
    EncodePrefix(data, key, 1);
  }

  // ---- Numbers and sums ----

  /** The sum of the bytes. */
  function Total(bytes: seq<byte>): nat { if bytes == [] then 0 else bytes[0] + Total(bytes[1..]) }

  lemma {:induction false} TotalLast(bytes: seq<byte>)
    requires bytes != []
    ensures Total(bytes) == Total(bytes[..|bytes| - 1]) + bytes[|bytes| - 1]
  {
    if |bytes| > 1 {
      TotalLast(bytes[1..]);
      assert bytes[1..][..|bytes| - 2] == bytes[..|bytes| - 1][1..];
    }
  }

  /** The checksum is the sum of the payload modulo 256. */
  lemma {:induction false} CheckSumIsTotal(payload: seq<byte>)
    ensures CheckSum(payload) == Total(payload) % 256
  {
    if payload != [] {
      var n := |payload| - 1;
      CheckSumIsTotal(payload[..n]);
      TotalLast(payload);
      hide Total;
      SumModulo(Total(payload[..n]), payload[n]);
    }
  }

  lemma SumModulo(total: nat, b: nat)
    ensures (total % 256 + b) % 256 == (total + b) % 256
  {
    assert total == 256 * (total / 256) + total % 256;
    var x := total % 256 + b;
    assert total + b == 256 * (total / 256 + x / 256) + x % 256;
  }

  /** A 32-bit value is sent low byte first. */
  lemma FourBytes(v: nat)
    requires v < 0x1_0000_0000
    ensures Bytes4(v) == [v % 0x100, v / 0x100 % 0x100, v / 0x1_0000 % 0x100, v / 0x100_0000]
  {
    var b0, b1, b2, b3 := v % 0x100, v / 0x100 % 0x100, v / 0x1_0000 % 0x100, v / 0x100_0000;
    Digits(v, b0, b1, b2, b3);
    TwoBytes(b0, b1);
    TwoBytes(b2, b3);
    assert v % 0x1_0000 == b0 + 0x100 * b1 && v / 0x1_0000 == b2 + 0x100 * b3;
    hide Bytes2;
  }

  lemma Digits(v: nat, b0: nat, b1: nat, b2: nat, b3: nat)
    requires b0 == v % 0x100 && b1 == v / 0x100 % 0x100 && b2 == v / 0x1_0000 % 0x100 && b3 == v / 0x100_0000
    ensures v == (b0 + 0x100 * b1) + 0x1_0000 * (b2 + 0x100 * b3) && b0 + 0x100 * b1 < 0x1_0000
  {
    var x, y := v / 0x100, v / 0x1_0000;
    assert v == 0x100 * x + b0 && x == 0x100 * (x / 0x100) + b1 && y == 0x100 * (y / 0x100) + b2;
    assert x / 0x100 == y && y / 0x100 == b3;
  }

  lemma TwoBytes(low: nat, high: nat)
    requires low < 0x100 && high < 0x100
    ensures Bytes2(low + 0x100 * high) == [low, high]
  {
    assert (low + 0x100 * high) / 0x100 == high && (low + 0x100 * high) % 0x100 == low;
  }

  lemma FourValue(bytes: seq<byte>)
    requires |bytes| == 4
    ensures Value4(bytes) ==
      bytes[0] as nat + 0x100 * bytes[1] as nat + 0x1_0000 * bytes[2] as nat + 0x100_0000 * bytes[3] as nat
  {
  }

  // ---- A packet ----

  /** The wire form: 0x77, the length low byte first, the key; then a checksum and the payload, encoded. */
  lemma WireBytes(payload: seq<byte>, key: byte)
    requires |payload| < 0x1_0000
    ensures
      var wire := Wire(payload, key);
      && |wire| == 5 + |payload|
      && wire[0] == 0x77 && wire[1] == |payload| % 0x100 && wire[2] == |payload| / 0x100 && wire[3] == key
      && Meant(wire[4..], key, 0) == Total(payload) % 256
      && forall i :: 0 <= i < |payload| ==> Meant(wire[4..], key, i + 1) == payload[i]
  {
    var wire, data := Wire(payload, key), [CheckSum(payload)] + payload;
    PlainFields(payload, key);
    CheckSumIsTotal(payload);
    HeaderBytes(payload, key);
    hide Plain, Encode, CheckSum, Meant, Total;
    assert wire[4..] == Encode(data, key);
    forall i | 0 <= i < |data|
      ensures Meant(wire[4..], key, i) == data[i]
    {
      EncodeByte(data, key, i);
    }
  }

  lemma HeaderBytes(payload: seq<byte>, key: byte)
    requires |payload| < 0x1_0000
    ensures Wire(payload, key)[..4] == [0x77, |payload| % 0x100, |payload| / 0x100, key]
  {
    hide Encode, CheckSum;
    assert Plain(payload, key)[..4] == [0x77, |payload| % 0x100, |payload| / 0x100, key];
  }

  /** decode() accepts a packet exactly when the first byte meant is the sum of the others modulo 256, and the
      payload is what the others mean. */
  lemma UnwireBytes(bytes: seq<byte>)
    requires |bytes| >= 5
    ensures
      var code, key := bytes[4..], bytes[3];
      var payload := seq(|bytes| - 5, i requires 0 <= i < |bytes| - 5 => Meant(code, key, i + 1));
      Unwire(bytes) == if Meant(code, key, 0) == Total(payload) % 256 then Intact(payload) else Damaged
  {
    var code, key := bytes[4..], bytes[3];
    var data := Decode(code, key);
    var payload := seq(|bytes| - 5, i requires 0 <= i < |bytes| - 5 => Meant(code, key, i + 1));
    forall i | 0 <= i < |code|
      ensures data[i] == Meant(code, key, i)
    {
      DecodeByte(code, key, i);
    }
    hide Meant, Decode, Total, CheckSum;
    assert data[1..] == payload;
    CheckSumIsTotal(payload);
  }

  /** What the packet loop makes of the bytes it has, in numbers. */
  lemma FirstBytes(bytes: seq<byte>, limit: nat)
    ensures
      var first := Framing.First(bytes, limit);
      if |bytes| < 5 then first.TooShort?
      else
        var length := bytes[1] as nat + 0x100 * bytes[2] as nat;
        if bytes[0] != 0x77 || length > limit then first.Bad?
        else if |bytes| < 5 + length then first.TooShort?
        else if length > 1000 then first.Overruns?
        else match Unwire(bytes[..5 + length])
             case Intact(payload) => first == Framing.Packet(payload, 5 + length)
             case Damaged => first.Bad?
  {
    hide Unwire;
  }
}
