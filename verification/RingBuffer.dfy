/** The receive buffer of RingBuffer.h. One slot is meant to stay free, so that front == rear means
    empty; the size offered for a direct receive does not respect that. */
module RingBuffer {
  import opened PacketCodec

  /** The bytes from front up to rear, round the end of the buffer. */
  function Between(buffer: seq<byte>, front: nat, rear: nat): seq<byte>
    requires front < |buffer| && rear < |buffer|
  {
    if front <= rear then buffer[front..rear] else buffer[front..] + buffer[..rear]
  }

  function Round(n: nat, capacity: nat): (r: nat)
    requires capacity > 0
    ensures r < capacity
  {
    n % capacity
  }

  lemma RoundIs(n: nat, capacity: nat)
    requires n < 2 * capacity
    ensures Round(n, capacity) == if n < capacity then n else n - capacity
  {
    if n >= capacity {
      assert n == capacity * 1 + (n - capacity);
      assert n % capacity == (n - capacity) % capacity;
    }
  }

  lemma UseSize(buffer: seq<byte>, front: nat, rear: nat)
    requires front < |buffer| && rear < |buffer|
    ensures |Between(buffer, front, rear)| == Round(rear - front + |buffer|, |buffer|) < |buffer|
  {
    RoundIs(rear - front + |buffer|, |buffer|);
    hide Round;
  }

  lemma TakeFirst(buffer: seq<byte>, front: nat, rear: nat, n: nat)
    requires front < |buffer| && rear < |buffer| && n <= |Between(buffer, front, rear)|
    ensures Between(buffer, Round(front + n, |buffer|), rear) == Between(buffer, front, rear)[n..]
  {
    RoundIs(front + n, |buffer|);
    hide Round;
    if front > rear {
      TakeRound(buffer[front..], buffer[..rear], n);
    }
  }

  lemma TakeRound(high: seq<byte>, low: seq<byte>, n: nat)
    requires n <= |high| + |low|
    ensures (high + low)[n..] == if n < |high| then high[n..] + low else low[n - |high|..]
  {
  }

  function Spliced(buffer: seq<byte>, at: nat, data: seq<byte>): (spliced: seq<byte>)
    requires at + |data| <= |buffer|
    ensures |spliced| == |buffer|
  {
    buffer[..at] + data + buffer[at + |data|..]
  }

  /** New bytes at rear, within the buffer. */
  lemma AppendHere(buffer: seq<byte>, front: nat, rear: nat, data: seq<byte>)
    requires front < |buffer| && rear < |buffer| && rear + |data| <= |buffer|
    requires |Between(buffer, front, rear)| + |data| <= |buffer|
    ensures Between(Spliced(buffer, rear, data), front, Round(rear + |data|, |buffer|)) ==
      if |Between(buffer, front, rear)| + |data| < |buffer| then Between(buffer, front, rear) + data else []
  {
    hide Round, Spliced;
    if rear < front {
      AppendBehind(buffer, front, rear, data);
    } else {
      AppendAfter(buffer, front, rear, data);
    }
  }

  lemma AppendBehind(buffer: seq<byte>, front: nat, rear: nat, data: seq<byte>)
    requires rear < front < |buffer| && rear + |data| <= front
    ensures Between(Spliced(buffer, rear, data), front, Round(rear + |data|, |buffer|)) ==
      if rear + |data| < front then Between(buffer, front, rear) + data else []
    ensures |Between(buffer, front, rear)| == |buffer| - front + rear
  {
    RoundIs(rear + |data|, |buffer|);
    SpliceBehind(buffer, front, rear, data);
    hide Round, Spliced;
    assert buffer[front..] + (buffer[..rear] + data) == buffer[front..] + buffer[..rear] + data;
  }

  lemma AppendAfter(buffer: seq<byte>, front: nat, rear: nat, data: seq<byte>)
    requires front <= rear < |buffer| && rear + |data| <= |buffer|
    ensures Between(Spliced(buffer, rear, data), front, Round(rear + |data|, |buffer|)) ==
      if rear - front + |data| < |buffer| then Between(buffer, front, rear) + data else []
    ensures |Between(buffer, front, rear)| == rear - front
  {
    RoundIs(rear + |data|, |buffer|);
    SpliceAfter(buffer, front, rear, data);
    hide Round, Spliced;
  }

  lemma SpliceBehind(buffer: seq<byte>, front: nat, rear: nat, data: seq<byte>)
    requires rear + |data| <= front < |buffer|
    ensures Spliced(buffer, rear, data)[front..] == buffer[front..]
    ensures Spliced(buffer, rear, data)[..rear + |data|] == buffer[..rear] + data
  {
  }

  lemma SpliceAfter(buffer: seq<byte>, front: nat, rear: nat, data: seq<byte>)
    requires front <= rear && rear + |data| <= |buffer|
    ensures Spliced(buffer, rear, data)[front..rear + |data|] == buffer[front..rear] + data
  {
  }

  /** The first bytes, when they go round. */
  lemma FirstRound(buffer: seq<byte>, front: nat, rear: nat, n: nat)
    requires rear < front < |buffer| && |buffer| - front < n <= |buffer| - front + rear
    ensures Between(buffer, front, rear)[..n] == buffer[front..] + buffer[..n - (|buffer| - front)]
  {
  }

  /** The buffer after a copy that goes on at its beginning. */
  function SplicedRound(buffer: seq<byte>, at: nat, data: seq<byte>): (spliced: seq<byte>)
    requires at <= |buffer| && |buffer| - at < |data| <= |buffer|
    ensures |spliced| == |buffer|
  {
    var k := |buffer| - at;
    data[k..] + buffer[|data| - k..at] + data[..k]
  }

  /** New bytes at rear, the last ones at the beginning of the buffer. */
  lemma AppendRound(buffer: seq<byte>, front: nat, rear: nat, data: seq<byte>)
    requires front <= rear < |buffer| && |buffer| - rear < |data|
    requires |Between(buffer, front, rear)| + |data| < |buffer|
    ensures Between(SplicedRound(buffer, rear, data), front, Round(rear + |data|, |buffer|)) == Between(buffer, front,
      rear) + data
  {
    RoundIs(rear + |data|, |buffer|);
    RoundParts(buffer, front, rear, data);
    hide Round, SplicedRound;
    Rejoin(buffer[front..rear], data, |buffer| - rear);
  }

  lemma Rejoin(before: seq<byte>, data: seq<byte>, k: nat)
    requires k <= |data|
    ensures (before + data[..k]) + data[k..] == before + data
  {
  }

  lemma RoundParts(buffer: seq<byte>, front: nat, rear: nat, data: seq<byte>)
    requires front <= rear < |buffer| && |buffer| - rear < |data| && rear + |data| - |buffer| < front
    ensures
      var k := |buffer| - rear;
      var spliced := SplicedRound(buffer, rear, data);
      spliced[front..] == buffer[front..rear] + data[..k] && spliced[..|data| - k] == data[k..]
  {
  }

  lemma SplicedTwice(buffer: seq<byte>, rear: nat, data: seq<byte>)
    requires rear < |buffer| && |buffer| - rear < |data| <= |buffer|
    ensures
      var k := |buffer| - rear;
      Spliced(Spliced(buffer, rear, data[..k]), 0, data[k..]) == SplicedRound(buffer, rear, data)
  {
  }

  class RingBuffer {
    const buffer: array<byte>
    const capacity: nat
    var front: nat
    var rear: nat

    ghost predicate Valid()
      reads this
    {
      buffer.Length == capacity > 0 && front < capacity && rear < capacity
    }

    ghost function Contents(): (bytes: seq<byte>)
      requires Valid()
      reads this, buffer
    {
      Between(buffer[..], front, rear)
    }

    constructor (size: nat)
      requires size > 0
      ensures Valid() && capacity == size && front == 0 && Contents() == [] && fresh(buffer)
    {
      buffer := new byte[size];
      capacity, front, rear := size, 0, 0;
    }

    method ClearBuffer()
      requires Valid()
      modifies this`front, this`rear
      ensures Valid() && Contents() == [] && front == 0
    {
      front, rear := 0, 0;
    }

    function GetUseSize(): (n: nat)
      requires Valid()
      reads this, buffer
      ensures n == |Contents()| < capacity
    {
      UseSize(buffer[..], front, rear);
      Round(rear - front + capacity, capacity)
    }

    function GetFreeSize(): (n: nat)
      requires Valid()
      reads this, buffer
      ensures n == capacity - 1 - |Contents()|
    {
      capacity - GetUseSize() - 1
    }

    /** Always inside the buffer and never over live bytes; but it offers the slot that must stay free
        exactly when the free space does not go round the end. */
    function GetDirectEnqueueSize(): (n: nat)
      requires Valid()
      reads this, buffer
      ensures rear + n <= capacity && (rear < front ==> rear + n <= front)
      ensures n > 0
      ensures |Contents()| + n == capacity <==> front == 0 || rear < front
      ensures n == if front == 0 || rear < front then capacity - |Contents()| else capacity - rear
      ensures |Contents()| + n <= capacity
    {
      if rear > GetUseSize() then capacity - rear else capacity - GetUseSize()
    }

    function GetDirectDequeueSize(): (n: nat)
      requires Valid()
      reads this, buffer
      ensures front + n <= capacity && n <= |Contents()| && buffer[front..front + n] == Contents()[..n]
      ensures front <= rear ==> n == |Contents()|
      ensures rear < front ==> n == capacity - front
    {
      if capacity - front < GetUseSize() then capacity - front else GetUseSize()
    }

    /** memcpy into the buffer. */
    method CopyIn(at: nat, data: seq<byte>)
      requires Valid() && at + |data| <= capacity
      modifies buffer
      ensures buffer[..] == Spliced(old(buffer[..]), at, data)
    {
      forall i | 0 <= i < |data| {
        buffer[at + i] := data[i];
      }
    }

    /** Both copies of Enqueue, when the data go round the end. */
    method CopyRound(data: seq<byte>)
      requires Valid() && capacity - rear < |data| <= capacity
      modifies buffer
      ensures buffer[..] == SplicedRound(old(buffer[..]), rear, data)
    {
      hide Spliced, SplicedRound;
      SplicedTwice(buffer[..], rear, data);
      var direct := capacity - rear;
      CopyIn(rear, data[..direct]);
      CopyIn(0, data[direct..]);
    }

    method Enqueue(data: seq<byte>) returns (ok: bool)
      requires Valid()
      modifies this`rear, buffer
      ensures Valid() && ok == (|data| <= old(GetFreeSize()))
      ensures Contents() == if ok then old(Contents()) + data else old(Contents())
    {
      if GetFreeSize() < |data| {
        return false;
      }
      ghost var was := buffer[..];
      var direct := GetDirectEnqueueSize();
      hide Between, Round, Spliced, SplicedRound;
      if direct >= |data| {
        CopyIn(rear, data);
        AppendHere(was, front, rear, data);
      } else {
        CopyRound(data);
        AppendRound(was, front, rear, data);
      }
      rear := Round(rear + |data|, capacity);
      ok := true;
    }

    method Dequeue(size: nat) returns (ok: bool, data: seq<byte>)
      requires Valid()
      modifies this`front
      ensures Valid() && ok == (size <= |old(Contents())|)
      ensures ok ==> old(Contents()) == data + Contents() && |data| == size
      ensures !ok ==> Contents() == old(Contents())
    {
      ok, data := Peek(size);
      if ok {
        TakeFirst(buffer[..], front, rear, size);
        hide Between, Round;
        front := Round(front + size, capacity);
      }
    }

    method Peek(size: nat) returns (ok: bool, data: seq<byte>)
      requires Valid()
      ensures ok == (size <= |Contents()|)
      ensures ok ==> data == Contents()[..size]
    {
      if GetUseSize() < size {
        return false, [];
      }
      var direct := GetDirectDequeueSize();
      if direct >= size {
        data := buffer[front..front + size];
        assert data == buffer[front..front + direct][..size];
      } else {
        data := buffer[front..front + direct] + buffer[..size - direct];
        FirstRound(buffer[..], front, rear, size);
      }
      ok := true;
    }

    /** A receive of some bytes straight into the buffer: recv writes them at rear, MoveRear follows.
        The bytes are added; but if they fill the buffer, everything in it is lost. */
    method Receive(data: seq<byte>) returns (ok: bool)
      requires Valid() && |data| <= GetDirectEnqueueSize()
      modifies this`rear, buffer
      ensures Valid() && ok
      ensures Contents() == if |old(Contents())| + |data| < capacity then old(Contents()) + data else []
    {
      hide Between, Round;
      AppendHere(buffer[..], front, rear, data);
      UseSize(buffer[..], front, rear);
      CopyIn(rear, data);
      UseSize(buffer[..], front, rear);
      ok := MoveRear(|data|);
    }

    method MoveRear(size: nat) returns (ok: bool)
      requires Valid()
      modifies this`rear
      ensures Valid() && ok == (|old(Contents())| + size <= capacity)
      ensures rear == if ok then Round(old(rear) + size, capacity) else old(rear)
    {
      if capacity - GetUseSize() < size {
        return false;
      }
      rear := Round(rear + size, capacity);
      ok := true;
    }
  }
}
