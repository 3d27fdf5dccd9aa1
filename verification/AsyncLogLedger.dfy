/** The accounts kept about a logger state: who owns each buffer, what the counter counts, and
    which messages have gone where. */
module AsyncLogLedger {
  import opened AsyncLogModel
  import opened AsyncLogInvariant
  import opened Sums

  predicate ConsumerHolds(c: Consumer) {
    c.FreeingNode? || c.CountingDown? || c.Writing? || c.Deleting?
  }

  predicate OwnedBy(buffers: map<nat, Buffer>, buf: nat, owner: Owner) {
    buf in buffers && buffers[buf].owner == owner
  }

  /** The nodes of a list after its first own their buffers. */
  ghost predicate SlotsOwned(q: Queue, buffers: map<nat, Buffer>, list: seq<Ref>) {
    forall i :: 1 <= i < |list| ==> OwnedBy(buffers, DataOf(q, list[i]), Slot(list[i].addr))
  }

  ghost predicate InSlot(q: Queue, list: seq<Ref>, addr: nat, buf: nat) {
    exists i :: 1 <= i < |list| && list[i].addr == addr && DataOf(q, list[i]) == buf
  }

  ghost predicate HandsOwned(buffers: map<nat, Buffer>, producers: seq<Producer>) {
    forall p :: 0 <= p < |producers| && Unlinking(producers[p]) ==>
      OwnedBy(buffers, producers[p].buf, Hand(p)) && buffers[producers[p].buf].message.writer == p
  }

  /** Every live buffer has the owner recorded for it, and every owner's buffer is live. */
  ghost predicate OwnersInv(q: Queue, buffers: map<nat, Buffer>, producers: seq<Producer>, c: Consumer) {
    && HandsOwned(buffers, producers)
    && (forall k :: IsList(q, k) ==> SlotsOwned(q, buffers, ListAt(q, k)))
    && (ConsumerHolds(c) ==> OwnedBy(buffers, c.buf, ConsumerHand))
    && (forall b :: b in buffers ==> OwnerHolds(q, producers, c, b, buffers[b].owner))
  }

  /** A thread that has not linked its record yet, a node that is linked in the chain or on the node of
      an unfinished Enqueue, or the consumer. */
  ghost predicate OwnerHolds(q: Queue, producers: seq<Producer>, c: Consumer, buf: nat, owner: Owner) {
    match owner
    case Hand(p) => p < |producers| && Unlinking(producers[p]) && producers[p].buf == buf
    case Slot(addr) => exists k :: IsList(q, k) && InSlot(q, ListAt(q, k), addr, buf)
    case ConsumerHand => ConsumerHolds(c) && c.buf == buf
  }

  // ---- Steps on the owners ----

  lemma OwnersThread(q: Queue, buffers: map<nat, Buffer>, producers: seq<Producer>, c: Consumer, p: nat, pc: Producer)
    requires OwnersInv(q, buffers, producers, c) && p < |producers|
    requires Unlinking(pc) == Unlinking(producers[p]) && (Unlinking(pc) ==> pc.buf == producers[p].buf)
    ensures OwnersInv(q, buffers, producers[p := pc], c)
  {
    hide SlotsOwned, InSlot;
    forall b | b in buffers
      ensures OwnerHolds(q, producers[p := pc], c, b, buffers[b].owner)
    {
      assert OwnerHolds(q, producers, c, b, buffers[b].owner);
    }
  }

  lemma OwnersConsumer(q: Queue, buffers: map<nat, Buffer>, producers: seq<Producer>, c: Consumer, c': Consumer)
    requires OwnersInv(q, buffers, producers, c)
    requires ConsumerHolds(c') == ConsumerHolds(c) && (ConsumerHolds(c) ==> c'.buf == c.buf)
    ensures OwnersInv(q, buffers, producers, c')
  {
    hide SlotsOwned, InSlot;
    forall b | b in buffers
      ensures OwnerHolds(q, producers, c', b, buffers[b].owner)
    {
      assert OwnerHolds(q, producers, c, b, buffers[b].owner);
    }
  }

  /** The nodes of a list keep their data. */
  ghost predicate SameData(q: Queue, q': Queue, list: seq<Ref>) {
    forall i :: 0 <= i < |list| ==> DataOf(q', list[i]) == DataOf(q, list[i])
  }

  /** A change of the queue that keeps its lists, or adds one with a single node. */
  lemma OwnersQueue(q: Queue, q': Queue, buffers: map<nat, Buffer>, producers: seq<Producer>, c: Consumer)
    requires OwnersInv(q, buffers, producers, c)
    requires forall k :: IsList(q, k) ==>
      IsList(q', k) && ListAt(q', k) == ListAt(q, k) && SameData(q, q', ListAt(q, k))
    requires forall k :: IsList(q', k) && !IsList(q, k) ==> |ListAt(q', k)| == 1
    ensures OwnersInv(q', buffers, producers, c)
  {
    forall k | IsList(q', k)
      ensures SlotsOwned(q', buffers, ListAt(q', k))
    {
      if IsList(q, k) {
        assert SlotsOwned(q, buffers, ListAt(q, k));
      }
    }
    forall b | b in buffers
      ensures OwnerHolds(q', producers, c, b, buffers[b].owner)
    {
      assert OwnerHolds(q, producers, c, b, buffers[b].owner);
      if buffers[b].owner.Slot? {
        var k :| IsList(q, k) && InSlot(q, ListAt(q, k), buffers[b].owner.addr, b);
        SlotStays(q, q', ListAt(q, k), buffers[b].owner.addr, b);
      }
    }
  }

  lemma SlotStays(q: Queue, q': Queue, list: seq<Ref>, addr: nat, buf: nat)
    requires InSlot(q, list, addr, buf) && SameData(q, q', list)
    ensures InSlot(q', list, addr, buf)
  {
    var i :| 1 <= i < |list| && list[i].addr == addr && DataOf(q, list[i]) == buf;
    assert DataOf(q', list[i]) == buf;
  }

  lemma OwnersCall(q: Queue, buffers: map<nat, Buffer>, producers: seq<Producer>, c: Consumer, p: nat, buf: nat,
                   m: Message)
    requires OwnersInv(q, buffers, producers, c) && p < |producers| && producers[p].Idle? && buf !in buffers
      && m.writer == p
    ensures OwnersInv(q, buffers[buf := Buffer(m, Hand(p))], producers[p := Entering(buf)], c)
  {
    var buffers' := buffers[buf := Buffer(m, Hand(p))];
    var ps := producers[p := Entering(buf)];
    forall k | IsList(q, k)
      ensures SlotsOwned(q, buffers', ListAt(q, k))
    {
      assert SlotsOwned(q, buffers, ListAt(q, k));
    }
    hide SlotsOwned, InSlot;
    forall b | b in buffers'
      ensures OwnerHolds(q, ps, c, b, buffers'[b].owner)
    {
      assert b != buf ==> OwnerHolds(q, producers, c, b, buffers[b].owner);
    }
  }

  /** Linking changes no node's data. */
  lemma LinkData(q: Queue, me: Ref, tail: Ref)
    ensures forall r :: DataOf(LinkNode(q, me, tail), r) == DataOf(q, r)
  {
  }

  lemma OwnersLink(q: Queue, buffers: map<nat, Buffer>, producers: seq<Producer>, c: Consumer, p: nat)
    requires OwnersInv(q, buffers, producers, c) && p < |producers| && producers[p].Linking?
    requires CanLink(q, producers[p].me, producers[p].tail) && DataOf(q, producers[p].me) == producers[p].buf
    ensures
      var pc := producers[p];
      OwnersInv(LinkNode(q, pc.me, pc.tail), NewOwner(buffers, pc.buf, Slot(pc.me.addr)),
                producers[p := SwingingTail(pc.me, pc.tail)], c)
  {
    var pc := producers[p];
    var q' := LinkNode(q, pc.me, pc.tail);
    var buffers', ps := NewOwner(buffers, pc.buf, Slot(pc.me.addr)), producers[p := SwingingTail(pc.me, pc.tail)];
    assert Unlinking(pc) && OwnedBy(buffers, pc.buf, Hand(p));
    forall j | IsList(q, j)
      ensures SlotsOwned(q, buffers, ListAt(q, j))
    {
    }
    SlotsLink(q, buffers, pc.me, pc.tail, pc.buf);
    hide LinkNode, CanLink, SlotsOwned;
    forall b | b in buffers'
      ensures OwnerHolds(q', ps, c, b, buffers'[b].owner)
    {
      assert OwnerHolds(q, producers, c, b, buffers[b].owner);
      HolderLink(q, buffers, producers, c, p, b);
    }
  }

  lemma SlotsLink(q: Queue, buffers: map<nat, Buffer>, me: Ref, tail: Ref, buf: nat)
    requires CanLink(q, me, tail) && DataOf(q, me) == buf && buf in buffers && !buffers[buf].owner.Slot?
    requires forall k :: IsList(q, k) ==> SlotsOwned(q, buffers, ListAt(q, k))
    ensures
      var q' := LinkNode(q, me, tail);
      forall k :: IsList(q', k) ==> SlotsOwned(q', NewOwner(buffers, buf, Slot(me.addr)), ListAt(q', k))
  {
    var q', k := LinkNode(q, me, tail), q.home[tail.addr];
    LinkLists(q, me, tail);
    LinkData(q, me, tail);
    hide LinkNode, DataOf;
    forall j | IsList(q', j)
      ensures SlotsOwned(q', NewOwner(buffers, buf, Slot(me.addr)), ListAt(q', j))
    {
      assert SlotsOwned(q, buffers, ListAt(q, j)) && SlotsOwned(q, buffers, ListAt(q, me.addr));
      if j == k {
        SlotsJoin(q, q', buffers, ListAt(q, k), q.sides[me.addr], buf);
      }
    }
  }

  lemma HolderLink(q: Queue, buffers: map<nat, Buffer>, producers: seq<Producer>, c: Consumer, p: nat, b: nat)
    requires p < |producers| && producers[p].Linking? && b in buffers
      && OwnerHolds(q, producers, c, b, buffers[b].owner)
    requires CanLink(q, producers[p].me, producers[p].tail) && DataOf(q, producers[p].me) == producers[p].buf
    requires OwnedBy(buffers, producers[p].buf, Hand(p))
    ensures
      var pc := producers[p];
      OwnerHolds(LinkNode(q, pc.me, pc.tail), producers[p := SwingingTail(pc.me, pc.tail)], c, b,
                 NewOwner(buffers, pc.buf, Slot(pc.me.addr))[b].owner)
  {
    var pc := producers[p];
    var q', k := LinkNode(q, pc.me, pc.tail), q.home[pc.tail.addr];
    LinkLists(q, pc.me, pc.tail);
    LinkData(q, pc.me, pc.tail);
    hide LinkNode, DataOf;
    if b == pc.buf {
      assert ListAt(q', k)[|ListAt(q, k)|] == pc.me;
      assert InSlot(q', ListAt(q', k), pc.me.addr, b);
    } else if buffers[b].owner.Slot? {
      SlotMoves(q, q', pc.me, k, buffers[b].owner.addr, b);
    }
  }

  lemma SlotsJoin(q: Queue, q': Queue, buffers: map<nat, Buffer>, first: seq<Ref>, second: seq<Ref>, buf: nat)
    requires first != [] && second != [] && SlotsOwned(q, buffers, first) && SlotsOwned(q, buffers, second)
    requires forall r :: DataOf(q', r) == DataOf(q, r)
    requires buf in buffers && !buffers[buf].owner.Slot? && DataOf(q, second[0]) == buf
    ensures SlotsOwned(q', NewOwner(buffers, buf, Slot(second[0].addr)), first + second)
  {
    var both, n := first + second, |first|;
    var buffers' := NewOwner(buffers, buf, Slot(second[0].addr));
    forall i | 1 <= i < |both|
      ensures OwnedBy(buffers', DataOf(q', both[i]), Slot(both[i].addr))
    {
      if i < n {
        assert OwnedBy(buffers, DataOf(q, first[i]), Slot(first[i].addr));
      } else if i > n {
        assert OwnedBy(buffers, DataOf(q, second[i - n]), Slot(second[i - n].addr));
      }
    }
  }

  lemma SlotMoves(q: Queue, q': Queue, me: Ref, k: nat, addr: nat, buf: nat)
    requires exists j :: IsList(q, j) && InSlot(q, ListAt(q, j), addr, buf)
    requires forall r :: DataOf(q', r) == DataOf(q, r)
    requires IsList(q, k) && k != me.addr && me.addr in q.sides && me.addr > 0
      && ListAt(q', k) == ListAt(q, k) + q.sides[me.addr]
    requires forall j :: IsList(q', j) <==> IsList(q, j) && j != me.addr
    requires forall j :: j != k && j != me.addr ==> ListAt(q', j) == ListAt(q, j)
    ensures exists j :: IsList(q', j) && InSlot(q', ListAt(q', j), addr, buf)
  {
    var j :| IsList(q, j) && InSlot(q, ListAt(q, j), addr, buf);
    var i :| 1 <= i < |ListAt(q, j)| && ListAt(q, j)[i].addr == addr && DataOf(q, ListAt(q, j)[i]) == buf;
    if j == me.addr {
      assert ListAt(q', k)[|ListAt(q, k)| + i] == ListAt(q, j)[i];
      assert InSlot(q', ListAt(q', k), addr, buf);
    } else {
      assert ListAt(q', j)[i] == ListAt(q, j)[i];
      assert InSlot(q', ListAt(q', j), addr, buf);
    }
  }

  lemma OwnersTake(q: Queue, buffers: map<nat, Buffer>, producers: seq<Producer>, c: Consumer)
    requires ListsInv(q) && OwnersInv(q, buffers, producers, c) && |q.chain| >= 2 && !ConsumerHolds(c)
    ensures
      var buf := DataOf(q, q.chain[1]);
      OwnersInv(TakeHead(q, q.chain[1]), NewOwner(buffers, buf, ConsumerHand), producers, FreeingNode(q.head, buf))
  {
    hide ListsInv, SlotsOwned, TakeHead, HandsOwned, ListAt, DataOf, OwnerHolds;
    var buf := DataOf(q, q.chain[1]);
    FirstSlot(q, buffers);
    AllSlotsTake(q, buffers);
    HandsKept(buffers, producers, buf, ConsumerHand);
    forall b | b in buffers
      ensures OwnerHolds(TakeHead(q, q.chain[1]), producers, FreeingNode(q.head, buf), b,
                         NewOwner(buffers, buf, ConsumerHand)[b].owner)
    {
      assert OwnerHolds(q, producers, c, b, buffers[b].owner);
      HolderTake(q, buffers, producers, c, b);
    }
    TakenHeld(q, producers, q.head, buf);
  }

  lemma TakenHeld(q: Queue, producers: seq<Producer>, head: Ref, buf: nat)
    requires |q.chain| >= 2
    ensures OwnerHolds(TakeHead(q, q.chain[1]), producers, FreeingNode(head, buf), buf, ConsumerHand)
  {
    hide TakeHead;
  }

  lemma FirstSlot(q: Queue, buffers: map<nat, Buffer>)
    requires |q.chain| >= 2 && forall k :: IsList(q, k) ==> SlotsOwned(q, buffers, ListAt(q, k))
    ensures OwnedBy(buffers, DataOf(q, q.chain[1]), Slot(q.chain[1].addr))
  {
    assert SlotsOwned(q, buffers, ListAt(q, 0));
  }

  /** A buffer that no thread holds changes its owner. */
  lemma HandsKept(buffers: map<nat, Buffer>, producers: seq<Producer>, buf: nat, owner: Owner)
    requires HandsOwned(buffers, producers) && buf in buffers && !buffers[buf].owner.Hand?
    ensures HandsOwned(NewOwner(buffers, buf, owner), producers)
  {
  }

  lemma HolderTake(q: Queue, buffers: map<nat, Buffer>, producers: seq<Producer>, c: Consumer, b: nat)
    requires |q.chain| >= 2 && !ConsumerHolds(c) && b in buffers && OwnerHolds(q, producers, c, b, buffers[b].owner)
    ensures
      var buf := DataOf(q, q.chain[1]);
      OwnerHolds(TakeHead(q, q.chain[1]), producers, FreeingNode(q.head, buf), b,
        NewOwner(buffers, buf, ConsumerHand)[b].owner)
  {
    if b != DataOf(q, q.chain[1]) && buffers[b].owner.Slot? {
      SlotTake(q, buffers[b].owner.addr, b);
    }
    hide TakeHead;
  }

  lemma AllSlotsTake(q: Queue, buffers: map<nat, Buffer>)
    requires ListsInv(q) && |q.chain| >= 2 && OwnedBy(buffers, DataOf(q, q.chain[1]), Slot(q.chain[1].addr))
    requires forall k :: IsList(q, k) ==> SlotsOwned(q, buffers, ListAt(q, k))
    ensures
      var q' := TakeHead(q, q.chain[1]);
      forall k :: IsList(q', k) ==>
        SlotsOwned(q', NewOwner(buffers, DataOf(q, q.chain[1]), ConsumerHand), ListAt(q', k))
  {
    var q' := TakeHead(q, q.chain[1]);
    hide SlotsOwned, Linked;
    forall k | IsList(q', k)
      ensures SlotsOwned(q', NewOwner(buffers, DataOf(q, q.chain[1]), ConsumerHand), ListAt(q', k))
    {
      assert IsList(q, k) && SlotsOwned(q, buffers, ListAt(q, k));
      assert Linked(q, k, ListAt(q, k)) && Linked(q, 0, ListAt(q, 0));
      SlotsTake(q, buffers, k);
    }
  }

  lemma SlotsTake(q: Queue, buffers: map<nat, Buffer>, k: nat)
    requires IsList(q, k) && SlotsOwned(q, buffers, ListAt(q, k)) && |q.chain| >= 2
    requires Linked(q, k, ListAt(q, k)) && Linked(q, 0, q.chain)
      && OwnedBy(buffers, DataOf(q, q.chain[1]), Slot(q.chain[1].addr))
    ensures
      var q' := TakeHead(q, q.chain[1]);
      SlotsOwned(q', NewOwner(buffers, DataOf(q, q.chain[1]), ConsumerHand), ListAt(q', k))
  {
    var q', list, buf := TakeHead(q, q.chain[1]), ListAt(q, k), DataOf(q, q.chain[1]);
    var buffers' := NewOwner(buffers, buf, ConsumerHand);
    assert Placed(q, q.chain[1].addr, 0);
    forall i | 1 <= i < |list| && (k == 0 ==> i > 1)
      ensures OwnedBy(buffers', DataOf(q', list[i]), Slot(list[i].addr))
    {
      assert OwnedBy(buffers, DataOf(q, list[i]), Slot(list[i].addr)) && Placed(q, list[i].addr, k);
      assert k == 0 ==> list[1].addr != list[i].addr;
    }
    assert k == 0 ==> forall i :: 0 <= i < |q'.chain| ==> q'.chain[i] == list[i + 1];
  }

  lemma SlotTake(q: Queue, addr: nat, buf: nat)
    requires exists k :: IsList(q, k) && InSlot(q, ListAt(q, k), addr, buf)
    requires |q.chain| >= 2 && buf != DataOf(q, q.chain[1])
    ensures var q' := TakeHead(q, q.chain[1]); exists k :: IsList(q', k) && InSlot(q', ListAt(q', k), addr, buf)
  {
    var q' := TakeHead(q, q.chain[1]);
    var k :| IsList(q, k) && InSlot(q, ListAt(q, k), addr, buf);
    var i :| 1 <= i < |ListAt(q, k)| && ListAt(q, k)[i].addr == addr && DataOf(q, ListAt(q, k)[i]) == buf;
    if k == 0 {
      assert q'.chain[i - 1] == q.chain[i];
    } else {
      assert ListAt(q', k)[i].addr == addr;
    }
    assert InSlot(q', ListAt(q', k), addr, buf);
  }

  lemma OwnersDelete(q: Queue, buffers: map<nat, Buffer>, producers: seq<Producer>, c: Consumer)
    requires OwnersInv(q, buffers, producers, c) && c.Deleting?
    ensures OwnersInv(q, buffers - {c.buf}, producers, Checking)
  {
    var buffers' := buffers - {c.buf};
    forall k | IsList(q, k)
      ensures SlotsOwned(q, buffers', ListAt(q, k))
    {
      assert SlotsOwned(q, buffers, ListAt(q, k));
    }
    hide SlotsOwned, InSlot;
    forall b | b in buffers'
      ensures OwnerHolds(q, producers, Checking, b, buffers'[b].owner)
    {
      assert OwnerHolds(q, producers, c, b, buffers[b].owner);
    }
  }

  // ---- The counter ----

  predicate DequeueUnderway(c: Consumer) {
    !c.Waiting? && !c.Checking? && !c.Writing? && !c.Deleting?
  }

  /** mCount is the number of queued records whose Enqueue has counted them, plus the one the
      consumer has taken but not yet subtracted. */
  ghost predicate CountInv(q: Queue, count: nat, event: bool, producers: seq<Producer>, c: Consumer) {
    && 0 <= Queued(q) && Queued(q) + 1 < TWO_POW_32
    && count == Queued(q) + InFlight(c) - Sum(producers, Uncounted)
    && (DequeueUnderway(c) ==> count >= 1)
    && (c.Waiting? && !event ==> count <= Sum(producers, Signallers))
  }

  lemma CountThread(q: Queue, count: nat, event: bool, producers: seq<Producer>, c: Consumer, p: nat, pc: Producer)
    requires CountInv(q, count, event, producers, c) && p < |producers|
    requires Uncounted(pc) == Uncounted(producers[p]) && Signallers(pc) == Signallers(producers[p])
    ensures CountInv(q, count, event, producers[p := pc], c)
  {
    SumUpdate(producers, p, pc, Uncounted);
    SumUpdate(producers, p, pc, Signallers);
  }

  lemma QueuedAlloc(q: Queue, me: Ref, buf: nat)
    requires me.addr !in q.home && me.addr !in q.sides
    ensures Queued(AllocNode(q, me, buf)) == Queued(q)
  {
  }

  lemma QueuedLink(q: Queue, me: Ref, tail: Ref)
    requires CanLink(q, me, tail)
    ensures Queued(LinkNode(q, me, tail)) == Queued(q) + 1
  {
    var q', k := LinkNode(q, me, tail), q.home[tail.addr];
    assert q'.home.Keys == q.home.Keys;
    var sides := if k != 0 && k in q.sides then q.sides[k := q.sides[k] + SideOf(q, me)] else q.sides;
    assert sides.Keys == q.sides.Keys && q'.sides.Keys == sides.Keys - {me.addr};
    assert |q'.home| == |q'.home.Keys| && |q.home| == |q.home.Keys|;
    assert |q'.sides| == |q'.sides.Keys| && |q.sides| == |q.sides.Keys|;
  }

  lemma QueuedTake(q: Queue, next: Ref)
    requires q.head.addr in q.home
    ensures Queued(TakeHead(q, next)) == Queued(q) - 1
  {
    var q' := TakeHead(q, next);
    assert q'.home.Keys == q.home.Keys - {q.head.addr};
    assert |q'.home| == |q'.home.Keys| && |q.home| == |q.home.Keys|;
  }

  lemma CountLink(q: Queue, count: nat, event: bool, producers: seq<Producer>, c: Consumer, p: nat)
    requires CountInv(q, count, event, producers, c) && p < |producers| && producers[p].Linking?
    requires CanLink(q, producers[p].me, producers[p].tail)
    requires Queued(LinkNode(q, producers[p].me, producers[p].tail)) + 1 < TWO_POW_32
    ensures
      var pc := producers[p];
      CountInv(LinkNode(q, pc.me, pc.tail), count, event, producers[p := SwingingTail(pc.me, pc.tail)], c)
  {
    var pc := SwingingTail(producers[p].me, producers[p].tail);
    QueuedLink(q, producers[p].me, producers[p].tail);
    SumUpdate(producers, p, pc, Uncounted);
    SumUpdate(producers, p, pc, Signallers);
  }

  lemma UncountedNonNegative(producers: seq<Producer>)
    ensures Sum(producers, Uncounted) >= 0 && Sum(producers, Signallers) >= 0
  {
    SumNonNegative(producers, Uncounted);
    SumNonNegative(producers, Signallers);
  }

  lemma CountUp(q: Queue, count: nat, event: bool, producers: seq<Producer>, c: Consumer, p: nat)
    requires CountInv(q, count, event, producers, c) && p < |producers| && producers[p].CountingUp?
    ensures CountInv(q, (count + 1) % TWO_POW_32, event, producers[p := Signalling], c)
  {
    UncountedNonNegative(producers[p := Signalling]);
    SumUpdate(producers, p, Signalling, Uncounted);
    SumUpdate(producers, p, Signalling, Signallers);
    assert count + 1 <= Queued(q) + 1;
  }

  lemma CountSignal(q: Queue, count: nat, event: bool, producers: seq<Producer>, c: Consumer, p: nat)
    requires CountInv(q, count, event, producers, c) && p < |producers| && producers[p].Signalling?
    ensures CountInv(q, count, true, producers[p := Idle], c)
  {
    SumUpdate(producers, p, Idle, Uncounted);
  }

  lemma CountTake(q: Queue, q': Queue, count: nat, event: bool, producers: seq<Producer>, c: Consumer, c': Consumer)
    requires CountInv(q, count, event, producers, c) && c.SwingingHead? && c'.FreeingNode?
    requires 0 <= Queued(q') == Queued(q) - 1
    ensures CountInv(q', count, event, producers, c')
  {
    hide Queued;
  }

  function Addresses(list: seq<Ref>): set<nat> { set i | 0 <= i < |list| :: list[i].addr }

  lemma {:induction false} AddressCount(list: seq<Ref>)
    requires forall i, j :: 0 <= i < j < |list| ==> list[i].addr != list[j].addr
    ensures |Addresses(list)| == |list|
  {
    if list != [] {
      var n := |list| - 1;
      AddressCount(list[..n]);
      assert Addresses(list) == Addresses(list[..n]) + {list[n].addr} by {
        assert forall i :: 0 <= i < n ==> list[..n][i] == list[i];
      }
    }
  }

  /** The records in the chain are among those queued. */
  lemma ChainFits(q: Queue)
    requires ListsInv(q)
    ensures |q.chain| - 1 <= Queued(q)
  {
    var chained, sides := Addresses(q.chain), q.sides.Keys;
    ChainAndSidesApart(q);
    assert Linked(q, 0, ListAt(q, 0));
    AddressCount(q.chain);
    assert |chained + sides| == |chained| + |sides|;
    Within(chained + sides, q.home.Keys);
    assert |q.home| == |q.home.Keys| && |q.sides| == |sides|;
  }

  lemma ChainAndSidesApart(q: Queue)
    requires ListsInv(q)
    ensures Addresses(q.chain) !! q.sides.Keys && Addresses(q.chain) + q.sides.Keys <= q.home.Keys
  {
    forall a | a in Addresses(q.chain)
      ensures a in q.home && q.home[a] == 0
    {
      var i :| 0 <= i < |q.chain| && q.chain[i].addr == a;
      assert Linked(q, 0, ListAt(q, 0));
      assert Placed(q, q.chain[i].addr, 0);
    }
    forall k | k in q.sides
      ensures k in q.home && q.home[k] == k && k > 0
    {
      SideHome(q, k);
    }
    hide ListsInv;
  }

  lemma SideHome(q: Queue, k: nat)
    requires AllLinked(q) && Named(q) && k in q.sides
    ensures k in q.home && q.home[k] == k && k > 0
  {
    assert Linked(q, k, ListAt(q, k));
    assert Placed(q, q.sides[k][0].addr, k);
  }

  lemma Within(a: set<nat>, b: set<nat>)
    requires a <= b
    ensures |a| <= |b|
  {
    assert b == a + (b - a);
  }

  // ---- Start-up ----

  /** Signals follow completed Enqueues, wakes follow signals, and nothing happens before static
      initialisation has finished. */
  ghost predicate StartInv(ready: bool, event: bool, producers: seq<Producer>, c: Consumer, h: History) {
    && h.wakes + (if event then 1 else 0) <= h.signals
    && h.signals + Sum(producers, Signallers) == h.enqueues
    && (!c.Waiting? || h.dequeues > 0 ==> h.wakes > 0)
    && (!ready ==> h.enqueues == 0 && forall p :: 0 <= p < |producers| ==> producers[p].Idle?)
  }

  lemma StartThread(ready: bool, event: bool, producers: seq<Producer>, c: Consumer, h: History, h': History,
                    p: nat, pc: Producer)
    requires StartInv(ready, event, producers, c, h) && p < |producers|
    requires ready || !producers[p].Idle?
    requires Signallers(pc) == Signallers(producers[p])
    requires h'.wakes == h.wakes && h'.signals == h.signals && h'.enqueues == h.enqueues && h'.dequeues == h.dequeues
    ensures StartInv(ready, event, producers[p := pc], c, h')
  {
    SumUpdate(producers, p, pc, Signallers);
  }

  lemma StartCountUp(ready: bool, event: bool, producers: seq<Producer>, c: Consumer, h: History, p: nat)
    requires StartInv(ready, event, producers, c, h) && p < |producers| && producers[p].CountingUp?
    ensures StartInv(ready, event, producers[p := Signalling], c, h.(enqueues := h.enqueues + 1))
  {
    SumUpdate(producers, p, Signalling, Signallers);
  }

  lemma StartSignal(ready: bool, event: bool, producers: seq<Producer>, c: Consumer, h: History, p: nat)
    requires StartInv(ready, event, producers, c, h) && p < |producers| && producers[p].Signalling?
    ensures StartInv(ready, true, producers[p := Idle], c, h.(signals := h.signals + 1))
  {
    SumUpdate(producers, p, Idle, Signallers);
  }

  // ---- Where the messages are ----

  /** The messages written by the consumer, in file order. */
  function AsyncPart(file: seq<Chunk>): seq<Message> {
    if file == [] then [] else
    var n := |file| - 1;
    AsyncPart(file[..n]) + if file[n].Async? then [file[n].message] else []
  }

  /** The records thread p wrote itself, in file order. */
  function SyncPart(file: seq<Chunk>, p: nat): seq<string> {
    if file == [] then [] else
    var n := |file| - 1;
    SyncPart(file[..n], p) + if file[n].Sync? && file[n].message.writer == p then [file[n].message.text] else []
  }

  /** The texts of one writer's messages. */
  function By(messages: seq<Message>, p: nat): seq<string> {
    if messages == [] then [] else
    var n := |messages| - 1;
    By(messages[..n], p) + if messages[n].writer == p then [messages[n].text] else []
  }

  /** The message the consumer has taken and not yet written. */
  function InHand(buffers: map<nat, Buffer>, c: Consumer): seq<Message> {
    if c.FreeingNode? || c.CountingDown? || c.Writing? then [TextOf(buffers, c.buf)] else []
  }

  /** The record a thread has built and not yet linked. */
  function Unsent(buffers: map<nat, Buffer>, pc: Producer): seq<string> {
    if Unlinking(pc) then [TextOf(buffers, pc.buf).text] else []
  }

  /** The messages of the nodes behind the first of the chain. */
  function QueueMessages(q: Queue, buffers: map<nat, Buffer>): seq<Message> {
    if q.chain == [] then [] else Messages(q, buffers, q.chain[1..])
  }

  ghost predicate PipelineInv(q: Queue, buffers: map<nat, Buffer>, monitor: seq<Chunk>, c: Consumer, h: History) {
    AsyncPart(monitor) + InHand(buffers, c) + QueueMessages(q, buffers) == h.linked
  }

  /** The records each thread wrote itself. */
  ghost predicate PrintsInv(monitor: seq<Chunk>, producers: seq<Producer>, h: History) {
    && |h.calls| == |h.prints| == |producers|
    && (forall p :: 0 <= p < |producers| ==> SyncPart(monitor, p) == h.prints[p])
  }

  lemma FileAppend(file: seq<Chunk>, chunk: Chunk)
    ensures AsyncPart(file + [chunk]) == AsyncPart(file) + if chunk.Async? then [chunk.message] else []
    ensures forall p :: SyncPart(file + [chunk], p)
                     == SyncPart(file, p) + if chunk.Sync? && chunk.message.writer == p then [chunk.message.text]
                       else []
  {
    assert (file + [chunk])[..|file|] == file;
  }

  lemma ByAppend(messages: seq<Message>, m: Message)
    ensures forall p :: By(messages + [m], p) == By(messages, p) + if m.writer == p then [m.text] else []
  {
    assert (messages + [m])[..|messages|] == messages;
  }

  lemma OwnerIsNoText(buffers: map<nat, Buffer>, buf: nat, owner: Owner)
    ensures forall b :: TextOf(NewOwner(buffers, buf, owner), b) == TextOf(buffers, b)
  {
  }

  lemma MessagesConcat(q: Queue, buffers: map<nat, Buffer>, first: seq<Ref>, second: seq<Ref>)
    ensures Messages(q, buffers, first + second) == Messages(q, buffers, first) + Messages(q, buffers, second)
  {
  }

  /** The record joins the chain, with those that hang on its node. */
  lemma PipelineLink(q: Queue, buffers: map<nat, Buffer>, monitor: seq<Chunk>, c: Consumer, h: History, me: Ref,
                     tail: Ref, buf: nat)
    requires PipelineInv(q, buffers, monitor, c, h) && CanLink(q, me, tail) && q.chain != []
    ensures
      var h' := if HomeOf(q, tail.addr) == 0 then h.(linked := h.linked + Messages(q, buffers, SideOf(q, me))) else h;
      PipelineInv(LinkNode(q, me, tail), NewOwner(buffers, buf, Slot(me.addr)), monitor, c, h')
  {
    QueueMessagesLink(q, buffers, me, tail, buf);
    OwnerIsNoText(buffers, buf, Slot(me.addr));
    assert InHand(NewOwner(buffers, buf, Slot(me.addr)), c) == InHand(buffers, c);
    hide QueueMessages, Messages, LinkNode, NewOwner, TextOf, AsyncPart, CanLink, InHand, SideOf;
    Regroup(AsyncPart(monitor), InHand(buffers, c), QueueMessages(q, buffers), Messages(q, buffers, SideOf(q, me)));
  }

  lemma Regroup(a: seq<Message>, b: seq<Message>, c: seq<Message>, d: seq<Message>)
    ensures a + b + (c + d) == a + b + c + d
  {
  }

  lemma QueueMessagesLink(q: Queue, buffers: map<nat, Buffer>, me: Ref, tail: Ref, buf: nat)
    requires CanLink(q, me, tail) && q.chain != []
    ensures QueueMessages(LinkNode(q, me, tail), NewOwner(buffers, buf, Slot(me.addr))) ==
      if HomeOf(q, tail.addr) == 0 then QueueMessages(q, buffers) + Messages(q, buffers, SideOf(q, me))
        else QueueMessages(q, buffers)
  {
    var q', moved := LinkNode(q, me, tail), SideOf(q, me);
    var buffers' := NewOwner(buffers, buf, Slot(me.addr));
    OwnerIsNoText(buffers, buf, Slot(me.addr));
    LinkData(q, me, tail);
    assert q'.chain == if HomeOf(q, tail.addr) == 0 then q.chain + moved else q.chain;
    hide LinkNode, NewOwner, TextOf, DataOf, CanLink;
    SameMessages(q, q', buffers, buffers', q'.chain[1..]);
    if HomeOf(q, tail.addr) == 0 {
      assert q'.chain[1..] == q.chain[1..] + moved;
      MessagesConcat(q, buffers, q.chain[1..], moved);
    }
    hide Messages;
  }

  lemma SameMessages(q: Queue, q': Queue, buffers: map<nat, Buffer>, buffers': map<nat, Buffer>, list: seq<Ref>)
    requires forall i :: 0 <= i < |list| ==>
      TextOf(buffers', DataOf(q', list[i])) == TextOf(buffers, DataOf(q, list[i]))
    ensures Messages(q', buffers', list) == Messages(q, buffers, list)
  {
  }

  lemma PipelineTake(q: Queue, buffers: map<nat, Buffer>, monitor: seq<Chunk>, c: Consumer, h: History)
    requires |q.chain| >= 2 && c.SwingingHead? && PipelineInv(q, buffers, monitor, c, h)
    ensures
      var buf := DataOf(q, q.chain[1]);
      PipelineInv(TakeHead(q, q.chain[1]), NewOwner(buffers, buf, ConsumerHand), monitor, FreeingNode(q.head, buf), h)
  {
    var q', buf := TakeHead(q, q.chain[1]), DataOf(q, q.chain[1]);
    OwnerIsNoText(buffers, buf, ConsumerHand);
    var buffers' := NewOwner(buffers, buf, ConsumerHand);
    hide NewOwner, TextOf, AsyncPart;
    QueueMessagesTake(q, buffers);
    assert InHand(buffers', FreeingNode(q.head, buf)) == [TextOf(buffers, buf)];
    assert InHand(buffers, c) == [];
    hide QueueMessages, InHand, TakeHead;
    assert AsyncPart(monitor) + [] + ([TextOf(buffers, buf)] + QueueMessages(q', buffers'))
      == AsyncPart(monitor) + [TextOf(buffers, buf)] + QueueMessages(q', buffers');
  }

  lemma QueueMessagesTake(q: Queue, buffers: map<nat, Buffer>)
    requires |q.chain| >= 2
    ensures
      var buf := DataOf(q, q.chain[1]);
      QueueMessages(q, buffers) ==
        [TextOf(buffers, buf)] + QueueMessages(TakeHead(q, q.chain[1]), NewOwner(buffers, buf, ConsumerHand))
  {
    var q', buf := TakeHead(q, q.chain[1]), DataOf(q, q.chain[1]);
    OwnerIsNoText(buffers, buf, ConsumerHand);
    var buffers' := NewOwner(buffers, buf, ConsumerHand);
    assert q'.chain[1..] == q.chain[2..] && forall r :: DataOf(q', r) == DataOf(q, r);
    hide NewOwner, TextOf, DataOf, TakeHead;
    assert q.chain[1..] == [q.chain[1]] + q.chain[2..];
    MessagesConcat(q, buffers, [q.chain[1]], q.chain[2..]);
    SameMessages(q, q', buffers, buffers', q.chain[2..]);
    assert Messages(q, buffers, [q.chain[1]]) == [TextOf(buffers, buf)];
    hide Messages;
  }

  lemma PipelineQueue(q: Queue, q': Queue, buffers: map<nat, Buffer>, monitor: seq<Chunk>, c: Consumer, h: History)
    requires PipelineInv(q, buffers, monitor, c, h) && q'.chain == q.chain && SameData(q, q', q.chain)
    ensures PipelineInv(q', buffers, monitor, c, h)
  {
    if q.chain != [] {
      SameMessages(q, q', buffers, buffers, q.chain[1..]);
    }
  }

  /** Creating or deleting a buffer that neither the queue nor the consumer's next write uses. */
  lemma PipelineBuffers(q: Queue, buffers: map<nat, Buffer>, buffers': map<nat, Buffer>, monitor: seq<Chunk>,
                        c: Consumer, c': Consumer, h: History)
    requires PipelineInv(q, buffers, monitor, c, h)
    requires InHand(buffers', c') == InHand(buffers, c)
    requires forall i :: 1 <= i < |q.chain| ==>
      TextOf(buffers', DataOf(q, q.chain[i])) == TextOf(buffers, DataOf(q, q.chain[i]))
    ensures PipelineInv(q, buffers', monitor, c', h)
  {
    if q.chain != [] {
      SameMessages(q, q, buffers, buffers', q.chain[1..]);
    }
  }

  lemma PipelineWrite(q: Queue, buffers: map<nat, Buffer>, monitor: seq<Chunk>, c: Consumer, h: History)
    requires PipelineInv(q, buffers, monitor, c, h) && c.Writing?
    ensures PipelineInv(q, buffers, monitor + [Async(TextOf(buffers, c.buf))], Deleting(c.buf), h)
  {
    FileAppend(monitor, Async(TextOf(buffers, c.buf)));
  }

  lemma PrintsPrint(monitor: seq<Chunk>, producers: seq<Producer>, h: History, m: Message)
    requires PrintsInv(monitor, producers, h) && m.writer < |producers|
    ensures PrintsInv(monitor + [Sync(m)], producers, h.(prints := h.prints[m.writer := h.prints[m.writer] + [m.text]]))
  {
    FileAppend(monitor, Sync(m));
  }

  lemma PrintsWrite(monitor: seq<Chunk>, producers: seq<Producer>, h: History, m: Message)
    requires PrintsInv(monitor, producers, h)
    ensures PrintsInv(monitor + [Async(m)], producers, h)
  {
    FileAppend(monitor, Async(m));
  }

  // ---- Each record once ----

  /** The message is a record of one of the calls. */
  predicate Genuine(h: History, m: Message) {
    m.writer < |h.calls| && m.no < |h.calls[m.writer]| && h.calls[m.writer][m.no] == m.text
  }

  predicate SameCall(m: Message, m': Message) { m.writer == m'.writer && m.no == m'.no }

  /** A live buffer whose record has not joined the chain: a thread holds it, or its node hangs on that of
      an unfinished Enqueue. */
  predicate Pending(q: Queue, buffers: map<nat, Buffer>, b: nat) {
    && b in buffers
    && (buffers[b].owner.Hand? || (buffers[b].owner.Slot? && HomeOf(q, buffers[b].owner.addr) != 0))
  }

  ghost predicate LinkedOnce(h: History) {
    && (forall i :: 0 <= i < |h.linked| ==> Genuine(h, h.linked[i]))
    && (forall i, j :: 0 <= i < j < |h.linked| ==> !SameCall(h.linked[i], h.linked[j]))
  }

  ghost predicate PendingOnce(q: Queue, buffers: map<nat, Buffer>, h: History) {
    && (forall b :: Pending(q, buffers, b) ==> Genuine(h, buffers[b].message))
    && (forall b, b' :: Pending(q, buffers, b) && Pending(q, buffers, b') && b != b' ==>
          !SameCall(buffers[b].message, buffers[b'].message))
    && (forall b, i :: Pending(q, buffers, b) && 0 <= i < |h.linked| ==> !SameCall(h.linked[i], buffers[b].message))
  }

  ghost predicate HasLinked(h: History, p: nat, no: nat) {
    exists i :: 0 <= i < |h.linked| && h.linked[i].writer == p && h.linked[i].no == no
  }

  ghost predicate HasPending(q: Queue, buffers: map<nat, Buffer>, p: nat, no: nat) {
    exists b :: Pending(q, buffers, b) && buffers[b].message.writer == p && buffers[b].message.no == no
  }

  ghost predicate AllKept(q: Queue, buffers: map<nat, Buffer>, h: History) {
    forall p, no :: 0 <= p < |h.calls| && 0 <= no < |h.calls[p]| ==>
      HasLinked(h, p, no) || HasPending(q, buffers, p, no)
  }

  /** Every record is in exactly one place. */
  ghost predicate RecordsInv(q: Queue, buffers: map<nat, Buffer>, h: History) {
    LinkedOnce(h) && PendingOnce(q, buffers, h) && AllKept(q, buffers, h)
  }

  /** A change under which the same buffers are pending with the same messages. */
  lemma RecordsSame(q: Queue, q': Queue, buffers: map<nat, Buffer>, buffers': map<nat, Buffer>, h: History, h': History)
    requires RecordsInv(q, buffers, h) && h'.linked == h.linked && h'.calls == h.calls
    requires forall b :: Pending(q', buffers', b) <==> Pending(q, buffers, b)
    requires forall b :: Pending(q, buffers, b) ==> b in buffers' && buffers'[b].message == buffers[b].message
    ensures RecordsInv(q', buffers', h')
  {
    forall p, no | 0 <= p < |h.calls| && 0 <= no < |h.calls[p]|
      ensures HasLinked(h', p, no) || HasPending(q', buffers', p, no)
    {
      if HasLinked(h, p, no) {
        var i :| 0 <= i < |h.linked| && h.linked[i].writer == p && h.linked[i].no == no;
        assert h'.linked[i].no == no;
      } else {
        var b :| Pending(q, buffers, b) && buffers[b].message.writer == p && buffers[b].message.no == no;
        assert Pending(q', buffers', b);
      }
    }
  }

  lemma RecordsCall(q: Queue, buffers: map<nat, Buffer>, h: History, p: nat, buf: nat, text: string)
    requires RecordsInv(q, buffers, h) && p < |h.calls| && buf !in buffers
    ensures RecordsInv(q, buffers[buf := Buffer(Message(p, |h.calls[p]|, text), Hand(p))],
                       h.(calls := h.calls[p := h.calls[p] + [text]]))
  {
    var buffers' := buffers[buf := Buffer(Message(p, |h.calls[p]|, text), Hand(p))];
    var h' := h.(calls := h.calls[p := h.calls[p] + [text]]);
    assert forall m: Message :: Genuine(h, m) ==> Genuine(h', m) && !SameCall(m, buffers'[buf].message);
    assert forall b :: b != buf ==> (Pending(q, buffers', b) <==> Pending(q, buffers, b));
    forall r, no | 0 <= r < |h'.calls| && 0 <= no < |h'.calls[r]|
      ensures HasLinked(h', r, no) || HasPending(q, buffers', r, no)
    {
      if r == p && no == |h.calls[p]| {
        assert Pending(q, buffers', buf);
      } else if HasLinked(h, r, no) {
        var i :| 0 <= i < |h.linked| && h.linked[i].writer == r && h.linked[i].no == no;
        assert h'.linked[i].no == no;
      } else {
        var b :| Pending(q, buffers, b) && buffers[b].message.writer == r && buffers[b].message.no == no;
        assert Pending(q, buffers', b);
      }
    }
  }

  function TextsOf(buffers: map<nat, Buffer>, bufs: seq<nat>): seq<Message> {
    seq(|bufs|, i requires 0 <= i < |bufs| => TextOf(buffers, bufs[i]))
  }

  /** The pending buffers in `moved` join the linked ones. */
  lemma RecordsJoin(q: Queue, q': Queue, buffers: map<nat, Buffer>, buffers': map<nat, Buffer>, h: History,
                    moved: seq<nat>)
    requires RecordsInv(q, buffers, h)
    requires forall i :: 0 <= i < |moved| ==> Pending(q, buffers, moved[i])
    requires forall i, j :: 0 <= i < j < |moved| ==> moved[i] != moved[j]
    requires forall b :: Pending(q', buffers', b) <==> Pending(q, buffers, b) && b !in moved
    requires forall b :: b in buffers ==> b in buffers' && buffers'[b].message == buffers[b].message
    ensures RecordsInv(q', buffers', h.(linked := h.linked + TextsOf(buffers, moved)))
  {
    var n := |h.linked|;
    var h' := h.(linked := h.linked + TextsOf(buffers, moved));
    assert forall i :: 0 <= i < n ==> h'.linked[i] == h.linked[i];
    assert forall i :: 0 <= i < |moved| ==> h'.linked[n + i] == buffers[moved[i]].message;
    JoinedLinked(q, buffers, h, h', moved);
    JoinedPending(q, q', buffers, buffers', h, h', moved);
    JoinedKept(q, q', buffers, buffers', h, h', moved);
  }

  lemma JoinedLinked(q: Queue, buffers: map<nat, Buffer>, h: History, h': History, moved: seq<nat>)
    requires LinkedOnce(h) && PendingOnce(q, buffers, h) && h'.calls == h.calls && |h'.linked| == |h.linked| + |moved|
    requires forall i :: 0 <= i < |moved| ==> Pending(q, buffers, moved[i])
    requires forall i, j :: 0 <= i < j < |moved| ==> moved[i] != moved[j]
    requires forall i :: 0 <= i < |h.linked| ==> h'.linked[i] == h.linked[i]
    requires forall i :: 0 <= i < |moved| ==> h'.linked[|h.linked| + i] == buffers[moved[i]].message
    ensures LinkedOnce(h')
  {
    var n := |h.linked|;
    forall i | 0 <= i < |h'.linked|
      ensures Genuine(h', h'.linked[i])
    {
      if i >= n {
        assert h'.linked[n + (i - n)] == buffers[moved[i - n]].message;
      } else {
        assert Genuine(h, h.linked[i]);
      }
    }
    forall i, j | 0 <= i < j < |h'.linked|
      ensures !SameCall(h'.linked[i], h'.linked[j])
    {
      if j >= n {
        assert Pending(q, buffers, moved[j - n]) && h'.linked[n + (j - n)] == buffers[moved[j - n]].message;
        if i >= n {
          assert Pending(q, buffers, moved[i - n]) && h'.linked[n + (i - n)] == buffers[moved[i - n]].message;
        }
      }
    }
  }

  lemma JoinedPending(q: Queue, q': Queue, buffers: map<nat, Buffer>, buffers': map<nat, Buffer>, h: History,
                      h': History, moved: seq<nat>)
    requires PendingOnce(q, buffers, h) && h'.calls == h.calls && |h'.linked| == |h.linked| + |moved|
    requires forall i :: 0 <= i < |moved| ==> Pending(q, buffers, moved[i])
    requires forall i :: 0 <= i < |h.linked| ==> h'.linked[i] == h.linked[i]
    requires forall i :: 0 <= i < |moved| ==> h'.linked[|h.linked| + i] == buffers[moved[i]].message
    requires forall b :: Pending(q', buffers', b) <==> Pending(q, buffers, b) && b !in moved
    requires forall b :: b in buffers ==> b in buffers' && buffers'[b].message == buffers[b].message
    ensures PendingOnce(q', buffers', h')
  {
    var n := |h.linked|;
    forall b, i | Pending(q', buffers', b) && 0 <= i < |h'.linked|
      ensures !SameCall(h'.linked[i], buffers'[b].message)
    {
      assert Pending(q, buffers, b);
      if i >= n {
        assert Pending(q, buffers, moved[i - n]) && h'.linked[n + (i - n)] == buffers[moved[i - n]].message;
      }
    }
    assert forall b :: Pending(q', buffers', b) ==> Pending(q, buffers, b);
  }

  lemma JoinedKept(q: Queue, q': Queue, buffers: map<nat, Buffer>, buffers': map<nat, Buffer>, h: History, h': History,
                   moved: seq<nat>)
    requires AllKept(q, buffers, h) && h'.calls == h.calls && |h'.linked| == |h.linked| + |moved|
    requires forall i :: 0 <= i < |h.linked| ==> h'.linked[i] == h.linked[i]
    requires forall i :: 0 <= i < |moved| ==>
      moved[i] in buffers && h'.linked[|h.linked| + i] == buffers[moved[i]].message
    requires forall b :: Pending(q', buffers', b) <==> Pending(q, buffers, b) && b !in moved
    requires forall b :: b in buffers ==> b in buffers' && buffers'[b].message == buffers[b].message
    ensures AllKept(q', buffers', h')
  {
    forall p, no | 0 <= p < |h'.calls| && 0 <= no < |h'.calls[p]|
      ensures HasLinked(h', p, no) || HasPending(q', buffers', p, no)
    {
      if HasLinked(h, p, no) {
        var i :| 0 <= i < |h.linked| && h.linked[i].writer == p && h.linked[i].no == no;
        assert h'.linked[i].no == no;
      } else {
        var b :| Pending(q, buffers, b) && buffers[b].message.writer == p && buffers[b].message.no == no;
        if b in moved {
          var i :| 0 <= i < |moved| && moved[i] == b;
          assert h'.linked[|h.linked| + i].no == no;
        } else {
          assert Pending(q', buffers', b);
        }
      }
    }
  }

  function Datas(q: Queue, list: seq<Ref>): seq<nat> {
    seq(|list|, i requires 0 <= i < |list| => DataOf(q, list[i]))
  }

  /** A buffer owned by a node: the node is in the list that is its home, and not its first. */
  lemma SlotHome(q: Queue, producers: seq<Producer>, c: Consumer, addr: nat, buf: nat)
    requires AllLinked(q) && OwnerHolds(q, producers, c, buf, Slot(addr))
    ensures addr in q.home && IsList(q, q.home[addr]) && InSlot(q, ListAt(q, q.home[addr]), addr, buf)
  {
    var k :| IsList(q, k) && InSlot(q, ListAt(q, k), addr, buf);
    assert Linked(q, k, ListAt(q, k));
    var i :| 1 <= i < |ListAt(q, k)| && ListAt(q, k)[i].addr == addr && DataOf(q, ListAt(q, k)[i]) == buf;
    assert Placed(q, ListAt(q, k)[i].addr, k);
  }

  /** The buffers of the list that is linked are pending until then, and different. */
  lemma MovedPending(q: Queue, buffers: map<nat, Buffer>, me: Ref, buf: nat)
    requires AllLinked(q) && me.addr in q.sides && me.addr > 0 && q.sides[me.addr] != [] && q.sides[me.addr][0] == me
    requires SlotsOwned(q, buffers, q.sides[me.addr]) && DataOf(q, me) == buf
    requires buf in buffers && buffers[buf].owner.Hand?
    ensures
      var moved := Datas(q, q.sides[me.addr]);
      && (forall i :: 0 <= i < |moved| ==> Pending(q, buffers, moved[i]))
      && (forall i, j :: 0 <= i < j < |moved| ==> moved[i] != moved[j])
      && moved[0] == buf
      && (forall i :: 1 <= i < |moved| ==> buffers[moved[i]].owner == Slot(q.sides[me.addr][i].addr))
  {
    var side, moved := q.sides[me.addr], Datas(q, q.sides[me.addr]);
    assert Linked(q, me.addr, ListAt(q, me.addr));
    forall i | 1 <= i < |moved|
      ensures OwnedBy(buffers, moved[i], Slot(side[i].addr)) && Pending(q, buffers, moved[i])
    {
      assert OwnedBy(buffers, DataOf(q, side[i]), Slot(side[i].addr)) && Placed(q, side[i].addr, me.addr);
    }
    forall i, j | 0 <= i < j < |moved|
      ensures moved[i] != moved[j]
    {
      assert side[i].addr != side[j].addr;
    }
  }

  /** Which buffers are pending after a link: all that were, but those that joined the chain. */
  lemma PendingLink(q: Queue, buffers: map<nat, Buffer>, producers: seq<Producer>, c: Consumer, me: Ref, tail: Ref,
                    buf: nat, b: nat)
    requires AllLinked(q) && CanLink(q, me, tail) && DataOf(q, me) == buf
    requires buf in buffers && buffers[buf].owner.Hand?
    requires SlotsOwned(q, buffers, q.sides[me.addr])
    requires b in buffers ==> OwnerHolds(q, producers, c, b, buffers[b].owner)
    ensures
      Pending(LinkNode(q, me, tail), NewOwner(buffers, buf, Slot(me.addr)), b) <==>
        Pending(q, buffers, b) && !(HomeOf(q, tail.addr) == 0 && b in Datas(q, q.sides[me.addr]))
  {
    var moved := Datas(q, q.sides[me.addr]);
    MovedPending(q, buffers, me, buf);
    assert Linked(q, me.addr, ListAt(q, me.addr)) && Placed(q, q.sides[me.addr][0].addr, me.addr);
    if b in buffers && b != buf && buffers[b].owner.Slot? {
      var a := buffers[b].owner.addr;
      SlotHome(q, producers, c, a, b);
      HomeAfterLink(q, me, tail, a);
      if q.home[a] == me.addr {
        SlotMoved(q, me, a, b);
      } else {
        NotMoved(q, buffers, me, b);
      }
    } else if b == buf {
      HomeAfterLink(q, me, tail, me.addr);
      assert moved[0] == b;
    }
  }

  lemma HomeAfterLink(q: Queue, me: Ref, tail: Ref, a: nat)
    requires CanLink(q, me, tail) && a in q.home
    ensures HomeOf(LinkNode(q, me, tail), a) == if q.home[a] == me.addr then HomeOf(q, tail.addr) else q.home[a]
  {
  }

  lemma SlotMoved(q: Queue, me: Ref, a: nat, b: nat)
    requires me.addr in q.sides && InSlot(q, q.sides[me.addr], a, b)
    ensures b in Datas(q, q.sides[me.addr])
  {
    var i :| 1 <= i < |q.sides[me.addr]| && q.sides[me.addr][i].addr == a && DataOf(q, q.sides[me.addr][i]) == b;
    assert Datas(q, q.sides[me.addr])[i] == b;
  }

  lemma NotMoved(q: Queue, buffers: map<nat, Buffer>, me: Ref, b: nat)
    requires AllLinked(q) && me.addr in q.sides && me.addr > 0 && b in buffers && buffers[b].owner.Slot?
    requires buffers[b].owner.addr in q.home && q.home[buffers[b].owner.addr] != me.addr
    requires q.sides[me.addr] != [] && Datas(q, q.sides[me.addr])[0] != b
    requires SlotsOwned(q, buffers, q.sides[me.addr])
    ensures b !in Datas(q, q.sides[me.addr])
  {
    var side, moved := q.sides[me.addr], Datas(q, q.sides[me.addr]);
    assert Linked(q, me.addr, ListAt(q, me.addr));
    forall i | 1 <= i < |moved|
      ensures moved[i] != b
    {
      assert OwnedBy(buffers, DataOf(q, side[i]), Slot(side[i].addr)) && Placed(q, side[i].addr, me.addr);
    }
  }

  lemma RecordsLink(q: Queue, buffers: map<nat, Buffer>, producers: seq<Producer>, c: Consumer, h: History, p: nat)
    requires AllLinked(q) && OwnersInv(q, buffers, producers, c) && RecordsInv(q, buffers, h)
    requires p < |producers| && producers[p].Linking? && CanLink(q, producers[p].me, producers[p].tail)
    requires DataOf(q, producers[p].me) == producers[p].buf
    ensures
      var pc := producers[p];
      var h' := if HomeOf(q, pc.tail.addr) == 0 then h.(linked := h.linked + Messages(q, buffers, SideOf(q, pc.me)))
        else h;
      RecordsInv(LinkNode(q, pc.me, pc.tail), NewOwner(buffers, pc.buf, Slot(pc.me.addr)), h')
  {
    var pc := producers[p];
    var q', buffers' := LinkNode(q, pc.me, pc.tail), NewOwner(buffers, pc.buf, Slot(pc.me.addr));
    var moved := Datas(q, q.sides[pc.me.addr]);
    OwnedForLink(q, buffers, producers, c, p);
    MovedPending(q, buffers, pc.me, pc.buf);
    PendingsLink(q, buffers, producers, c, pc.me, pc.tail, pc.buf);
    KeepsMessages(buffers, pc.buf, Slot(pc.me.addr));
    assert SideOf(q, pc.me) == q.sides[pc.me.addr];
    hide AllLinked, RecordsInv, Pending, LinkNode, NewOwner, SlotsOwned, CanLink, OwnersInv, Datas;
    RecordsLinked(q, q', buffers, buffers', h, q.sides[pc.me.addr], HomeOf(q, pc.tail.addr) == 0);
  }

  lemma RecordsLinked(q: Queue, q': Queue, buffers: map<nat, Buffer>, buffers': map<nat, Buffer>, h: History,
                      side: seq<Ref>, toChain: bool)
    requires RecordsInv(q, buffers, h)
    requires
      var moved := Datas(q, side);
      && (forall i :: 0 <= i < |moved| ==> Pending(q, buffers, moved[i]))
      && (forall i, j :: 0 <= i < j < |moved| ==> moved[i] != moved[j])
    requires forall b :: Pending(q', buffers', b) <==> Pending(q, buffers, b) && !(toChain && b in Datas(q, side))
    requires forall b :: b in buffers ==> b in buffers' && buffers'[b].message == buffers[b].message
    ensures RecordsInv(q', buffers', if toChain then h.(linked := h.linked + Messages(q, buffers, side)) else h)
  {
    PendingLive(q, buffers);
    hide RecordsInv, Pending, Datas;
    if toChain {
      RecordsJoin(q, q', buffers, buffers', h, Datas(q, side));
      MessagesOfDatas(q, buffers, side);
    } else {
      RecordsSame(q, q', buffers, buffers', h, h);
    }
  }

  lemma PendingsLink(q: Queue, buffers: map<nat, Buffer>, producers: seq<Producer>, c: Consumer, me: Ref, tail: Ref,
                     buf: nat)
    requires AllLinked(q) && OwnersInv(q, buffers, producers, c) && CanLink(q, me, tail) && DataOf(q, me) == buf
    requires buf in buffers && buffers[buf].owner.Hand? && SlotsOwned(q, buffers, q.sides[me.addr])
    ensures forall b ::
      Pending(LinkNode(q, me, tail), NewOwner(buffers, buf, Slot(me.addr)), b) <==>
        Pending(q, buffers, b) && !(HomeOf(q, tail.addr) == 0 && b in Datas(q, q.sides[me.addr]))
  {
    hide AllLinked, Pending, LinkNode, NewOwner, SlotsOwned;
    forall b
      ensures Pending(LinkNode(q, me, tail), NewOwner(buffers, buf, Slot(me.addr)), b) <==>
        Pending(q, buffers, b) && !(HomeOf(q, tail.addr) == 0 && b in Datas(q, q.sides[me.addr]))
    {
      assert b in buffers ==> OwnerHolds(q, producers, c, b, buffers[b].owner);
      PendingLink(q, buffers, producers, c, me, tail, buf, b);
    }
  }

  lemma OwnedForLink(q: Queue, buffers: map<nat, Buffer>, producers: seq<Producer>, c: Consumer, p: nat)
    requires OwnersInv(q, buffers, producers, c) && p < |producers| && producers[p].Linking?
    requires CanLink(q, producers[p].me, producers[p].tail)
    ensures producers[p].buf in buffers && buffers[producers[p].buf].owner == Hand(p)
    ensures SlotsOwned(q, buffers, q.sides[producers[p].me.addr])
  {
    assert Unlinking(producers[p]);
    assert IsList(q, producers[p].me.addr) && SlotsOwned(q, buffers, ListAt(q, producers[p].me.addr));
  }

  lemma KeepsMessages(buffers: map<nat, Buffer>, buf: nat, owner: Owner)
    ensures forall b :: b in buffers ==>
      b in NewOwner(buffers, buf, owner) && NewOwner(buffers, buf, owner)[b].message == buffers[b].message
  {
  }

  lemma PendingLive(q: Queue, buffers: map<nat, Buffer>)
    ensures forall b :: Pending(q, buffers, b) ==> b in buffers
  {
  }

  lemma MessagesOfDatas(q: Queue, buffers: map<nat, Buffer>, list: seq<Ref>)
    ensures Messages(q, buffers, list) == TextsOf(buffers, Datas(q, list))
  {
  }

  /** Handing out a node makes no buffer pending. */
  lemma RecordsAlloc(q: Queue, buffers: map<nat, Buffer>, producers: seq<Producer>, c: Consumer, h: History, me: Ref,
                     buf: nat)
    requires AllLinked(q) && OwnersInv(q, buffers, producers, c) && RecordsInv(q, buffers, h) && me.addr !in q.home
    ensures RecordsInv(AllocNode(q, me, buf), buffers, h)
  {
    var q' := AllocNode(q, me, buf);
    hide RecordsInv, AllLinked;
    forall b
      ensures Pending(q', buffers, b) <==> Pending(q, buffers, b)
    {
      if b in buffers && buffers[b].owner.Slot? {
        assert OwnerHolds(q, producers, c, b, buffers[b].owner);
        SlotHome(q, producers, c, buffers[b].owner.addr, b);
      }
    }
    RecordsSame(q, q', buffers, buffers, h, h);
  }

  /** Nor does dequeuing, which only touches a buffer of the chain. */
  lemma RecordsTake(q: Queue, buffers: map<nat, Buffer>, h: History, buf: nat)
    requires RecordsInv(q, buffers, h) && |q.chain| >= 2 && q.chain[0] == q.head && Placed(q, q.head.addr, 0)
    requires Placed(q, q.chain[1].addr, 0) && OwnedBy(buffers, buf, Slot(q.chain[1].addr))
    ensures RecordsInv(TakeHead(q, q.chain[1]), NewOwner(buffers, buf, ConsumerHand), h)
  {
    hide RecordsInv;
    KeepsMessages(buffers, buf, ConsumerHand);
    RecordsSame(q, TakeHead(q, q.chain[1]), buffers, NewOwner(buffers, buf, ConsumerHand), h, h);
  }
}
