/** What happens when a tagged pointer is given out again while a thread still remembers it: mTail can be
    moved off the end of the queue, and a record can be lost for good. Identifiers have 16 bits in the
    pointer, so this takes 65536 Enqueues while one thread stands still. */
module AsyncLogReissue {
  import opened AsyncLogModel
  import opened AsyncLogInvariant
  import opened AsyncLogLedger
  import opened AsyncLogSteps
  import opened AsyncLogTheorems
  import opened AsyncLogProgress
  import opened AsyncLogReuse
  import opened AsyncLogRuns
  import opened AsyncLogScenarios
  import opened LogText

  // ---- The remembered CAS ----

  /** Thread p is given the node at addr and its call ends; thread r's CAS of mTail then finds what it
      expects, though mTail is at the end, and will move it away from there. */
  ghost predicate MovesTailOffEnd(s: State, p: nat, r: nat, addr: nat) {
    && Enabled(s, Alloc(p, addr))
    && var s1 := Apply(s, Alloc(p, addr));
    && p < |s1.producers| && s1.producers[p].LoadingTail? && NextOf(s1.q, s1.q.tail) == NULL
    && var s2 := FinishCall(s1, p);
    r < |s2.producers| && AtEnd(s2.q) && Remembers(s2.producers[r], s2.q.tail)
  }

  /** The allocation gives out the tagged pointer that thread r remembers. */
  predicate Reissues(s: State, p: nat, r: nat, addr: nat) {
    Enabled(s, Alloc(p, addr)) && r < |s.producers| && Remembers(s.producers[r], Ref(addr, s.producers[p].tag))
  }

  /** Exactly when: when the allocation reissues what thread r remembers. */
  lemma TailMovesOffEndExactly(s: State, p: nat, r: nat, addr: nat)
    requires Inv(s) && AtEnd(s.q) && Enabled(s, Alloc(p, addr)) && r < |s.producers| && r != p
    ensures MovesTailOffEnd(s, p, r, addr) <==> Reissues(s, p, r, addr)
  {
    hide Inv, ListsInv, FinishCall, LinkNode, Apply, AllocNode, AtEnd, CanAlloc, NextOf, Remembers;
    var me, s1 := Ref(addr, s.producers[p].tag), Apply(s, Alloc(p, addr));
    GivenAlone(s, p, addr);
    EndsAtOwn(s1, p, me);
    hide ListsInv;
    var s2 := FinishCall(s1, p);
    assert s2.producers[r] == s.producers[r];
  }

  lemma GivenAlone(s: State, p: nat, addr: nat)
    requires Inv(s) && AtEnd(s.q) && Enabled(s, Alloc(p, addr))
    ensures
      var me, s1 := Ref(addr, s.producers[p].tag), Apply(s, Alloc(p, addr));
      && ListsInv(s1.q) && AtEnd(s1.q) && addr > 0 && addr in s1.q.sides && s1.q.sides[addr] == [me]
      && s1.producers == s.producers[p := LoadingTail(s.producers[p].buf, me)]
  {
    hide Inv, ListsInv, Apply, AllocNode, AtEnd, CanAlloc;
    var me := Ref(addr, s.producers[p].tag);
    Given(s, p, addr);
    SameEndAlloc(s.q, me, s.producers[p].buf);
    NewSide(s.q, me, s.producers[p].buf);
  }

  /** A call whose node stands alone ends with mTail at that node, the last. */
  lemma EndsAtOwn(s: State, p: nat, me: Ref)
    requires ListsInv(s.q) && AtEnd(s.q) && p < |s.producers| && s.producers[p].LoadingTail? && s.producers[p].me == me
    requires me.addr > 0 && me.addr in s.q.sides && s.q.sides[me.addr] == [me]
    ensures NextOf(s.q, s.q.tail) == NULL
    ensures FinishCall(s, p).q.tail == me && AtEnd(FinishCall(s, p).q)
      && FinishCall(s, p).producers == s.producers[p := Idle]
  {
    hide ListsInv, FinishCall, LinkNode;
    EndHasNoNext(s.q);
    FinishCallOutcome(s, p);
    LinkAtEnd(s.q, me);
  }

  lemma NewSide(q: Queue, me: Ref, buf: nat)
    ensures var q' := AllocNode(q, me, buf); me.addr in q'.sides && q'.sides[me.addr] == [me]
  {
  }

  // ---- Any steps at all ----

  ghost predicate AnyStep(s: State, s': State) { exists a :: Enabled(s, a) && s' == Apply(s, a) }

  ghost predicate Leads(s: State, s': State) {
    exists states: seq<State> :: Steps(states) && states[0] == s && states[|states| - 1] == s'
  }

  ghost predicate Steps(states: seq<State>) {
    states != [] && forall i {:trigger states[i]} :: 0 < i < |states| ==> AnyStep(states[i - 1], states[i])
  }

  lemma LeadsHere(s: State)
    ensures Leads(s, s)
  {
    assert Steps([s]);
  }

  lemma Then(o: State, s: State, a: Action) returns (s': State)
    requires Leads(o, s) && Enabled(s, a)
    ensures Leads(o, s') && s' == Apply(s, a)
  {
    hide Apply, Enabled;
    s' := Apply(s, a);
    var states: seq<State> :| Steps(states) && states[0] == o && states[|states| - 1] == s;
    var longer := states + [s'];
    assert AnyStep(s, s');
    forall i | 0 < i < |longer|
      ensures AnyStep(longer[i - 1], longer[i])
    {
      assert i < |states| ==> AnyStep(states[i - 1], states[i]);
    }
    assert Steps(longer);
  }

  lemma CallEnds(o: State, s: State, p: nat)
    requires Leads(o, s) && p < |s.producers| && s.producers[p].LoadingTail? && NextOf(s.q, s.q.tail) == NULL
    ensures Leads(o, FinishCall(s, p))
  {
    hide Leads, LinkNode, Messages, SideOf;
    var s1 := Then(o, s, Produce(p));
    var s2 := Then(o, s1, Produce(p));
    var s3 := Then(o, s2, Produce(p));
    var s4 := Then(o, s3, Produce(p));
    var s5 := Then(o, s4, Produce(p));
  }

  lemma Takes(o: State, s: State)
    requires Leads(o, s) && CanTake(s)
    ensures Leads(o, Taken(s))
  {
    hide Leads, TakeHead, NewOwner;
    var s1 := Then(o, s, Consume);
    var s2 := Then(o, s1, Consume);
    var s3 := Then(o, s2, Consume);
    var s4 := Then(o, s3, Consume);
    var s5 := Then(o, s4, Consume);
    assert s5.consumer == LoadingData(s.q.head, NextOf(s.q, s.q.head)) && s5.q == s.q;
    TakesRest(o, s5);
    TakenOwner(s.buffers, DataOf(s.q, NextOf(s.q, s.q.head)));
  }

  lemma TakesRest(o: State, s: State)
    requires Leads(o, s) && s.consumer.LoadingData? && s.consumer.head == s.q.head
    ensures
      var next := s.consumer.next;
      var buf := DataOf(s.q, next);
      var buffers := NewOwner(s.buffers, buf, ConsumerHand);
      Leads(o, s.(q := FreeNode(TakeHead(s.q, next), s.q.head.addr), count := (s.count - 1) % TWO_POW_32,
                  buffers := buffers - {buf},
                  monitor := s.monitor + [Async(TextOf(buffers, buf))], consumer := Checking))
  {
    hide Leads, TakeHead, NewOwner, TextOf, FreeNode;
    var s1 := Then(o, s, Consume);
    var s2 := Then(o, s1, Consume);
    var s3 := Then(o, s2, Consume);
    TakesEnd(o, s3);
  }

  lemma TakesEnd(o: State, s: State)
    requires Leads(o, s) && s.consumer.CountingDown?
    ensures
      var buf := s.consumer.buf;
      Leads(o, s.(count := (s.count - 1) % TWO_POW_32, buffers := s.buffers - {buf},
                  monitor := s.monitor + [Async(TextOf(s.buffers, buf))], consumer := Checking))
  {
    hide Leads, TextOf;
    var s1 := Then(o, s, Consume);
    var s2 := Then(o, s1, Consume);
    var s3 := Then(o, s2, Consume);
  }

  // ---- A record nobody will ever write ----

  /** The node at `addr`, with buffer b, is its own successor and no other node's; b holds the record of call
      `no` of thread p and no other buffer does, and nobody has the node or b in hand. */
  ghost predicate Orphan(s: State, addr: nat, b: nat, p: nat, no: nat) {
    && OrphanNode(s.q, addr, b)
    && (forall r :: 0 <= r < |s.producers| ==> Apart(s.producers[r], addr, b))
    && ConsumerApart(s.consumer, addr, b)
    && OrphanRecord(s, b, p, no)
  }

  ghost predicate OrphanNode(q: Queue, addr: nat, b: nat) {
    && addr > 0 && b > 0 && addr in q.heap && q.heap[addr].next.addr == addr && q.head.addr != addr && addr !in q.pool
    && (forall c :: c in q.heap && c != addr ==> q.heap[c].next.addr != addr && q.heap[c].data != b)
  }

  predicate Apart(pc: Producer, addr: nat, b: nat) {
    (Unlinking(pc) ==> pc.buf != b) && (HasNode(pc) ==> pc.me.addr != addr)
  }

  predicate ConsumerApart(c: Consumer, addr: nat, b: nat) {
    && (c.LoadingHeadTail? || c.LoadingNext? || c.Deciding? || c.LoadingData? || c.SwingingHead? || c.FreeingNode? ==>
        c.head.addr != addr)
    && (c.Deciding? || c.LoadingData? || c.SwingingHead? ==> c.next.addr != addr)
    && (c.SwingingHead? || c.FreeingNode? || c.CountingDown? || c.Writing? || c.Deleting? ==> c.buf != b)
  }

  ghost predicate OrphanRecord(s: State, b: nat, p: nat, no: nat) {
    && b in s.buffers && s.buffers[b].message.writer == p && s.buffers[b].message.no == no
    && (forall c :: c in s.buffers && c != b ==> !(s.buffers[c].message.writer == p && s.buffers[c].message.no == no))
    && p > 0 && p < |s.h.calls| && no < |s.h.calls[p]|
    && (forall i :: !IsRecord(AsyncPart(s.monitor), i, p, no))
  }

  /** Whatever happens, safe or not, it stays so: the record is never written, the buffer never deleted. */
  lemma OrphanStays(s: State, a: Action, addr: nat, b: nat, p: nat, no: nat)
    requires Orphan(s, addr, b, p, no) && Enabled(s, a)
    ensures Orphan(Apply(s, a), addr, b, p, no)
  {
    hide OrphanNode, OrphanRecord, ConsumerApart, Apart, AsyncPart;
    BufApart(s, a, addr, b, p, no);
    OrphanNodeStays(s, a, addr, b);
    ApartStays(s, a, addr, b);
    OrphanConsumer(s, a, addr, b);
    OrphanRecordStays(s, a, b, p, no);
  }

  lemma BufApart(s: State, a: Action, addr: nat, b: nat, p: nat, no: nat)
    requires ConsumerApart(s.consumer, addr, b) && OrphanRecord(s, b, p, no) && Enabled(s, a)
    ensures s.consumer.Writing? || s.consumer.Deleting? ==> s.consumer.buf != b
    ensures a.Call? ==> a.buf != b
  {
  }

  lemma OrphanNodeStays(s: State, a: Action, addr: nat, b: nat)
    requires OrphanNode(s.q, addr, b) && Enabled(s, a) && ConsumerApart(s.consumer, addr, b)
    requires forall r :: 0 <= r < |s.producers| ==> Apart(s.producers[r], addr, b)
    ensures OrphanNode(Apply(s, a).q, addr, b)
  {
    hide ProducerStep, ConsumerStep, AllocNode;
    if a.Alloc? {
      assert Apart(s.producers[a.p], addr, b);
      AllocApartFrom(s.q, Ref(a.addr, s.producers[a.p].tag), s.producers[a.p].buf, addr, b);
    } else if a.Produce? {
      hide OrphanNode;
      assert Apart(s.producers[a.p], addr, b);
      OrphanNodeProduce(s, a.p, addr, b);
    } else if a.Consume? {
      hide OrphanNode;
      OrphanNodeConsume(s, addr, b);
    }
  }

  lemma OrphanNodeProduce(s: State, p: nat, addr: nat, b: nat)
    requires OrphanNode(s.q, addr, b) && Enabled(s, Produce(p)) && Apart(s.producers[p], addr, b)
    ensures OrphanNode(ProducerStep(s, p).q, addr, b)
  {
    var pc := s.producers[p];
    if pc.Linking? && NextOf(s.q, pc.tail) == NULL {
      LinkApart(s.q, pc.me, pc.tail, addr, b);
    }
    hide LinkNode, Messages, NewOwner;
  }

  lemma OrphanNodeConsume(s: State, addr: nat, b: nat)
    requires OrphanNode(s.q, addr, b) && Enabled(s, Consume) && ConsumerApart(s.consumer, addr, b)
    ensures OrphanNode(ConsumerStep(s).q, addr, b)
  {
    hide TakeHead, FreeNode, ConsumerStep, OrphanNode;
    TakeApart(s.q, addr, b);
    ConsumerQueue(s);
  }

  lemma ConsumerQueue(s: State)
    requires Enabled(s, Consume)
    ensures
      var c, q' := s.consumer, ConsumerStep(s).q;
      q' == s.q || (c.SwingingHead? && q' == TakeHead(s.q, c.next))
        || (c.FreeingNode? && q' == FreeNode(s.q, c.head.addr))
  {
    hide TakeHead, FreeNode, NewOwner;
  }

  lemma AllocApartFrom(q: Queue, me: Ref, buf: nat, addr: nat, b: nat)
    requires OrphanNode(q, addr, b) && CanAlloc(q, me.addr) && buf != b
    ensures OrphanNode(AllocNode(q, me, buf), addr, b)
  {
    assert me.addr != addr;
  }

  lemma LinkApart(q: Queue, me: Ref, tail: Ref, addr: nat, b: nat)
    requires OrphanNode(q, addr, b) && me.addr != addr && NextOf(q, tail) == NULL
    ensures OrphanNode(LinkNode(q, me, tail), addr, b)
  {
  }

  lemma TakeApart(q: Queue, addr: nat, b: nat)
    requires OrphanNode(q, addr, b)
    ensures forall next: Ref :: next.addr != addr ==> OrphanNode(TakeHead(q, next), addr, b)
    ensures forall c :: c != addr ==> OrphanNode(FreeNode(q, c), addr, b)
  {
  }

  lemma ApartStays(s: State, a: Action, addr: nat, b: nat)
    requires OrphanNode(s.q, addr, b) && Enabled(s, a) && (a.Call? ==> a.buf != b)
    requires forall r :: 0 <= r < |s.producers| ==> Apart(s.producers[r], addr, b)
    ensures forall r :: 0 <= r < |Apply(s, a).producers| ==> Apart(Apply(s, a).producers[r], addr, b)
  {
    hide Apart, Apply;
    forall r | 0 <= r < |Apply(s, a).producers|
      ensures Apart(Apply(s, a).producers[r], addr, b)
    {
      if r < |s.producers| {
        ThreadStaysApart(s, a, addr, b, r);
      } else {
        SameThreads(s, a);
      }
    }
  }

  lemma ThreadStaysApart(s: State, a: Action, addr: nat, b: nat, r: nat)
    requires OrphanNode(s.q, addr, b) && Enabled(s, a) && (a.Call? ==> a.buf != b) && r < |Apply(s, a).producers|
    requires r < |s.producers| && Apart(s.producers[r], addr, b)
    ensures Apart(Apply(s, a).producers[r], addr, b)
  {
    hide AllocNode, ProducerStep, ConsumerStep;
    if a.Consume? {
      ConsumerKeepsThreads(s);
    } else if a.Produce? {
      hide OrphanNode, Apart;
      if a.p == r {
        MoverStaysApart(s, r, addr, b);
      } else {
        OthersStand(s, a.p, r);
      }
    }
  }

  lemma MoverStaysApart(s: State, r: nat, addr: nat, b: nat)
    requires Enabled(s, Produce(r)) && Apart(s.producers[r], addr, b)
    ensures r < |ProducerStep(s, r).producers| && Apart(ProducerStep(s, r).producers[r], addr, b)
  {
    hide LinkNode, Messages, CasTail, NewOwner;
  }

  lemma OthersStand(s: State, p: nat, r: nat)
    requires Enabled(s, Produce(p)) && r < |s.producers| && r != p
    ensures r < |ProducerStep(s, p).producers| && ProducerStep(s, p).producers[r] == s.producers[r]
  {
    hide LinkNode, Messages, CasTail, NewOwner;
  }

  lemma ConsumerKeepsThreads(s: State)
    requires Enabled(s, Consume)
    ensures ConsumerStep(s).producers == s.producers
  {
    hide TakeHead, FreeNode;
  }

  lemma OrphanConsumer(s: State, a: Action, addr: nat, b: nat)
    requires OrphanNode(s.q, addr, b) && Enabled(s, a) && ConsumerApart(s.consumer, addr, b)
    ensures ConsumerApart(Apply(s, a).consumer, addr, b)
  {
    hide OrphanNode, ConsumerApart, ConsumerStep;
    if a.Consume? {
      ConsumerStaysApart(s, addr, b);
      ConsumeIsStep(s);
    } else {
      OnlyConsumeMoves(s, a);
    }
  }

  lemma OnlyConsumeMoves(s: State, a: Action)
    requires Enabled(s, a) && !a.Consume?
    ensures Apply(s, a).consumer == s.consumer
  {
    hide LinkNode, AllocNode, Messages, CasTail;
  }

  lemma ConsumerStaysApart(s: State, addr: nat, b: nat)
    requires OrphanNode(s.q, addr, b) && Enabled(s, Consume) && ConsumerApart(s.consumer, addr, b)
    ensures ConsumerApart(ConsumerStep(s).consumer, addr, b)
  {
    hide TakeHead, FreeNode, TextOf, NewOwner;
    match s.consumer
    case Waiting =>
    case Checking =>
    case LoadingHead =>
    case LoadingHeadTail(_) =>
    case LoadingNext(_, _) =>
    case Deciding(_, _, _) =>
    case LoadingData(_, _) =>
    case SwingingHead(_, _, _) =>
    case FreeingNode(_, _) =>
    case CountingDown(_) =>
    case Writing(_) =>
    case Deleting(_) =>
  }

  lemma OrphanRecordStays(s: State, a: Action, b: nat, p: nat, no: nat)
    requires OrphanRecord(s, b, p, no) && Enabled(s, a)
      && (s.consumer.Writing? || s.consumer.Deleting? ==> s.consumer.buf != b)
    ensures OrphanRecord(Apply(s, a), b, p, no)
  {
    hide LinkNode, AllocNode, TakeHead, Messages, MonitorRecord;
    if a.Call? {
      hide AsyncPart;
    } else if a.Print? {
      FileAppend(s.monitor, Sync(Message(a.p, |s.h.prints[a.p]|, MonitorRecord(a.message))));
      hide AsyncPart;
      assert AsyncPart(s.monitor) + [] == AsyncPart(s.monitor);
    } else if a.Consume? {
      OrphanConsume(s, b, p, no);
    } else if a.Produce? {
      OrphanProduce(s, a.p, b, p, no);
    }
  }

  lemma OrphanProduce(s: State, r: nat, b: nat, p: nat, no: nat)
    requires OrphanRecord(s, b, p, no) && Enabled(s, Produce(r))
    ensures OrphanRecord(ProducerStep(s, r), b, p, no)
  {
    hide AsyncPart, ProducerStep;
    ProduceKeepsRecords(s, r);
  }

  lemma ProduceKeepsRecords(s: State, r: nat)
    requires Enabled(s, Produce(r))
    ensures
      var s' := ProducerStep(s, r);
      && s'.monitor == s.monitor && s'.h.calls == s.h.calls && s'.buffers.Keys == s.buffers.Keys
      && forall c :: c in s.buffers ==> s'.buffers[c].message == s.buffers[c].message
  {
    hide LinkNode, Messages, CasTail;
  }

  lemma OrphanConsume(s: State, b: nat, p: nat, no: nat)
    requires OrphanRecord(s, b, p, no) && Enabled(s, Consume)
      && (s.consumer.Writing? || s.consumer.Deleting? ==> s.consumer.buf != b)
    ensures OrphanRecord(ConsumerStep(s), b, p, no)
  {
    hide AsyncPart, TakeHead, FreeNode, IsRecord;
    if s.consumer.Writing? {
      FileAppend(s.monitor, Async(TextOf(s.buffers, s.consumer.buf)));
      NoRecordAppend(AsyncPart(s.monitor), TextOf(s.buffers, s.consumer.buf), p, no);
    } else {
      var s' := ConsumerStep(s);
      OrphanBuffers(s, b, p, no);
      assert s'.monitor == s.monitor && s'.h.calls == s.h.calls;
      hide ConsumerStep;
    }
  }

  lemma OrphanBuffers(s: State, b: nat, p: nat, no: nat)
    requires OrphanRecord(s, b, p, no) && Enabled(s, Consume)
      && (s.consumer.Writing? || s.consumer.Deleting? ==> s.consumer.buf != b)
    ensures
      var buffers := ConsumerStep(s).buffers;
      && b in buffers && buffers[b].message == s.buffers[b].message
      && forall c :: c in buffers ==> c in s.buffers && buffers[c].message == s.buffers[c].message
  {
    hide AsyncPart, TakeHead, FreeNode, IsRecord;
  }

  lemma NoRecordAppend(messages: seq<Message>, m: Message, p: nat, no: nat)
    requires (forall i :: !IsRecord(messages, i, p, no)) && !(m.writer == p && m.no == no)
    ensures forall i :: !IsRecord(messages + [m], i, p, no)
  {
    forall i
      ensures !IsRecord(messages + [m], i, p, no)
    {
      assert !IsRecord(messages, i, p, no);
    }
  }

  // ---- An Enqueue from anywhere ----

  /** The node n successors behind r. */
  function Follow(q: Queue, r: Ref, n: nat): Ref { if n == 0 then r else NextOf(q, Follow(q, r, n - 1)) }

  /** The walk from mTail ends n nodes on. */
  ghost predicate EndsAfter(q: Queue, n: nat) {
    && (forall i :: 0 <= i < n ==> NextOf(q, Follow(q, q.tail, i)) != NULL)
    && Follow(q, q.tail, n).addr in q.heap && NextOf(q, Follow(q, q.tail, n)) == NULL
  }

  ghost predicate ReachesNode(q: Queue, addr: nat) { exists r :: Reaches(q, r) && r.addr == addr }

  /** One round of the loop in Enqueue that finds a successor: mTail moves to it. */
  lemma Round(o: State, s: State, p: nat) returns (s': State)
    requires Leads(o, s) && p < |s.producers| && s.producers[p].LoadingTail? && NextOf(s.q, s.q.tail) != NULL
    ensures Leads(o, s') && s'.q == s.q.(tail := NextOf(s.q, s.q.tail)) && s'.producers == s.producers
  {
    hide Leads;
    var s1 := Then(o, s, Produce(p));
    var s2 := Then(o, s1, Produce(p));
    var s3 := Then(o, s2, Produce(p));
    s' := Then(o, s3, Produce(p));
  }

  lemma {:induction false} Rounds(o: State, s: State, p: nat, n: nat) returns (s': State)
    requires Leads(o, s) && p < |s.producers| && s.producers[p].LoadingTail?
    requires forall i :: 0 <= i < n ==> NextOf(s.q, Follow(s.q, s.q.tail, i)) != NULL
    ensures Leads(o, s') && s'.q == s.q.(tail := Follow(s.q, s.q.tail, n)) && s'.producers == s.producers
  {
    hide Leads;
    s' := s;
    if n > 0 {
      var s1 := Rounds(o, s, p, n - 1);
      assert NextOf(s.q, Follow(s.q, s.q.tail, n - 1)) != NULL;
      s' := Round(o, s1, p);
    }
  }

  /** After linking behind a node the new one is reached if and only if that node was, or the new one itself. */
  lemma ReachedBehind(q: Queue, q': Queue, me: Ref, end: Ref)
    requires end.addr in q.heap && q'.head == q.head && q'.heap == q.heap[end.addr := q.heap[end.addr].(next := me)]
    requires q.heap[end.addr].next == NULL && me != NULL
    ensures Reaches(q', me) <==> ReachesNode(q, end.addr) || Reaches(q, me)
  {
    if Reaches(q', me) {
      PathBack(q, q', me, end);
    }
    if ReachesNode(q, end.addr) {
      PathOn(q, q', me, end);
    } else if Reaches(q, me) {
      PathAround(q, q', me, end);
    }
  }

  /** A path that does not come to the changed node is there after the change. */
  lemma PathAround(q: Queue, q': Queue, me: Ref, end: Ref)
    requires q'.head == q.head && Reaches(q, me) && !ReachesNode(q, end.addr)
    requires forall r: Ref :: r.addr != end.addr ==> NextOf(q', r) == NextOf(q, r)
    ensures Reaches(q', me)
  {
    var path: seq<Ref> :| Path(q, path) && path[|path| - 1] == me;
    forall i | 0 < i < |path|
      ensures path[i] == NextOf(q', path[i - 1]) && path[i] != NULL
    {
      if path[i - 1].addr == end.addr {
        PathFirst(q, q, path, i - 1, end);
      }
      assert path[i] == NextOf(q, path[i - 1]) && path[i] != NULL;
    }
    assert Path(q', path);
  }

  lemma PathOn(q: Queue, q': Queue, me: Ref, end: Ref)
    requires q'.head == q.head && end.addr in q.heap && q'.heap == q.heap[end.addr := q.heap[end.addr].(next := me)]
    requires q.heap[end.addr].next == NULL && me != NULL && ReachesNode(q, end.addr)
    ensures Reaches(q', me)
  {
    var r :| Reaches(q, r) && r.addr == end.addr;
    var path: seq<Ref> :| Path(q, path) && path[|path| - 1] == r;
    var path' := path + [me];
    forall i | 0 < i < |path'|
      ensures path'[i] == NextOf(q', path'[i - 1]) && path'[i] != NULL
    {
      if i < |path| {
        assert path[i] == NextOf(q, path[i - 1]) && path[i] != NULL;
      }
    }
    assert Path(q', path') && path'[|path'| - 1] == me;
  }

  lemma PathBack(q: Queue, q': Queue, me: Ref, end: Ref)
    requires q'.head == q.head && end.addr in q.heap && q'.heap == q.heap[end.addr := q.heap[end.addr].(next := me)]
    requires Reaches(q', me)
    ensures ReachesNode(q, end.addr) || Reaches(q, me)
  {
    var path: seq<Ref> :| Path(q', path) && path[|path| - 1] == me;
    if k :| 0 <= k < |path| && path[k].addr == end.addr {
      PathFirst(q, q', path, k, end);
    } else {
      forall i | 0 < i < |path|
        ensures path[i] == NextOf(q, path[i - 1]) && path[i] != NULL
      {
        assert path[i] == NextOf(q', path[i - 1]) && path[i] != NULL;
      }
      assert Path(q, path);
    }
  }

  /** The path up to the first place of the changed node is one before the change. */
  lemma {:induction false} PathFirst(q: Queue, q': Queue, path: seq<Ref>, k: nat, end: Ref)
    requires q'.head == q.head && Path(q', path) && k < |path| && path[k].addr == end.addr
    requires forall r: Ref :: r.addr != end.addr ==> NextOf(q', r) == NextOf(q, r)
    ensures ReachesNode(q, end.addr)
    decreases k
  {
    if j :| 0 <= j < k && path[j].addr == end.addr {
      PathFirst(q, q', path, j, end);
    } else {
      var first := path[..k + 1];
      forall i | 0 < i < |first|
        ensures first[i] == NextOf(q, first[i - 1]) && first[i] != NULL
      {
        assert path[i] == NextOf(q', path[i - 1]) && path[i] != NULL;
      }
      assert Path(q, first) && first[|first| - 1] == path[k];
      assert Reaches(q, path[k]);
    }
  }

  /** Exactly when an Enqueue that runs alone from the reading of mTail links its node where the writer will come
      to it, wherever mTail may have been moved and whatever points to the node: when the walk from mTail ends at a
      node that mHead reaches, or mHead reached the node before. */
  lemma LinksInsideExactly(s: State, p: nat, n: nat) returns (s': State)
    requires p < |s.producers| && s.producers[p].LoadingTail? && EndsAfter(s.q, n)
    requires s.producers[p].me != NULL
    ensures Leads(s, s') && p < |s'.producers|
      && s'.producers[p] == SwingingTail(s.producers[p].me, Follow(s.q, s.q.tail, n))
    ensures Reaches(s'.q, s.producers[p].me) <==>
      ReachesNode(s.q, Follow(s.q, s.q.tail, n).addr) || Reaches(s.q, s.producers[p].me)
  {
    hide Leads, Reaches, ReachesNode;
    LeadsHere(s);
    var s1 := Rounds(s, s, p, n);
    var s2 := Then(s, s1, Produce(p));
    s' := Then(s, s2, Produce(p));
    ReachedBehind(s.q, s'.q, s.producers[p].me, Follow(s.q, s.q.tail, n));
  }

  // ---- A run that loses a record ----

  /** Thread 0 stands still before a CAS that would move mTail from D to N; thread 2 has an identifier and
      no node yet; node x is the queue's dummy node and y the one in the pool. */
  predicate Ring(s: State, x: nat, y: nat, k: nat) {
    && ((x == 1 && y == 3) || (x == 3 && y == 1)) && k < TWO_POW_16
    && s.ready && s.id == k && s.count == 0 && s.consumer.Waiting? && Halted(s) && RingQueue(s.q, x, y)
    && |s.h.calls| == 3 && s.buffers.Keys == {0, 2} && s.buffers[2].message.writer == 2 && s.buffers[2].message.no == 0
    && |s.h.calls[2]| == 1
  }

  predicate Halted(s: State) { s.producers == [Helping(0, M, D, N), Idle, HavingId(2, 3)] }

  predicate RingQueue(q: Queue, x: nat, y: nat) {
    && q.pool == [y] && q.head == q.tail && q.tail.addr == x && q.chain == [q.tail] && q.sides == map[2 := [M]]
    && q.home == map[2 := 2, x := 0] && q.heap.Keys == {1, 2, 3} && q.heap[2] == Node(NULL, 0) && x in q.heap
        && q.heap[x].next == NULL
  }

  /** The queue after node y has been linked behind x. */
  predicate RingLinked(q: Queue, x: nat, y: nat, me: Ref, head: Ref) {
    && me.addr == y && head.addr == x && q.pool == [] && q.head == head && q.tail == me && q.chain == [head, me]
    && q.sides == map[2 := [M]] && q.home == map[2 := 2, x := 0, y := 0] && q.heap.Keys == {1, 2, 3}
    && q.heap[2] == Node(NULL, 0) && x in q.heap && y in q.heap && q.heap[x].next == me && q.heap[y] == Node(NULL, 1)
  }

  lemma RingLinks(q: Queue, x: nat, y: nat, me: Ref)
    requires RingQueue(q, x, y) && x != y && x != 2 && y != 2 && x > 0 && y > 0 && me.addr == y && x in {1, 3}
      && y in {1, 3}
    ensures RingLinked(LinkNode(AllocNode(q, me, 1), me, q.tail).(tail := me), x, y, me, q.tail)
    ensures NextOf(AllocNode(q, me, 1), q.tail) == NULL && HomeOf(AllocNode(q, me, 1), x) == 0
  {
    var q1 := AllocNode(q, me, 1);
    assert q1.home == map[2 := 2, x := 0, y := y] && q1.sides == map[2 := [M], y := [me]];
    var q2 := LinkNode(q1, me, q.tail);
    assert q2.home == map[2 := 2, x := 0, y := 0];
    assert q2.sides == map[2 := [M]];
    assert q2.heap.Keys == {1, 2, 3};
  }

  lemma RingTakes(q: Queue, x: nat, y: nat, me: Ref, head: Ref)
    requires RingLinked(q, x, y, me, head) && x != y && x != 2 && y != 2 && x in {1, 3} && y in {1, 3}
    ensures RingQueue(FreeNode(TakeHead(q, me), x), y, x)
  {
    var q' := TakeHead(q, me);
    assert q'.home == map[2 := 2, y := 0];
    assert q'.chain == [me];
  }

  /** One more call of thread 1, written at once. */
  lemma RingStep(s: State, x: nat, y: nat, k: nat) returns (s': State)
    requires Reachable(3, false, s) && Ring(s, x, y, k) && k + 1 < TWO_POW_16
    ensures Reachable(3, false, s') && Ring(s', y, x, k + 1)
  {
    hide Reachable, RingQueue, RingLinked, AllocNode, LinkNode, TakeHead, FreeNode, MonitorRecord;
    RingCanCall(s, x, y, k);
    var me := NextRef(s, y);
    RingLinks(s.q, x, y, me);
    hide CanCall, AtEnd;
    CallReaches(3, false, s, 1, "", 1, y);
    var s1 := Called(s, 1, "", 1, y);
    s' := RingWrites(s1, x, y, k + 1, me, s.q.tail);
  }

  lemma RingCanCall(s: State, x: nat, y: nat, k: nat)
    requires Ring(s, x, y, k) && k + 1 < TWO_POW_16
    ensures CanCall(s, 1, 1, y, false) && AtEnd(s.q) && NextRef(s, y) == Ref(y, k + 1) && NextId(s) == k + 1
  {
    hide Outstanding;
    FewOutstanding(s);
  }

  lemma RingWrites(s: State, x: nat, y: nat, k: nat, me: Ref, head: Ref) returns (s': State)
    requires Reachable(3, false, s) && RingLinked(s.q, x, y, me, head) && ((x == 1 && y == 3) || (x == 3 && y == 1))
      && k < TWO_POW_16
    requires s.ready && s.id == k && s.count == 1 && s.event && s.consumer.Waiting? && Halted(s)
    requires |s.h.calls| == 3 && s.buffers.Keys == {0, 1, 2} && s.buffers[2].message.writer == 2
      && s.buffers[2].message.no == 0
    requires |s.h.calls[2]| == 1
    ensures Reachable(3, false, s') && Ring(s', y, x, k)
  {
    hide Reachable, RingQueue, Outstanding, TextOf;
    RingFew(s, x, y, me, head);
    RingTakes(s.q, x, y, me, head);
    WrittenReachable(3, false, s);
    var s1 := Written(s);
    RingTaken(s, x, y, me, head);
    hide TakeHead, FreeNode, Written;
    Few(s1, x, y);
    AsleepReachable(3, false, s1);
    s' := Asleep(s1);
  }

  lemma RingFew(s: State, x: nat, y: nat, me: Ref, head: Ref)
    requires RingLinked(s.q, x, y, me, head) && x in {1, 3} && y in {1, 3} && x != y && |s.producers| == 3
      && s.count == 1
    ensures Outstanding(s) < TWO_POW_32 && CanTake(Woken(s))
  {
    hide Outstanding;
    FewOutstanding(s);
  }

  lemma Few(s: State, x: nat, y: nat)
    requires RingQueue(s.q, y, x) && |s.producers| == 3
    ensures Outstanding(s) < TWO_POW_32
  {
    hide Outstanding;
    FewOutstanding(s);
  }

  lemma RingTaken(s: State, x: nat, y: nat, me: Ref, head: Ref)
    requires RingLinked(s.q, x, y, me, head) && x in {1, 3} && y in {1, 3} && x != y && s.count == 1
    ensures
      var s' := Written(s);
      && s'.q == FreeNode(TakeHead(s.q, me), x) && s'.count == 0 && s'.consumer.Checking? && s'.producers == s.producers
      && s'.buffers == s.buffers - {1} && s'.id == s.id && s'.ready == s.ready && s'.h.calls == s.h.calls
  {
    hide TakeHead, FreeNode, TextOf;
  }

  /** Thousands of calls later. */
  lemma {:induction false} Rings(s: State, k: nat, last: nat) returns (s': State)
    requires Reachable(3, false, s) && k <= last < TWO_POW_16
    requires Ring(s, if k % 2 == 1 then 3 else 1, if k % 2 == 1 then 1 else 3, k)
    ensures Reachable(3, false, s') && Ring(s', if last % 2 == 1 then 3 else 1, if last % 2 == 1 then 1 else 3, last)
    decreases last - k
  {
    hide Reachable, Ring;
    s' := s;
    if k < last {
      var s1 := RingStep(s, if k % 2 == 1 then 3 else 1, if k % 2 == 1 then 1 else 3, k);
      s' := Rings(s1, k + 1, last);
    }
  }

  // ---- The beginning of the run ----

  /** Thread 0 has read mTail and is about to CAS D's Next. */
  lemma Begins() returns (s: State)
    ensures Reachable(3, false, s) && s.q == PoisedQueue() && s.producers == [Linking(0, M, D), Idle, Idle]
    ensures s.ready && s.id == 1 && s.count == 0 && s.consumer.Waiting? && s.buffers.Keys == {0} && |s.h.calls| == 3
    ensures s.h.calls[1] == s.h.calls[2] == []
  {
    hide Reachable, Outstanding, Ready, CanCall, Prepared;
    ReadyReachable(3);
    TameIsReachable(3, Ready(3));
    ReadyCanCall(Ready(3));
    Prepares(3, false, Ready(3), 0, "", 0, 2);
    FirstPrepared(Ready(3));
    s := LoadsTail(Prepared(Ready(3), 0, "", 0, 2));
  }

  lemma ReadyCanCall(s: State)
    requires s == Ready(3)
    ensures |s.producers| == 3 && |s.h.calls| == 3 && CanCall(s, 0, 0, 2, false)
  {
    hide Outstanding;
    FewOutstanding(s);
  }

  lemma FirstPrepared(s: State)
    requires s == Ready(3) && |s.producers| == 3 && |s.h.calls| == 3
    ensures
      var s1 := Prepared(s, 0, "", 0, 2);
      && s1.q == PoisedQueue() && s1.producers == [LoadingTail(0, M), Idle, Idle] && s1.ready && s1.id == 1
      && s1.count == 0 && s1.consumer.Waiting? && s1.buffers.Keys == {0} && |s1.h.calls| == 3
      && s1.h.calls[1] == s1.h.calls[2] == []
  {
    hide MonitorRecord;
    assert s.producers == [Idle, Idle, Idle] && s.h.calls == [[], [], []];
  }

  lemma LoadsTail(s: State) returns (s': State)
    requires Reachable(3, false, s) && s.q == PoisedQueue() && s.producers == [LoadingTail(0, M), Idle, Idle]
    requires Outstanding(s) < TWO_POW_32
    ensures Reachable(3, false, s') && s' == s.(producers := [Linking(0, M, D), Idle, Idle])
  {
    hide Reachable, Outstanding;
    s' := Go(3, false, s, Produce(0));
    assert s'.producers == [Linking(0, M, D), Idle, Idle];
  }

  /** Thread 1's first call goes first, and thread 0 learns the successor of D. */
  lemma Halts() returns (s: State)
    ensures Reachable(3, false, s) && s.q == LinkedQueue() && s.producers == [Helping(0, M, D, N), Idle, Idle]
    ensures s.ready && s.id == 2 && s.count == 1 && s.event && s.consumer.Waiting? && s.buffers.Keys == {0, 1}
      && |s.h.calls| == 3
    ensures s.h.calls[2] == []
  {
    hide Reachable, Outstanding, MonitorRecord;
    var s0 := Begins();
    HaltCanCall(s0);
    LinkedQueueIs();
    var s1 := HaltCalls(s0);
    s := LearnsNext(s1);
  }

  lemma LearnsNext(s: State) returns (s': State)
    requires Reachable(3, false, s) && s.q == LinkedQueue() && s.producers == [Linking(0, M, D), Idle, Idle]
    requires s.count == 1 && s.consumer.Waiting?
    ensures Reachable(3, false, s') && s' == s.(producers := [Helping(0, M, D, N), Idle, Idle])
  {
    hide Reachable, Outstanding;
    FewOutstanding(s);
    var s1 := Go(3, false, s, Produce(0));
    assert s1.producers == [HelpLoading(0, M, D), Idle, Idle];
    FewOutstanding(s1);
    s' := Go(3, false, s1, Produce(0));
    assert s'.producers == [Helping(0, M, D, N), Idle, Idle];
  }

  lemma HaltCanCall(s: State)
    requires s.q == PoisedQueue() && s.producers == [Linking(0, M, D), Idle, Idle] && s.ready && s.id == 1
    requires s.buffers.Keys == {0} && |s.h.calls| == 3
    ensures CanCall(s, 1, 1, 3, false) && AtEnd(s.q) && NextRef(s, 3) == N && s.q.tail == D && NextId(s) == 2
  {
    hide Outstanding;
    FewOutstanding(s);
  }

  lemma HaltCalls(s: State) returns (s': State)
    requires Reachable(3, false, s) && CanCall(s, 1, 1, 3, false) && AtEnd(s.q) && NextRef(s, 3) == N && s.q.tail == D
      && NextId(s) == 2
    requires s.q == PoisedQueue() && s.producers == [Linking(0, M, D), Idle, Idle] && s.buffers.Keys == {0}
      && s.count == 0
    requires s.consumer.Waiting? && |s.h.calls| == 3 && s.h.calls[2] == []
      && LinkNode(AllocNode(PoisedQueue(), N, 1), N, D).(tail := N) == LinkedQueue()
    ensures Reachable(3, false, s') && s'.q == LinkedQueue() && s'.producers == s.producers && s'.ready && s'.id == 2
      && s'.count == 1
    ensures s'.event && s'.consumer.Waiting? && s'.buffers.Keys == {0, 1} && |s'.h.calls| == 3 && s'.h.calls[2] == []
  {
    hide Reachable, MonitorRecord, LinkNode, AllocNode, AtEnd, PoisedQueue, LinkedQueue;
    CallReaches(3, false, s, 1, "", 1, 3);
    s' := Called(s, 1, "", 1, 3);
  }

  /** Thread 2 takes an identifier: the ring is closed. */
  lemma RingBegins() returns (s: State)
    ensures Reachable(3, false, s) && Ring(s, 3, 1, 3)
  {
    hide Reachable, Outstanding, MonitorRecord, TakeHead, FreeNode, TextOf;
    var s0 := Halts();
    FewOutstanding(s0);
    WrittenReachable(3, false, s0);
    FreedQueueIs();
    var s1 := Written(s0);
    assert s1.q == FreedQueue() && s1.buffers.Keys == {0};
    FewOutstanding(s1);
    AsleepReachable(3, false, s1);
    s := ThirdEnters(Asleep(s1));
  }

  lemma ThirdEnters(s: State) returns (s': State)
    requires Reachable(3, false, s) && s.q == FreedQueue() && s.producers == [Helping(0, M, D, N), Idle, Idle]
      && s.ready && s.id == 2
    requires s.count == 0 && s.consumer.Waiting? && s.buffers.Keys == {0} && |s.h.calls| == 3 && s.h.calls[2] == []
    ensures Reachable(3, false, s') && Ring(s', 3, 1, 3)
  {
    hide Reachable, Outstanding, MonitorRecord;
    FewOutstanding(s);
    var s1 := Go(3, false, s, Call(2, "", 2));
    assert s1.producers == [Helping(0, M, D, N), Idle, Entering(2)];
    assert s1.buffers[2].message.writer == 2 && s1.buffers[2].message.no == 0;
    s' := ThirdHasId(s1);
  }

  lemma ThirdHasId(s: State) returns (s': State)
    requires Reachable(3, false, s) && s.q == FreedQueue() && s.producers == [Helping(0, M, D, N), Idle, Entering(2)]
      && s.ready
    requires s.count == 0 && s.consumer.Waiting? && s.buffers.Keys == {0, 2} && |s.h.calls| == 3 && |s.h.calls[2]| == 1
      && s.id == 2
    requires s.buffers[2].message.writer == 2 && s.buffers[2].message.no == 0
    ensures Reachable(3, false, s') && Ring(s', 3, 1, 3)
  {
    hide Reachable, Outstanding;
    FewOutstanding(s);
    s' := Go(3, false, s, Produce(2));
    assert s'.producers == [Helping(0, M, D, N), Idle, HavingId(2, 3)];
  }

  // ---- Its end ----

  /** Thread 1 has identifier 65536: its 16 bits are those of D, and D's node is on top of the pool. */
  predicate Fatal(s: State) {
    && s.producers == [Helping(0, M, D, N), HavingId(1, 0), HavingId(2, 3)] && RingQueue(s.q, 3, 1)
    && s.count == 0 && s.consumer.Waiting? && s.buffers.Keys == {0, 1, 2} && |s.h.calls| == 3 && |s.h.calls[2]| == 1
    && s.buffers[0].message.writer == 0 && s.buffers[1].message.writer == 1
    && s.buffers[2].message.writer == 2 && s.buffers[2].message.no == 0
  }

  lemma FatalHappens() returns (s: State)
    ensures Reachable(3, false, s) && Fatal(s) && Enabled(s, Alloc(1, 1)) && !NewTag(s.producers, Ref(1, 0))
    ensures s.producers == [Helping(0, M, D, N), HavingId(1, 0), HavingId(2, 3)]
  {
    hide Reachable, Ring, Fatal, Inv;
    var s0 := RingBegins();
    var s1 := Rings(s0, 3, 65535);
    ReachableInv(3, false, s1);
    s := TakesLastId(s1);
    FatalAlloc(s);
  }

  lemma TakesLastId(s: State) returns (s': State)
    requires Reachable(3, false, s) && Ring(s, 3, 1, 65535) && Inv(s)
    ensures Reachable(3, false, s') && Fatal(s')
  {
    hide Reachable, Outstanding, MonitorRecord, Inv, RingQueue;
    Few(s, 1, 3);
    Writer0(s);
    var s1 := Go(3, false, s, Call(1, "", 1));
    Few(s1, 1, 3);
    assert s1.producers == [Helping(0, M, D, N), Entering(1), HavingId(2, 3)];
    s' := Go(3, false, s1, Produce(1));
    assert s'.producers == [Helping(0, M, D, N), HavingId(1, 0), HavingId(2, 3)];
  }

  lemma FatalAlloc(s: State)
    requires Fatal(s)
    ensures Enabled(s, Alloc(1, 1)) && !NewTag(s.producers, Ref(1, 0))
    ensures s.producers == [Helping(0, M, D, N), HavingId(1, 0), HavingId(2, 3)]
  {
    assert Remembers(s.producers[0], Ref(1, 0));
  }

  lemma Writer0(s: State)
    requires Inv(s) && Halted(s)
    ensures 0 in s.buffers && s.buffers[0].message.writer == 0
  {
    hide QueueInv, NodesInv, TailsInv, ConsumerInv, CountInv, StartInv, PipelineInv, PrintsInv, RecordsInv, SlotsOwned,
      OwnerHolds;
    assert Unlinking(s.producers[0]) && OwnedBy(s.buffers, s.producers[0].buf, Hand(0));
  }

  /** Thread 2's record is pending, so it has not been written. */
  lemma NotWritten(s: State)
    requires Inv(s) && Fatal(s)
    ensures forall i :: !IsRecord(AsyncPart(s.monitor), i, 2, 0)
  {
    hide Inv, AsyncPart;
    UnderWayIsRest(s);
    OwnersOf(s);
    PendingThird(s);
    OnePlace(s, 2, 0);
    forall i
      ensures !IsRecord(AsyncPart(s.monitor), i, 2, 0)
    {
      assert AsyncPart(s.monitor) <= s.h.linked;
      assert !IsRecord(s.h.linked, i, 2, 0);
    }
  }

  lemma PendingThird(s: State)
    requires OwnersInv(s.q, s.buffers, s.producers, s.consumer) && Fatal(s)
    ensures Holding(s, 2, 2, 0)
  {
    hide SlotsOwned, OwnerHolds;
    assert Unlinking(s.producers[2]) && OwnedBy(s.buffers, s.producers[2].buf, Hand(2));
  }

  /** D is given out again, thread 1's call ends, the writer takes its record. */
  lemma GivesOutAgain(s: State) returns (s': State)
    requires Fatal(s) && forall i :: !IsRecord(AsyncPart(s.monitor), i, 2, 0)
    ensures Enabled(s, Alloc(1, 1)) && Leads(Apply(s, Alloc(1, 1)), s')
    ensures s'.producers == [Helping(0, M, D, N), Idle, HavingId(2, 3)] && RingQueue(s'.q, 1, 3) && s'.q.head == D
    ensures 1 in s'.q.heap && s'.q.heap[1] == Node(NULL, 1) && s'.consumer == Checking && ThirdHolds(s')
  {
    hide Leads, RingQueue, RingLinked, AllocNode, LinkNode, TakeHead, FreeNode, FinishCall, ThirdHolds, AsyncPart;
    var s1 := FatalGives(s);
    LeadsHere(s1);
    RingLinks(s.q, 3, 1, D);
    AllocTail(s.q, D, 1);
    CallEnds(s1, s1, 1);
    FinishSteps(s1, 1);
    var s2 := FinishCall(s1, 1);
    FatalLinked(s, s1, s2);
    var s3 := Then(s1, s2, Consume);
    RingTakes(s2.q, 3, 1, D, s.q.tail);
    Takes(s1, s3);
    s' := Taken(s3);
    FatalTaken(s2, s3, s.q.tail);
  }

  lemma AllocTail(q: Queue, me: Ref, buf: nat)
    ensures AllocNode(q, me, buf).tail == q.tail
  {
  }

  /** Thread 2's record is in buffer 2 and nowhere else. */
  ghost predicate ThirdHolds(s: State) {
    && s.buffers.Keys == {0, 2} && s.buffers[0].message.writer == 0 && s.buffers[2].message.writer == 2
        && s.buffers[2].message.no == 0
    && |s.h.calls| == 3 && |s.h.calls[2]| == 1 && forall i :: !IsRecord(AsyncPart(s.monitor), i, 2, 0)
  }

  lemma FatalGives(s: State) returns (s': State)
    requires Fatal(s)
    ensures Enabled(s, Alloc(1, 1)) && s' == Apply(s, Alloc(1, 1))
    ensures s' == s.(q := AllocNode(s.q, D, 1), producers := [Helping(0, M, D, N), LoadingTail(1, D), HavingId(2, 3)])
  {
    s' := Apply(s, Alloc(1, 1));
    assert s'.producers == [Helping(0, M, D, N), LoadingTail(1, D), HavingId(2, 3)];
  }

  /** The state after thread 1's call. */
  lemma FatalLinked(s: State, s1: State, s2: State)
    requires Fatal(s) && s1 == s.(q := AllocNode(s.q, D, 1),
      producers := [Helping(0, M, D, N), LoadingTail(1, D), HavingId(2, 3)])
    requires RingLinked(LinkNode(s1.q, D, s.q.tail).(tail := D), 3, 1, D, s.q.tail)
    requires s2 == s1.(q := LinkNode(s1.q, D, s1.q.tail).(tail := D), producers := s1.producers[1 := Idle],
        buffers := NewOwner(s1.buffers, 1, Slot(1)), count := (s1.count + 1) % TWO_POW_32, event := true,
        h := s1.h.(linked := s2.h.linked, enqueues := s1.h.enqueues + 1, signals := s1.h.signals + 1))
    ensures RingLinked(s2.q, 3, 1, D, s.q.tail) && s2.producers == [Helping(0, M, D, N), Idle, HavingId(2, 3)]
    ensures s2.count == 1 && s2.event && s2.consumer.Waiting? && CanTake(Woken(s2)) && s2.monitor == s.monitor
      && s2.h.calls == s.h.calls
    ensures s2.buffers.Keys == {0, 1, 2} && forall c :: c in s.buffers ==> s2.buffers[c].message == s.buffers[c].message
  {
    hide LinkNode;
    assert AllocNode(s.q, D, 1).tail == s.q.tail;
    hide AllocNode;
  }

  lemma FatalTaken(s2: State, s3: State, head: Ref)
    requires RingLinked(s2.q, 3, 1, D, head) && s2.count == 1 && s3 == Woken(s2)
      && RingQueue(FreeNode(TakeHead(s2.q, D), 3), 1, 3)
    requires s2.buffers.Keys == {0, 1, 2} && s2.buffers[0].message.writer == 0 && s2.buffers[1].message.writer == 1
    requires s2.buffers[2].message.writer == 2 && s2.buffers[2].message.no == 0 && |s2.h.calls| == 3
      && |s2.h.calls[2]| == 1
    requires forall i :: !IsRecord(AsyncPart(s2.monitor), i, 2, 0)
    ensures var s' := Taken(s3);
      && RingQueue(s'.q, 1, 3) && s'.q.head == D && s'.q.heap[1] == Node(NULL, 1) && s'.consumer == Checking
          && ThirdHolds(s')
      && s'.producers == s2.producers
  {
    var m := TextOf(s2.buffers, 1);
    assert m == s2.buffers[1].message;
    FileAppend(s2.monitor, Async(m));
    NoRecordAppend(AsyncPart(s2.monitor), m, 2, 0);
    assert DataOf(s2.q, NextOf(s2.q, s2.q.head)) == 1;
    hide AsyncPart, IsRecord;
  }

  /** Thread 0's CAS moves mTail to N, whose node is in the pool; thread 2 is given that node and links it to
      itself. Its call returns. */
  lemma LinksToItself(o: State, s: State) returns (s': State)
    requires Leads(o, s) && s.producers == [Helping(0, M, D, N), Idle, HavingId(2, 3)] && RingQueue(s.q, 1, 3)
      && s.q.head == D
    requires s.q.heap[1] == Node(NULL, 1) && s.consumer == Checking && ThirdHolds(s)
    ensures Leads(o, s') && Orphan(s', 3, 2, 2, 0) && s'.producers == [LoadingTail(0, M), Idle, Idle]
  {
    hide Leads, ThirdHolds, LinkNode, AllocNode, FinishCall, OrphanNode;
    var s1 := Then(o, s, Produce(0));
    assert s1.producers == [LoadingTail(0, M), Idle, HavingId(2, 3)] && s1.q == s.q.(tail := N);
    var s2 := Then(o, s1, Alloc(2, 3));
    assert s2.producers == [LoadingTail(0, M), Idle, LoadingTail(2, Ref(3, 3))];
    SelfLink(s1.q);
    AllocTail(s1.q, Ref(3, 3), 2);
    hide RingQueue;
    CallEnds(o, s2, 2);
    FinishSteps(s2, 2);
    s' := FinishCall(s2, 2);
    assert s'.producers == [LoadingTail(0, M), Idle, Idle];
    OrphanHere(s, s');
  }

  lemma SelfLink(q: Queue)
    requires RingQueue(q.(tail := q.head), 1, 3) && q.tail == N && q.head == D && q.heap[1] == Node(NULL, 1)
    ensures
      var q1 := AllocNode(q, Ref(3, 3), 2);
      var q2 := LinkNode(q1, Ref(3, 3), N).(tail := Ref(3, 3));
      && NextOf(q1, N) == NULL && HomeOf(q1, 3) == 3 && q1.tail == N && OrphanNode(q2, 3, 2)
  {
  }

  lemma OrphanHere(s: State, s': State)
    requires ThirdHolds(s) && OrphanNode(s'.q, 3, 2) && s'.producers == [LoadingTail(0, M), Idle, Idle]
      && s'.consumer == Checking
    requires s'.monitor == s.monitor && s'.h.calls == s.h.calls && s'.buffers == NewOwner(s.buffers, 2, Slot(3))
    ensures Orphan(s', 3, 2, 2, 0)
  {
    hide AsyncPart, OrphanNode;
  }

  /** With one allocation that gives out a remembered tagged pointer, a run loses a record for good: from a
      state that safe steps reach, the allocation and further steps lead to one in which thread 2's only call has
      returned and its record is an orphan, which by OrphanStays it stays. */
  lemma RecordLostForever() returns (before: State, after: State)
    ensures Reachable(3, false, before) && before.producers == [Helping(0, M, D, N), HavingId(1, 0), HavingId(2, 3)]
    ensures Enabled(before, Alloc(1, 1)) && !NewTag(before.producers, Ref(1, 0))
    ensures Leads(Apply(before, Alloc(1, 1)), after) && after.producers == [LoadingTail(0, M), Idle, Idle]
      && Orphan(after, 3, 2, 2, 0)
  {
    hide Reachable, Leads, Inv, Fatal, NewTag, Orphan, RingQueue, ThirdHolds, AsyncPart;
    before := FatalHappens();
    ReachableInv(3, false, before);
    NotWritten(before);
    var s := GivesOutAgain(before);
    after := LinksToItself(Apply(before, Alloc(1, 1)), s);
  }
}
