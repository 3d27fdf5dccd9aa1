/** What tame steps keep besides: nothing hangs on an unlinked node, mTail is never far behind, and each
    thread's records are linked in the order of its calls. */
module AsyncLogOrder {
  import opened AsyncLogModel
  import opened AsyncLogInvariant
  import opened AsyncLogLedger
  import opened AsyncLogSteps
  import opened LogText

  ghost predicate Singles(q: Queue) {
    forall k :: k in q.sides ==> |q.sides[k]| == 1
  }

  /** mTail is the last node of the chain or the one before. */
  ghost predicate TailNear(q: Queue) {
    q.chain != [] && (q.tail == Last(q.chain) || (|q.chain| >= 2 && q.tail == q.chain[|q.chain| - 2]))
  }

  /** A lagging mTail is about to be moved by the thread that linked the last node. */
  ghost predicate LagInv(q: Queue, producers: seq<Producer>) {
    q.chain != [] && (q.tail != Last(q.chain) ==> Mover(q.tail, producers))
  }

  ghost predicate Mover(tail: Ref, producers: seq<Producer>) {
    exists p :: 0 <= p < |producers| && producers[p].SwingingTail? && producers[p].tail == tail
  }

  /** A thread about to link will only succeed behind mTail, at the end of the chain. */
  ghost predicate LinkingInv(q: Queue, producers: seq<Producer>) {
    forall p :: 0 <= p < |producers| && producers[p].Linking? ==> LinkingKnown(q, producers[p].tail)
  }

  ghost predicate LinkingKnown(q: Queue, tail: Ref) {
    && (NextOf(q, tail) == NULL ==> tail in q.chain)
    && (q.chain != [] && tail == Last(q.chain) ==> q.tail == tail)
  }

  ghost predicate CallsInv(buffers: map<nat, Buffer>, producers: seq<Producer>, h: History) {
    && |h.calls| == |producers|
    && (forall p :: 0 <= p < |producers| ==> By(h.linked, p) + Unsent(buffers, producers[p]) == h.calls[p])
  }

  /** The state of the queue's order. */
  ghost predicate OrderInv(q: Queue, producers: seq<Producer>) {
    Singles(q) && TailNear(q) && LagInv(q, producers) && LinkingInv(q, producers)
  }

  ghost predicate Steady(s: State) { Inv(s) && OrderInv(s.q, s.producers) }

  /** Each thread's records have been linked in the order of its calls. */
  ghost predicate CallOrder(s: State) { CallsInv(s.buffers, s.producers, s.h) }

  ghost predicate Orderly(s: State) { Steady(s) && CallOrder(s) }

  /** A step keeps the order of the queue, and that of the calls if it was kept so far. */
  ghost predicate KeepsOrder(s: State, s': State) {
    OrderInv(s'.q, s'.producers) && (CallOrder(s) ==> CallOrder(s'))
  }

  lemma InitOrderly(n: nat)
    ensures Orderly(Init(n))
  {
    InitInv(n);
    hide Inv;
  }

  // ---- The order of the queue ----

  lemma LagThread(tail: Ref, producers: seq<Producer>, p: nat, pc: Producer)
    requires Mover(tail, producers) && p < |producers| && (producers[p].SwingingTail? ==> producers[p].tail != tail)
    ensures Mover(tail, producers[p := pc])
  {
    var r :| 0 <= r < |producers| && producers[r].SwingingTail? && producers[r].tail == tail;
    assert producers[p := pc][r] == producers[r];
  }

  /** A thread changes its place. */
  lemma OrderThread(q: Queue, producers: seq<Producer>, p: nat, pc: Producer)
    requires OrderInv(q, producers) && p < |producers|
    requires producers[p].SwingingTail? ==> producers[p].tail != q.tail
    requires pc.Linking? ==> LinkingKnown(q, pc.tail)
    ensures OrderInv(q, producers[p := pc])
  {
    hide LinkingKnown, Mover;
    if q.tail != Last(q.chain) {
      LagThread(q.tail, producers, p, pc);
    }
  }

  lemma OrderAlloc(q: Queue, producers: seq<Producer>, p: nat, me: Ref, buf: nat)
    requires OrderInv(q, producers) && p < |producers| && producers[p].HavingId? && Released(producers, me.addr)
    ensures OrderInv(AllocNode(q, me, buf), producers[p := LoadingTail(buf, me)])
  {
    var q', ps := AllocNode(q, me, buf), producers[p := LoadingTail(buf, me)];
    OrderThread(q, producers, p, LoadingTail(buf, me));
    hide Mover;
    forall r | 0 <= r < |ps| && ps[r].Linking?
      ensures LinkingKnown(q', ps[r].tail)
    {
      assert !AboutToLink(producers[r], me.addr) && LinkingKnown(q, producers[r].tail);
    }
  }

  /** A CAS of Next succeeds only at mTail, the end of the chain. */
  lemma LinksAtEnd(q: Queue, tail: Ref)
    requires ListsInv(q) && LinkingKnown(q, tail) && NextOf(q, tail) == NULL
    ensures q.chain != [] && tail == Last(q.chain) == q.tail && tail.addr in q.home && q.home[tail.addr] == 0
  {
    var i :| 0 <= i < |q.chain| && q.chain[i] == tail;
    assert Linked(q, 0, ListAt(q, 0));
    LinkedLast(q, 0, q.chain, i);
    assert Placed(q, q.chain[i].addr, 0);
  }

  lemma LinkedChain(q: Queue, me: Ref, tail: Ref)
    requires CanLink(q, me, tail) && q.home[tail.addr] == 0 && Singles(q)
    ensures
      var q' := LinkNode(q, me, tail);
      && q'.chain == q.chain + [me] && q'.tail == q.tail && SideOf(q, me) == [me] && Singles(q')
      && (forall r: Ref :: r.addr != tail.addr ==> NextOf(q', r) == NextOf(q, r))
      && (tail.addr in q.heap ==> forall r: Ref :: r.addr == tail.addr ==> NextOf(q', r) == me)
  {
  }

  lemma OrderLink(q: Queue, producers: seq<Producer>, c: Consumer, p: nat)
    requires ListsInv(q) && NodesInv(q, producers, c) && OrderInv(q, producers)
    requires p < |producers| && producers[p].Linking? && NextOf(q, producers[p].tail) == NULL
    requires CanLink(q, producers[p].me, producers[p].tail) && producers[p].tail.addr in q.heap
    ensures
      var pc := producers[p];
      && OrderInv(LinkNode(q, pc.me, pc.tail), producers[p := SwingingTail(pc.me, pc.tail)])
      && HomeOf(q, pc.tail.addr) == 0 && SideOf(q, pc.me) == [pc.me]
  {
    var pc := producers[p];
    assert LinkingKnown(q, pc.tail);
    LinksAtEnd(q, pc.tail);
    LinkedChain(q, pc.me, pc.tail);
    OwnNodeUnlinked(q, pc.me);
    hide ListsInv, NodesInv, LinkNode, CanLink, NextOf, SideOf;
    OrderAfterLink(q, LinkNode(q, pc.me, pc.tail), producers, p);
  }

  lemma OrderAfterLink(q: Queue, q': Queue, producers: seq<Producer>, p: nat)
    requires OrderInv(q, producers) && p < |producers| && producers[p].Linking?
    requires q'.chain == q.chain + [producers[p].me] && q'.tail == q.tail == producers[p].tail == Last(q.chain)
      && Singles(q')
    requires NextOf(q, producers[p].me) == NULL && producers[p].me !in q.chain && producers[p].me != NULL
    requires forall r: Ref :: r.addr != q.tail.addr ==> NextOf(q', r) == NextOf(q, r)
    requires forall r: Ref :: r.addr == q.tail.addr ==> NextOf(q', r) == producers[p].me
    ensures OrderInv(q', producers[p := SwingingTail(producers[p].me, producers[p].tail)])
  {
    hide LinkingKnown, NextOf, Singles;
    var pc := producers[p];
    var ps := producers[p := SwingingTail(pc.me, pc.tail)];
    assert Mover(q'.tail, ps) by { assert ps[p].SwingingTail? && ps[p].tail == q'.tail; }
    hide Mover;
    forall r | 0 <= r < |ps| && ps[r].Linking?
      ensures LinkingKnown(q', ps[r].tail)
    {
      assert LinkingKnown(q, producers[r].tail);
      LinkingAfterLink(q, q', pc.me, pc.tail, producers[r].tail);
    }
  }

  /** What another thread knows, when a node was linked at the end of the chain. */
  lemma LinkingAfterLink(q: Queue, q': Queue, me: Ref, tail: Ref, other: Ref)
    requires LinkingKnown(q, other) && q'.chain == q.chain + [me] && q'.tail == q.tail
    requires NextOf(q, me) == NULL && me !in q.chain && me != NULL
    requires forall r: Ref :: r.addr != tail.addr ==> NextOf(q', r) == NextOf(q, r)
    requires forall r: Ref :: r.addr == tail.addr ==> NextOf(q', r) == me
    ensures LinkingKnown(q', other)
  {
    hide NextOf;
  }

  /** A node in no side list but its own, alone there: it has no successor and is not in the chain. */
  lemma OwnNodeUnlinked(q: Queue, me: Ref)
    requires ListsInv(q) && Singles(q) && me.addr in q.sides && me.addr > 0 && q.sides[me.addr] != []
      && q.sides[me.addr][0] == me
    ensures NextOf(q, me) == NULL && me !in q.chain && me != NULL
  {
    assert Linked(q, me.addr, ListAt(q, me.addr)) && Linked(q, 0, ListAt(q, 0));
    assert Placed(q, q.sides[me.addr][0].addr, me.addr);
    assert forall i :: 0 <= i < |q.chain| ==> Placed(q, q.chain[i].addr, 0);
  }

  lemma OrderMoveTail(q: Queue, producers: seq<Producer>, r: Ref)
    requires ListsInv(q) && OrderInv(q, producers) && MovesOn(q, r)
    ensures OrderInv(q.(tail := r), producers)
  {
    MovesToLast(q, r);
    hide ListsInv, MovesOn, Mover, LinkingKnown;
    forall p | 0 <= p < |producers| && producers[p].Linking?
      ensures LinkingKnown(q.(tail := r), producers[p].tail)
    {
      assert LinkingKnown(q, producers[p].tail);
      LinkingMoveTail(q, producers[p].tail);
    }
  }

  lemma LinkingMoveTail(q: Queue, tail: Ref)
    requires LinkingKnown(q, tail) && q.chain != []
    ensures LinkingKnown(q.(tail := Last(q.chain)), tail)
  {
  }

  lemma MovesToLast(q: Queue, r: Ref)
    requires ListsInv(q) && TailNear(q) && MovesOn(q, r)
    ensures r == Last(q.chain)
  {
    assert Linked(q, 0, ListAt(q, 0));
    hide ListsInv;
    var i :| 1 <= i < |q.chain| && q.chain[i] == r && q.chain[i - 1] == q.tail;
    assert forall j :: 0 <= j < |q.chain| && q.chain[j] == q.chain[i - 1] ==> j == i - 1;
  }

  lemma OrderTake(q: Queue, producers: seq<Producer>)
    requires ListsInv(q) && OrderInv(q, producers) && |q.chain| >= 2 && q.tail != q.head
    ensures OrderInv(TakeHead(q, q.chain[1]), producers)
  {
    var q' := TakeHead(q, q.chain[1]);
    HeadPlaced(q);
    HeadIsFirst(q);
    hide ListsInv, Mover, LinkingKnown;
    NearAfterTake(q);
    forall p | 0 <= p < |producers| && producers[p].Linking?
      ensures LinkingKnown(q', producers[p].tail)
    {
      assert LinkingKnown(q, producers[p].tail);
      LinkingTake(q, producers[p].tail);
    }
  }

  lemma NearAfterTake(q: Queue)
    requires TailNear(q) && |q.chain| >= 2 && q.head == q.chain[0] && q.tail != q.head
    ensures TailNear(TakeHead(q, q.chain[1])) && Last(TakeHead(q, q.chain[1]).chain) == Last(q.chain)
  {
  }

  lemma LinkingTake(q: Queue, tail: Ref)
    requires LinkingKnown(q, tail) && |q.chain| >= 2 && q.head == q.chain[0] && NextOf(q, q.head) != NULL
    ensures LinkingKnown(TakeHead(q, q.chain[1]), tail)
  {
    if NextOf(q, tail) == NULL {
      var i :| 0 <= i < |q.chain| && q.chain[i] == tail;
      assert TakeHead(q, q.chain[1]).chain[i - 1] == tail;
    }
  }

  lemma OrderFree(q: Queue, producers: seq<Producer>, addr: nat)
    requires OrderInv(q, producers)
    ensures OrderInv(FreeNode(q, addr), producers)
  {
    forall p | 0 <= p < |producers| && producers[p].Linking?
      ensures LinkingKnown(FreeNode(q, addr), producers[p].tail)
    {
      assert LinkingKnown(q, producers[p].tail);
    }
  }

  // ---- The order of each thread's records ----

  lemma CallsThread(buffers: map<nat, Buffer>, producers: seq<Producer>, h: History, p: nat, pc: Producer)
    requires CallsInv(buffers, producers, h) && p < |producers|
    requires Unlinking(pc) == Unlinking(producers[p]) && (Unlinking(pc) ==> pc.buf == producers[p].buf)
    ensures CallsInv(buffers, producers[p := pc], h)
  {
    hide By;
  }

  lemma CallsHistory(buffers: map<nat, Buffer>, producers: seq<Producer>, h: History, h': History)
    requires CallsInv(buffers, producers, h) && h'.linked == h.linked && h'.calls == h.calls
    ensures CallsInv(buffers, producers, h')
  {
    hide By, Unsent;
  }

  lemma CallsBuffers(buffers: map<nat, Buffer>, buffers': map<nat, Buffer>, producers: seq<Producer>, h: History)
    requires CallsInv(buffers, producers, h)
    requires forall p :: 0 <= p < |producers| && Unlinking(producers[p]) ==>
      TextOf(buffers', producers[p].buf) == TextOf(buffers, producers[p].buf)
    ensures CallsInv(buffers', producers, h)
  {
    hide By, TextOf;
    forall p | 0 <= p < |producers|
      ensures Unsent(buffers', producers[p]) == Unsent(buffers, producers[p])
    {
    }
  }

  lemma CallsCall(buffers: map<nat, Buffer>, producers: seq<Producer>, h: History, p: nat, buf: nat, m: Message)
    requires HandsOwned(buffers, producers) && CallsInv(buffers, producers, h)
    requires p < |producers| && producers[p].Idle? && buf !in buffers
    ensures CallsInv(buffers[buf := Buffer(m, Hand(p))], producers[p := Entering(buf)],
                     h.(calls := h.calls[p := h.calls[p] + [m.text]]))
  {
    hide By;
    var buffers' := buffers[buf := Buffer(m, Hand(p))];
    forall r | 0 <= r < |producers| && r != p
      ensures Unsent(buffers', producers[r]) == Unsent(buffers, producers[r])
    {
      assert Unlinking(producers[r]) ==> OwnedBy(buffers, producers[r].buf, Hand(r));
    }
    assert By(h.linked, p) + Unsent(buffers, producers[p]) == h.calls[p];
    assert Unsent(buffers', Entering(buf)) == [m.text];
  }

  lemma CallsLink(buffers: map<nat, Buffer>, producers: seq<Producer>, h: History, p: nat)
    requires HandsOwned(buffers, producers) && CallsInv(buffers, producers, h)
    requires p < |producers| && producers[p].Linking?
    ensures
      var pc := producers[p];
      CallsInv(NewOwner(buffers, pc.buf, Slot(pc.me.addr)), producers[p := SwingingTail(pc.me, pc.tail)],
               h.(linked := h.linked + [TextOf(buffers, pc.buf)]))
  {
    var pc := producers[p];
    var m, buffers' := TextOf(buffers, pc.buf), NewOwner(buffers, pc.buf, Slot(pc.me.addr));
    assert Unlinking(pc) && OwnedBy(buffers, pc.buf, Hand(p)) && m.writer == p;
    OwnerIsNoText(buffers, pc.buf, Slot(pc.me.addr));
    hide HandsOwned, NewOwner, TextOf, CallsInv;
    CallsBuffers(buffers, buffers', producers, h);
    CallsJoin(buffers', producers, h, p, SwingingTail(pc.me, pc.tail), m);
  }

  /** The record a thread holds joins the linked ones. */
  lemma CallsJoin(buffers: map<nat, Buffer>, producers: seq<Producer>, h: History, p: nat, pc: Producer, m: Message)
    requires CallsInv(buffers, producers, h) && p < |producers| && Unlinking(producers[p]) && !Unlinking(pc)
    requires m == TextOf(buffers, producers[p].buf) && m.writer == p
    ensures CallsInv(buffers, producers[p := pc], h.(linked := h.linked + [m]))
  {
    ByAppend(h.linked, m);
    hide By, TextOf;
    forall r | 0 <= r < |producers|
      ensures By(h.linked + [m], r) + Unsent(buffers, producers[p := pc][r]) == h.calls[r]
    {
      assert By(h.linked, r) + Unsent(buffers, producers[r]) == h.calls[r];
      assert By(h.linked, r) + [] == By(h.linked, r);
    }
  }

  // ---- Steps ----

  lemma SteadyParts(s: State)
    requires Steady(s)
    ensures Inv(s) && QueueInv(s.q) && ListsInv(s.q) && NodesInv(s.q, s.producers, s.consumer)
      && TailsInv(s.q, s.producers)
    ensures HandsOwned(s.buffers, s.producers) && ConsumerInv(s.q, s.consumer)
    ensures OwnersInv(s.q, s.buffers, s.producers, s.consumer)
  {
    hide ListsInv, PoolInv, BirthInv, NodesInv, TailsInv, ConsumerInv, HandsOwned, CountInv, StartInv, PipelineInv,
      PrintsInv, RecordsInv, SlotsOwned, OwnerHolds;
  }

  lemma CallKeepsOrder(s: State, a: Action)
    requires Steady(s) && Enabled(s, a) && a.Call?
    ensures KeepsOrder(s, Apply(s, a))
  {
    SteadyParts(s);
    hide Inv, OrderInv, CallsInv, HandsOwned;
    OrderThread(s.q, s.producers, a.p, Entering(a.buf));
    if CallOrder(s) {
      CallsCall(s.buffers, s.producers, s.h, a.p, a.buf, Message(a.p, |s.h.calls[a.p]|, MonitorRecord(a.message)));
    }
  }

  lemma AllocKeepsOrder(s: State, a: Action)
    requires Steady(s) && Tame(s, a) && a.Alloc?
    ensures KeepsOrder(s, Apply(s, a))
  {
    hide Inv, OrderInv, CallsInv, Queued, AllocNode, NewTag, Released, CanAlloc;
    var pc := s.producers[a.p];
    var me := Ref(a.addr, pc.tag);
    OrderAlloc(s.q, s.producers, a.p, me, pc.buf);
    if CallOrder(s) {
      CallsThread(s.buffers, s.producers, s.h, a.p, LoadingTail(pc.buf, me));
    }
  }

  /** A thread's step other than its CASes. */
  lemma QuietKeepsOrder(s: State, p: nat)
    requires Steady(s) && Enabled(s, Produce(p))
    requires var pc := s.producers[p];
      !pc.Helping? && !pc.SwingingTail? && (pc.Linking? ==> NextOf(s.q, pc.tail) != NULL)
    ensures KeepsOrder(s, ProducerStep(s, p))
  {
    if s.producers[p].LoadingTail? {
      SteadyParts(s);
      MTailKnown(s.q);
    }
    hide Inv, OrderInv, CallsInv, LinkingKnown;
    QuietOrder(s, p);
  }

  lemma QuietOrder(s: State, p: nat)
    requires OrderInv(s.q, s.producers) && Enabled(s, Produce(p))
    requires var pc := s.producers[p];
      !pc.Helping? && !pc.SwingingTail? && (pc.Linking? ==> NextOf(s.q, pc.tail) != NULL)
    requires s.producers[p].LoadingTail? ==> LinkingKnown(s.q, s.q.tail)
    ensures KeepsOrder(s, ProducerStep(s, p))
  {
    hide OrderInv, CallsInv, LinkingKnown;
    var s' := ProducerStep(s, p);
    OrderThread(s.q, s.producers, p, s'.producers[p]);
    if CallOrder(s) {
      CallsThread(s.buffers, s.producers, s.h, p, s'.producers[p]);
      CallsHistory(s.buffers, s'.producers, s.h, s'.h);
    }
  }

  lemma MTailKnown(q: Queue)
    requires ListsInv(q)
    ensures LinkingKnown(q, q.tail)
  {
  }

  lemma LinkKeepsOrder(s: State, p: nat)
    requires Steady(s) && Enabled(s, Produce(p)) && s.producers[p].Linking? && NextOf(s.q, s.producers[p].tail) == NULL
    ensures KeepsOrder(s, ProducerStep(s, p))
  {
    SteadyParts(s);
    var pc := s.producers[p];
    assert TailKnown(s.q, pc);
    hide Inv, OrderInv, CallsInv, HandsOwned, LinkingKnown, ListsInv, NodesInv, TailsInv, OwnersInv, PoolInv, BirthInv,
      CanLink, LinkNode;
    LinkKeepsQueue(s, p);
    OrderLink(s.q, s.producers, s.consumer, p);
    OneMessage(s.q, s.buffers, pc.me, pc.buf);
    if CallOrder(s) {
      CallsLink(s.buffers, s.producers, s.h, p);
    }
  }

  lemma OneMessage(q: Queue, buffers: map<nat, Buffer>, me: Ref, buf: nat)
    requires DataOf(q, me) == buf
    ensures Messages(q, buffers, [me]) == [TextOf(buffers, buf)]
  {
  }

  lemma CasTailKeepsOrder(s: State, p: nat)
    requires Steady(s) && p < |s.producers| && (s.producers[p].Helping? || s.producers[p].SwingingTail?)
    ensures KeepsOrder(s, ProducerStep(s, p))
  {
    SteadyParts(s);
    var pc := s.producers[p];
    assert TailKnown(s.q, pc);
    hide Inv, OrderInv, CallsInv, HandsOwned, ListsInv, NodesInv, TailsInv, OwnersInv, PoolInv, BirthInv, ConsumerInv,
      TailKnown;
    CasTailOrder(s, p);
  }

  lemma CasTailOrder(s: State, p: nat)
    requires OrderInv(s.q, s.producers) && ListsInv(s.q)
    requires p < |s.producers| && (s.producers[p].Helping? || s.producers[p].SwingingTail?)
    requires TailKnown(s.q, s.producers[p])
    ensures KeepsOrder(s, ProducerStep(s, p))
  {
    var pc := s.producers[p];
    hide OrderInv, CallsInv, ListsInv, TailKnown, MovesOn, LinkingKnown;
    var pc' := if pc.Helping? then LoadingTail(pc.buf, pc.me) else CountingUp;
    if CallOrder(s) {
      CallsThread(s.buffers, s.producers, s.h, p, pc');
    }
    CasTailCase(s.q, pc);
    if s.q.tail == pc.tail {
      var r := if pc.Helping? then pc.next else pc.me;
      OrderMoveTail(s.q, s.producers, r);
      TailLeft(s.q, r);
      OrderThread(s.q.(tail := r), s.producers, p, pc');
    } else {
      OrderThread(s.q, s.producers, p, pc');
    }
  }

  lemma TailLeft(q: Queue, r: Ref)
    requires ListsInv(q) && MovesOn(q, r)
    ensures q.tail != r
  {
    assert Linked(q, 0, ListAt(q, 0));
  }

  lemma ConsumeKeepsOrder(s: State)
    requires Steady(s) && Enabled(s, Consume)
    ensures KeepsOrder(s, ConsumerStep(s))
  {
    SteadyParts(s);
    var s', c := ConsumerStep(s), s.consumer;
    hide Inv, OrderInv, CallsInv, ListsInv, NodesInv, TailsInv, QueueInv, TakeHead;
    ConsumerTexts(s);
    if CallOrder(s) {
      CallsBuffers(s.buffers, s'.buffers, s.producers, s.h);
      CallsHistory(s'.buffers, s.producers, s.h, s'.h);
    }
    if c.SwingingHead? {
      OrderTake(s.q, s.producers);
      HeadIsFirst(s.q);
    } else if c.FreeingNode? {
      OrderFree(s.q, s.producers, c.head.addr);
    }
  }

  lemma HeadIsFirst(q: Queue)
    requires ListsInv(q)
    ensures q.chain != [] && q.head == q.chain[0]
  {
  }

  /** The consumer changes no record that a thread holds. */
  lemma ConsumerTexts(s: State)
    requires Enabled(s, Consume) && HandsOwned(s.buffers, s.producers)
      && OwnersInv(s.q, s.buffers, s.producers, s.consumer)
    ensures
      var s' := ConsumerStep(s);
      && s'.producers == s.producers && s'.h.linked == s.h.linked && s'.h.calls == s.h.calls
      && forall p :: 0 <= p < |s.producers| && Unlinking(s.producers[p]) ==>
           TextOf(s'.buffers, s.producers[p].buf) == TextOf(s.buffers, s.producers[p].buf)
  {
    hide OwnerHolds, SlotsOwned, TakeHead;
    forall p | 0 <= p < |s.producers| && Unlinking(s.producers[p])
      ensures OwnedBy(s.buffers, s.producers[p].buf, Hand(p))
    {
    }
  }

  lemma StepKeepsOrder(s: State, a: Action)
    requires Steady(s) && Tame(s, a)
    ensures KeepsOrder(s, Apply(s, a))
  {
    hide Steady, KeepsOrder, ProducerStep, ConsumerStep, Queued, NewTag, Released;
    match a
    case StaticInit => SameOrder(s, a);
    case Call(_, _, _) => CallKeepsOrder(s, a);
    case Print(_, _) => SameOrder(s, a);
    case Alloc(_, _) => AllocKeepsOrder(s, a);
    case Produce(p) =>
      var pc := s.producers[p];
      if pc.Helping? || pc.SwingingTail? {
        CasTailKeepsOrder(s, p);
      } else if pc.Linking? && NextOf(s.q, pc.tail) == NULL {
        LinkKeepsOrder(s, p);
      } else {
        QuietKeepsOrder(s, p);
      }
    case Consume => ConsumeKeepsOrder(s);
  }

  lemma SameOrder(s: State, a: Action)
    requires Steady(s) && Enabled(s, a) && (a.StaticInit? || a.Print?)
    ensures KeepsOrder(s, Apply(s, a))
  {
    hide Inv, OrderInv, CallsInv;
    if CallOrder(s) {
      CallsHistory(s.buffers, s.producers, s.h, Apply(s, a).h);
    }
  }

  /** Every tame step keeps the order too. */
  lemma StepKeepsSteady(s: State, a: Action)
    requires Steady(s) && Tame(s, a)
    ensures Steady(Apply(s, a)) && (CallOrder(s) ==> CallOrder(Apply(s, a)))
  {
    StepKeepsOrder(s, a);
    hide Inv, OrderInv, CallOrder, Apply, Released;
    StepKeepsInv(s, a);
  }

  lemma TamePrefix(n: nat, states: seq<State>)
    requires TameRun(n, states) && |states| > 1
    ensures TameRun(n, states[..|states| - 1]) && TameStep(states[|states| - 2], states[|states| - 1])
  {
    var before, k := states[..|states| - 1], |states| - 1;
    assert TameStep(states[k - 1], states[k]);
    forall i | 0 < i < |before|
      ensures TameStep(before[i - 1], before[i])
    {
      assert TameStep(states[i - 1], states[i]);
    }
  }

  /** The order holds after every tame run. */
  lemma {:induction false} RunKeepsOrder(n: nat, states: seq<State>)
    requires TameRun(n, states)
    ensures states != [] && Orderly(states[|states| - 1]) && |states[|states| - 1].producers| == n
    decreases |states|
  {
    hide Steady, CallOrder, Apply;
    if |states| == 1 {
      InitOrderly(n);
    } else {
      TamePrefix(n, states);
      RunKeepsOrder(n, states[..|states| - 1]);
      hide TameRun, Safe;
      var a :| Tame(states[|states| - 2], a) && states[|states| - 1] == Apply(states[|states| - 2], a);
      StepKeepsSteady(states[|states| - 2], a);
      TameIsEnabled(states[|states| - 2], a);
      SameThreads(states[|states| - 2], a);
    }
  }

  lemma TameIsEnabled(s: State, a: Action)
    requires Tame(s, a)
    ensures Enabled(s, a) && Safe(s, a)
  {
  }

  lemma {:induction false} TameRunIsSafe(n: nat, states: seq<State>)
    requires TameRun(n, states)
    ensures SafeRun(n, states)
  {
    hide Inv, Apply, NewTag, Queued, Released;
    forall i | 0 < i < |states|
      ensures SafeStep(states[i - 1], states[i])
    {
      assert TameStep(states[i - 1], states[i]);
      var a :| Tame(states[i - 1], a) && states[i] == Apply(states[i - 1], a);
    }
  }
}
