/** Every safe step of the asynchronous logger keeps the invariant. */
module AsyncLogSteps {
  import opened AsyncLogModel
  import opened AsyncLogInvariant
  import opened AsyncLogLedger
  import opened LogText
  import opened Sums

  /** The nodes of the queue. */
  ghost predicate QueueInv(q: Queue) { ListsInv(q) && PoolInv(q) && BirthInv(q) }

  ghost predicate Inv(s: State) {
    && QueueInv(s.q)
    && NodesInv(s.q, s.producers, s.consumer)
    && TailsInv(s.q, s.producers)
    && ConsumerInv(s.q, s.consumer)
    && OwnersInv(s.q, s.buffers, s.producers, s.consumer)
    && CountInv(s.q, s.count, s.event, s.producers, s.consumer)
    && StartInv(s.ready, s.event, s.producers, s.consumer, s.h)
    && PipelineInv(s.q, s.buffers, s.monitor, s.consumer, s.h)
    && PrintsInv(s.monitor, s.producers, s.h)
    && RecordsInv(s.q, s.buffers, s.h)
  }

  lemma InitInv(n: nat)
    ensures Inv(Init(n))
  {
    hide QueueInv, NodesInv, TailsInv, OwnersInv, CountInv, StartInv, PipelineInv, PrintsInv, RecordsInv;
    InitLists(n);
    InitAccounts(n);
  }

  lemma InitLists(n: nat)
    ensures var s := Init(n); QueueInv(s.q) && NodesInv(s.q, s.producers, s.consumer) && TailsInv(s.q, s.producers)
  {
    var q := InitQueue();
    assert Linked(q, 0, ListAt(q, 0));
    assert AtHome(q, 1) by {
      assert ListAt(q, 0)[0].addr == 1;
    }
  }

  lemma InitAccounts(n: nat)
    ensures
      var s := Init(n);
      && OwnersInv(s.q, s.buffers, s.producers, s.consumer)
      && CountInv(s.q, s.count, s.event, s.producers, s.consumer)
      && StartInv(s.ready, s.event, s.producers, s.consumer, s.h)
      && PipelineInv(s.q, s.buffers, s.monitor, s.consumer, s.h)
      && PrintsInv(s.monitor, s.producers, s.h) && RecordsInv(s.q, s.buffers, s.h)
  {
    SumZero(Init(n).producers, Uncounted);
    SumZero(Init(n).producers, Signallers);
  }

  // ---- Steps of a calling thread ----

  /** A thread moving between two places where it holds no node and no tail. */
  lemma ThreadFrame(s: State, p: nat, pc: Producer)
    requires NodesInv(s.q, s.producers, s.consumer) && TailsInv(s.q, s.producers)
    requires CountInv(s.q, s.count, s.event, s.producers, s.consumer)
    requires p < |s.producers| && !HasNode(pc) && !HasNode(s.producers[p]) && !pc.SwingingTail?
    requires Uncounted(pc) == Uncounted(s.producers[p]) && Signallers(pc) == Signallers(s.producers[p])
    ensures NodesInv(s.q, s.producers[p := pc], s.consumer) && TailsInv(s.q, s.producers[p := pc])
    ensures CountInv(s.q, s.count, s.event, s.producers[p := pc], s.consumer)
  {
    hide NodesInv, TailsInv, CountInv;
    NodesThread(s.q, s.producers, s.consumer, p, pc);
    TailsThread(s.q, s.producers, p, pc);
    CountThread(s.q, s.count, s.event, s.producers, s.consumer, p, pc);
  }

  lemma CallKeepsInv(s: State, a: Action)
    requires Inv(s) && Enabled(s, a) && a.Call?
    ensures Inv(Apply(s, a))
  {
    hide QueueInv, NodesInv, TailsInv, ConsumerInv, OwnersInv, CountInv, StartInv, PipelineInv, PrintsInv, RecordsInv;
    var m := Message(a.p, |s.h.calls[a.p]|, MonitorRecord(a.message));
    ThreadFrame(s, a.p, Entering(a.buf));
    OwnersCall(s.q, s.buffers, s.producers, s.consumer, a.p, a.buf, m);
    StartThread(s.ready, s.event, s.producers, s.consumer, s.h, Apply(s, a).h, a.p, Entering(a.buf));
    NewBufferUnseen(s, a.buf, Buffer(m, Hand(a.p)));
    PipelineHistory(s.q, Apply(s, a).buffers, s.monitor, s.consumer, s.h, Apply(s, a).h);
    PrintsHistory(s.monitor, s.producers, s.producers[a.p := Entering(a.buf)], s.h, Apply(s, a).h);
    RecordsCall(s.q, s.buffers, s.h, a.p, a.buf, m.text);
  }

  lemma NewBufferUnseen(s: State, buf: nat, b: Buffer)
    requires OwnersInv(s.q, s.buffers, s.producers, s.consumer) && buf !in s.buffers
    requires PipelineInv(s.q, s.buffers, s.monitor, s.consumer, s.h)
    ensures PipelineInv(s.q, s.buffers[buf := b], s.monitor, s.consumer, s.h)
  {
    var buffers' := s.buffers[buf := b];
    assert SlotsOwned(s.q, s.buffers, ListAt(s.q, 0));
    forall i | 1 <= i < |s.q.chain|
      ensures TextOf(buffers', DataOf(s.q, s.q.chain[i])) == TextOf(s.buffers, DataOf(s.q, s.q.chain[i]))
    {
      assert OwnedBy(s.buffers, DataOf(s.q, s.q.chain[i]), Slot(s.q.chain[i].addr));
    }
    assert InHand(buffers', s.consumer) == InHand(s.buffers, s.consumer);
    hide OwnersInv, PipelineInv, InHand;
    PipelineBuffers(s.q, s.buffers, buffers', s.monitor, s.consumer, s.consumer, s.h);
  }

  lemma PipelineHistory(q: Queue, buffers: map<nat, Buffer>, monitor: seq<Chunk>, c: Consumer, h: History, h': History)
    requires PipelineInv(q, buffers, monitor, c, h) && h'.linked == h.linked
    ensures PipelineInv(q, buffers, monitor, c, h')
  {
    hide QueueMessages, AsyncPart, InHand;
  }

  lemma PrintsHistory(monitor: seq<Chunk>, producers: seq<Producer>, ps: seq<Producer>, h: History, h': History)
    requires PrintsInv(monitor, producers, h) && |ps| == |producers| && h'.prints == h.prints && |h'.calls| == |h.calls|
    ensures PrintsInv(monitor, ps, h')
  {
    hide SyncPart;
  }

  lemma RecordsHistory(q: Queue, buffers: map<nat, Buffer>, h: History, h': History)
    requires RecordsInv(q, buffers, h) && h'.linked == h.linked && h'.calls == h.calls
    ensures RecordsInv(q, buffers, h')
  {
    PendingLive(q, buffers);
    hide RecordsInv, Pending;
    RecordsSame(q, q, buffers, buffers, h, h');
  }

  lemma PrintKeepsInv(s: State, a: Action)
    requires Inv(s) && Enabled(s, a) && a.Print?
    ensures Inv(Apply(s, a))
  {
    hide QueueInv, NodesInv, TailsInv, ConsumerInv, OwnersInv, CountInv, StartInv, PipelineInv, PrintsInv, RecordsInv;
    var m := Message(a.p, |s.h.prints[a.p]|, MonitorRecord(a.message));
    var h' := Apply(s, a).h;
    PrintsPrint(s.monitor, s.producers, s.h, m);
    PipelinePrint(s.q, s.buffers, s.monitor, s.consumer, s.h, m);
    PipelineHistory(s.q, s.buffers, s.monitor + [Sync(m)], s.consumer, s.h, h');
    StartHistory(s.ready, s.event, s.producers, s.consumer, s.h, h');
    RecordsHistory(s.q, s.buffers, s.h, h');
  }

  lemma PipelinePrint(q: Queue, buffers: map<nat, Buffer>, monitor: seq<Chunk>, c: Consumer, h: History, m: Message)
    requires PipelineInv(q, buffers, monitor, c, h)
    ensures PipelineInv(q, buffers, monitor + [Sync(m)], c, h)
  {
    FileAppend(monitor, Sync(m));
    hide QueueMessages, InHand, AsyncPart;
  }

  lemma StartHistory(ready: bool, event: bool, producers: seq<Producer>, c: Consumer, h: History, h': History)
    requires StartInv(ready, event, producers, c, h)
    requires h'.wakes == h.wakes && h'.signals == h.signals && h'.enqueues == h.enqueues && h'.dequeues == h.dequeues
    ensures StartInv(ready, event, producers, c, h')
  {
  }

  lemma AllocKeepsQueue(s: State, a: Action)
    requires Inv(s) && Safe(s, a) && a.Alloc?
    ensures
      var pc := s.producers[a.p];
      var me := Ref(a.addr, pc.tag);
      var q', ps := AllocNode(s.q, me, pc.buf), s.producers[a.p := LoadingTail(pc.buf, me)];
      && QueueInv(q') && NodesInv(q', ps, s.consumer) && TailsInv(q', ps)
      && a.addr !in s.q.home && a.addr !in s.q.sides && a.addr > 0
  {
    hide ListsInv, PoolInv, BirthInv, NodesInv, TailsInv, ConsumerInv, OwnersInv, CountInv, StartInv, PipelineInv,
      PrintsInv, RecordsInv;
    var pc := s.producers[a.p];
    var me := Ref(a.addr, pc.tag);
    AllocOutside(s.q, a.addr);
    ListsAlloc(s.q, me, pc.buf);
    PoolAlloc(s.q, me, pc.buf);
    BirthAlloc(s.q, me, pc.buf);
    RetiredAlloc(s.q, s.producers, s.consumer, me, pc.buf);
    NodesAlloc(s.q, s.producers, s.consumer, a.p, me, pc.buf);
    AllHaveSides(s.q, s.producers, s.consumer);
    TailsAlloc(s.q, s.producers, a.p, me, pc.buf);
  }

  lemma RetiredAlloc(q: Queue, producers: seq<Producer>, c: Consumer, me: Ref, buf: nat)
    requires PoolInv(q) && NodesInv(q, producers, c) && CanAlloc(q, me.addr)
    ensures c.FreeingNode? ==> Retired(AllocNode(q, me, buf), c.head.addr)
  {
    hide PoolInv, CanAlloc, AllocNode, Retired;
    if c.FreeingNode? {
      RetiredNotFree(q, me, buf, c.head.addr);
    }
  }

  lemma AllHaveSides(q: Queue, producers: seq<Producer>, c: Consumer)
    requires NodesInv(q, producers, c)
    ensures forall r :: 0 <= r < |producers| && HasNode(producers[r]) ==> producers[r].me.addr in q.sides
  {
    assert forall r :: 0 <= r < |producers| && HasNode(producers[r]) ==> OwnSide(q, producers[r]);
  }

  lemma AllocKeepsInv(s: State, a: Action)
    requires Inv(s) && Safe(s, a) && a.Alloc?
    ensures Inv(Apply(s, a))
  {
    hide Inv, QueueInv, NodesInv, TailsInv, NewTag, Queued, Apply;
    AllocKeepsQueue(s, a);
    AllocKeepsAccounts(s, a);
    AllocAsApplied(s, a);
  }

  lemma AllocAsApplied(s: State, a: Action)
    requires a.Alloc? && Enabled(s, a)
    requires
      var pc := s.producers[a.p];
      var me := Ref(a.addr, pc.tag);
      var q', ps := AllocNode(s.q, me, pc.buf), s.producers[a.p := LoadingTail(pc.buf, me)];
      && QueueInv(q') && NodesInv(q', ps, s.consumer) && TailsInv(q', ps)
      && ConsumerInv(q', s.consumer) && OwnersInv(q', s.buffers, ps, s.consumer)
          && CountInv(q', s.count, s.event, ps, s.consumer)
      && StartInv(s.ready, s.event, ps, s.consumer, s.h) && PipelineInv(q', s.buffers, s.monitor, s.consumer, s.h)
      && PrintsInv(s.monitor, ps, s.h) && RecordsInv(q', s.buffers, s.h)
    ensures Inv(Apply(s, a))
  {
    hide QueueInv, NodesInv, TailsInv, ConsumerInv, OwnersInv, CountInv, StartInv, PipelineInv, PrintsInv, RecordsInv,
      AllocNode, CanAlloc;
  }

  lemma AllocKeepsAccounts(s: State, a: Action)
    requires Inv(s) && Enabled(s, a) && a.Alloc? && a.addr !in s.q.home && a.addr !in s.q.sides && a.addr > 0
    ensures
      var pc := s.producers[a.p];
      var me := Ref(a.addr, pc.tag);
      var q', ps := AllocNode(s.q, me, pc.buf), s.producers[a.p := LoadingTail(pc.buf, me)];
      && ConsumerInv(q', s.consumer) && OwnersInv(q', s.buffers, ps, s.consumer)
          && CountInv(q', s.count, s.event, ps, s.consumer)
      && StartInv(s.ready, s.event, ps, s.consumer, s.h) && PipelineInv(q', s.buffers, s.monitor, s.consumer, s.h)
      && PrintsInv(s.monitor, ps, s.h) && RecordsInv(q', s.buffers, s.h)
  {
    hide ListsInv, PoolInv, BirthInv, NodesInv, TailsInv, ConsumerInv, OwnersInv, CountInv, StartInv, PipelineInv,
      PrintsInv, RecordsInv;
    var pc := s.producers[a.p];
    var me := Ref(a.addr, pc.tag);
    var pc' := LoadingTail(pc.buf, me);
    var q', ps := AllocNode(s.q, me, pc.buf), s.producers[a.p := pc'];
    AllLinkedOf(s.q);
    QueuedAlloc(s.q, me, pc.buf);
    hide AllLinked, AllocNode, Queued, CanAlloc;
    OwnersAlloc(s.q, s.buffers, s.producers, s.consumer, a.p, me, pc.buf);
    ConsumerAlloc(s.q, s.consumer, me, pc.buf);
    CountThread(s.q, s.count, s.event, s.producers, s.consumer, a.p, pc');
    CountQueue(s.q, q', s.count, s.event, ps, s.consumer);
    StartThread(s.ready, s.event, s.producers, s.consumer, s.h, s.h, a.p, pc');
    PipelineAlloc(s.q, s.buffers, s.monitor, s.consumer, s.h, me, pc.buf);
    PrintsHistory(s.monitor, s.producers, ps, s.h, s.h);
    RecordsAlloc(s.q, s.buffers, s.producers, s.consumer, s.h, me, pc.buf);
  }

  lemma AllLinkedOf(q: Queue)
    requires ListsInv(q)
    ensures AllLinked(q) && Named(q)
  {
  }

  /** The lists keep their data when a node outside them is handed out. */
  lemma DataAlloc(q: Queue, me: Ref, buf: nat)
    requires AllLinked(q) && me.addr !in q.home && me.addr !in q.sides && me.addr > 0
    ensures
      var q' := AllocNode(q, me, buf);
      && (forall k :: IsList(q, k) ==> IsList(q', k) && ListAt(q', k) == ListAt(q, k) && SameData(q, q', ListAt(q, k)))
      && (forall k :: IsList(q', k) && !IsList(q, k) ==> |ListAt(q', k)| == 1)
  {
    var q' := AllocNode(q, me, buf);
    forall k | IsList(q, k)
      ensures SameData(q, q', ListAt(q, k))
    {
      assert Linked(q, k, ListAt(q, k));
      forall i | 0 <= i < |ListAt(q, k)|
        ensures DataOf(q', ListAt(q, k)[i]) == DataOf(q, ListAt(q, k)[i])
      {
        assert Placed(q, ListAt(q, k)[i].addr, k);
      }
    }
  }

  lemma OwnersAlloc(q: Queue, buffers: map<nat, Buffer>, producers: seq<Producer>, c: Consumer, p: nat, me: Ref,
                    buf: nat)
    requires AllLinked(q) && OwnersInv(q, buffers, producers, c) && p < |producers| && producers[p].HavingId?
      && producers[p].buf == buf
    requires me.addr !in q.home && me.addr !in q.sides && me.addr > 0
    ensures OwnersInv(AllocNode(q, me, buf), buffers, producers[p := LoadingTail(buf, me)], c)
  {
    DataAlloc(q, me, buf);
    hide AllLinked, OwnersInv, SameData, AllocNode;
    OwnersThread(q, buffers, producers, c, p, LoadingTail(buf, me));
    OwnersQueue(q, AllocNode(q, me, buf), buffers, producers[p := LoadingTail(buf, me)], c);
  }

  lemma ConsumerAlloc(q: Queue, c: Consumer, me: Ref, buf: nat)
    requires AllLinked(q) && ConsumerInv(q, c) && me.addr !in q.home
    ensures ConsumerInv(AllocNode(q, me, buf), c)
  {
    assert Linked(q, 0, ListAt(q, 0));
    assert |q.chain| >= 2 ==> Placed(q, q.chain[1].addr, 0);
  }

  lemma PipelineAlloc(q: Queue, buffers: map<nat, Buffer>, monitor: seq<Chunk>, c: Consumer, h: History, me: Ref,
                      buf: nat)
    requires AllLinked(q) && PipelineInv(q, buffers, monitor, c, h) && me.addr !in q.home && me.addr !in q.sides
      && me.addr > 0
    ensures PipelineInv(AllocNode(q, me, buf), buffers, monitor, c, h)
  {
    DataAlloc(q, me, buf);
    assert IsList(q, 0);
    hide AllLinked, PipelineInv, SameData;
    PipelineQueue(q, AllocNode(q, me, buf), buffers, monitor, c, h);
  }

  lemma CountQueue(q: Queue, q': Queue, count: nat, event: bool, producers: seq<Producer>, c: Consumer)
    requires CountInv(q, count, event, producers, c) && Queued(q') == Queued(q)
    ensures CountInv(q', count, event, producers, c)
  {
    hide Queued;
  }

  /** A thread's step that leaves the queue, the counter and the buffers alone. */
  lemma LocalKeepsInv(s: State, s': State, p: nat, pc: Producer)
    requires Inv(s) && p < |s.producers| && !s.producers[p].Idle?
    requires s' == s.(id := s'.id, producers := s.producers[p := pc])
    requires Uncounted(pc) == Uncounted(s.producers[p]) && Signallers(pc) == Signallers(s.producers[p])
    requires Unlinking(pc) == Unlinking(s.producers[p]) && (Unlinking(pc) ==> pc.buf == s.producers[p].buf)
    requires HasNode(pc) == HasNode(s.producers[p]) && (HasNode(pc) ==> pc.me == s.producers[p].me)
    requires TailKnown(s.q, pc)
    ensures Inv(s')
  {
    hide QueueInv, NodesInv, TailsInv, ConsumerInv, OwnersInv, CountInv, StartInv, PipelineInv, PrintsInv, RecordsInv,
      TailKnown;
    NodesThread(s.q, s.producers, s.consumer, p, pc);
    TailsThread(s.q, s.producers, p, pc);
    OwnersThread(s.q, s.buffers, s.producers, s.consumer, p, pc);
    CountThread(s.q, s.count, s.event, s.producers, s.consumer, p, pc);
    StartThread(s.ready, s.event, s.producers, s.consumer, s.h, s.h, p, pc);
    PrintsHistory(s.monitor, s.producers, s'.producers, s.h, s.h);
  }

  lemma ReadingTailKnown(s: State, p: nat)
    requires ListsInv(s.q) && TailsInv(s.q, s.producers) && p < |s.producers| && Enabled(s, Produce(p))
    requires var pc := s.producers[p];
      pc.Entering? || pc.LoadingTail? || pc.HelpLoading? || (pc.Linking? && NextOf(s.q, pc.tail) != NULL)
    ensures |ProducerStep(s, p).producers| == |s.producers| && TailKnown(s.q, ProducerStep(s, p).producers[p])
  {
    var pc, pc' := s.producers[p], ProducerStep(s, p).producers[p];
    assert TailKnown(s.q, pc);
    hide ListsInv, TailsInv, TailKnown, ProducerStep;
    match pc
    case Entering(_) => NoTailKnown(s.q, pc');
    case LoadingTail(_, _) => LoadedTailKnown(s.q, pc');
    case Linking(_, _, _) => FailedTailKnown(s.q, pc, pc');
    case HelpLoading(_, _, _) => HelpedTailKnown(s.q, pc, pc');
  }

  lemma NoTailKnown(q: Queue, pc: Producer)
    requires !pc.Linking? && !pc.HelpLoading? && !pc.Helping? && !pc.SwingingTail?
    ensures TailKnown(q, pc)
  {
  }

  /** Entering, reading mTail or a Next pointer, or failing to link. */
  lemma ReadingKeepsInv(s: State, p: nat)
    requires Inv(s) && Enabled(s, Produce(p))
    requires var pc := s.producers[p];
      pc.Entering? || pc.LoadingTail? || pc.HelpLoading? || (pc.Linking? && NextOf(s.q, pc.tail) != NULL)
    ensures Inv(ProducerStep(s, p))
  {
    hide ListsInv, PoolInv, BirthInv, NodesInv, TailsInv, ConsumerInv, OwnersInv, CountInv, StartInv, PipelineInv,
      PrintsInv, RecordsInv, TailKnown;
    ReadingTailKnown(s, p);
    hide Inv;
    LocalKeepsInv(s, ProducerStep(s, p), p, ProducerStep(s, p).producers[p]);
  }

  lemma LinkKeepsQueue(s: State, p: nat)
    requires QueueInv(s.q) && NodesInv(s.q, s.producers, s.consumer) && TailsInv(s.q, s.producers)
    requires p < |s.producers| && s.producers[p].Linking? && NextOf(s.q, s.producers[p].tail) == NULL
    ensures
      var pc := s.producers[p];
      var q', ps := LinkNode(s.q, pc.me, pc.tail), s.producers[p := SwingingTail(pc.me, pc.tail)];
      && CanLink(s.q, pc.me, pc.tail) && DataOf(s.q, pc.me) == pc.buf
      && QueueInv(q') && NodesInv(q', ps, s.consumer) && TailsInv(q', ps)
  {
    var pc := s.producers[p];
    assert TailKnown(s.q, pc);
    assert OwnSide(s.q, pc) by { OwnSideOf(s.q, s.producers, s.consumer, p); }
    NoZeroSide(s.q);
    hide ListsInv, PoolInv, BirthInv, NodesInv, TailsInv, LinkNode, CanLink;
    LinksElsewhere(s.q, s.producers, s.consumer, p);
    ListsLink(s.q, pc.me, pc.tail);
    PoolLink(s.q, pc.me, pc.tail);
    HomeOfLinked(s.q, pc.me, pc.tail);
    BirthLink(s.q, pc.me, pc.tail);
    NodesLink(s.q, s.producers, s.consumer, p);
    TailsLink(s.q, s.producers, s.consumer, p);
  }

  lemma OwnSideOf(q: Queue, producers: seq<Producer>, c: Consumer, p: nat)
    requires NodesInv(q, producers, c) && p < |producers| && HasNode(producers[p])
    ensures OwnSide(q, producers[p])
  {
  }

  lemma NoZeroSide(q: Queue)
    requires ListsInv(q)
    ensures 0 !in q.sides
  {
  }

  lemma HomeOfLinked(q: Queue, me: Ref, tail: Ref)
    requires CanLink(q, me, tail)
    ensures tail.addr in q.home && HomeOf(q, tail.addr) == q.home[tail.addr]
  {
  }

  lemma LinkingKeepsInv(s: State, p: nat)
    requires Inv(s) && Safe(s, Produce(p)) && s.producers[p].Linking? && NextOf(s.q, s.producers[p].tail) == NULL
    ensures Inv(ProducerStep(s, p))
  {
    hide ListsInv, PoolInv, BirthInv, NodesInv, TailsInv, ConsumerInv, OwnersInv, CountInv, StartInv, PipelineInv,
      PrintsInv, RecordsInv, TailKnown, LinkNode, CanLink;
    var pc := s.producers[p];
    var pc' := SwingingTail(pc.me, pc.tail);
    LinkKeepsQueue(s, p);
    AllLinkedOf(s.q);
    var h' := ProducerStep(s, p).h;
    ConsumerLink(s.q, s.consumer, pc.me, pc.tail);
    OwnersLink(s.q, s.buffers, s.producers, s.consumer, p);
    CountLink(s.q, s.count, s.event, s.producers, s.consumer, p);
    StartThread(s.ready, s.event, s.producers, s.consumer, s.h, h', p, pc');
    assert s.q.chain != [];
    PipelineLink(s.q, s.buffers, s.monitor, s.consumer, s.h, pc.me, pc.tail, pc.buf);
    PrintsHistory(s.monitor, s.producers, s.producers[p := pc'], s.h, h');
    RecordsLink(s.q, s.buffers, s.producers, s.consumer, s.h, p);
  }

  lemma ConsumerLink(q: Queue, c: Consumer, me: Ref, tail: Ref)
    requires ConsumerInv(q, c)
    ensures ConsumerInv(LinkNode(q, me, tail), c)
  {
    LinkData(q, me, tail);
    var q' := LinkNode(q, me, tail);
    assert q.chain <= q'.chain && q'.head == q.head && q'.tail == q.tail;
    hide LinkNode, DataOf;
  }

  /** mTail moved on by one node. */
  lemma MovedTailKeeps(s: State, producers: seq<Producer>, r: Ref)
    requires QueueInv(s.q) && NodesInv(s.q, producers, s.consumer) && TailsInv(s.q, producers)
      && ConsumerInv(s.q, s.consumer)
    requires OwnersInv(s.q, s.buffers, producers, s.consumer) && PipelineInv(s.q, s.buffers, s.monitor, s.consumer, s.h)
    requires RecordsInv(s.q, s.buffers, s.h) && MovesOn(s.q, r)
    ensures
      var q' := s.q.(tail := r);
      && QueueInv(q') && NodesInv(q', producers, s.consumer) && TailsInv(q', producers) && ConsumerInv(q', s.consumer)
      && OwnersInv(q', s.buffers, producers, s.consumer) && PipelineInv(q', s.buffers, s.monitor, s.consumer, s.h)
      && RecordsInv(q', s.buffers, s.h)
  {
    hide ListsInv, PoolInv, BirthInv, NodesInv, TailsInv, ConsumerInv, OwnersInv, PipelineInv, RecordsInv;
    var q' := s.q.(tail := r);
    ConsumerMoveTail(s.q, s.consumer, r);
    MovesWithin(s.q, r);
    hide MovesOn;
    MoveTail(s.q, r, producers, s.consumer);
    SameQueueData(s.q, q');
    OwnersQueue(s.q, q', s.buffers, producers, s.consumer);
    PipelineQueue(s.q, q', s.buffers, s.monitor, s.consumer, s.h);
    RecordsTail(s.q, s.buffers, s.h, r);
  }

  lemma MovesWithin(q: Queue, r: Ref)
    requires MovesOn(q, r)
    ensures r in q.chain
  {
  }

  lemma SameQueueData(q: Queue, q': Queue)
    requires q'.heap == q.heap && q'.chain == q.chain && q'.sides == q.sides
    ensures forall k :: IsList(q, k) ==> IsList(q', k) && ListAt(q', k) == ListAt(q, k) && SameData(q, q', ListAt(q, k))
    ensures forall k :: IsList(q', k) ==> IsList(q, k)
    ensures SameData(q, q', q.chain)
  {
  }

  lemma RecordsTail(q: Queue, buffers: map<nat, Buffer>, h: History, r: Ref)
    requires RecordsInv(q, buffers, h)
    ensures RecordsInv(q.(tail := r), buffers, h)
  {
    assert forall b :: Pending(q.(tail := r), buffers, b) <==> Pending(q, buffers, b);
    PendingLive(q, buffers);
    hide RecordsInv, Pending;
    RecordsSame(q, q.(tail := r), buffers, buffers, h, h);
  }

  lemma ConsumerMoveTail(q: Queue, c: Consumer, r: Ref)
    requires ListsInv(q) && ConsumerInv(q, c) && MovesOn(q, r)
    ensures ConsumerInv(q.(tail := r), c)
  {
    assert Linked(q, 0, ListAt(q, 0));
    assert r != q.head;
    hide ListsInv, Linked, MovesOn;
  }

  /** A thread that has just done, or failed to do, its CAS of mTail. */
  lemma CasTailKeepsInv(s: State, p: nat)
    requires Inv(s) && p < |s.producers| && (s.producers[p].Helping? || s.producers[p].SwingingTail?)
    ensures Inv(ProducerStep(s, p))
  {
    hide ListsInv, PoolInv, BirthInv, NodesInv, ConsumerInv, OwnersInv, CountInv, StartInv, PipelineInv, PrintsInv,
      RecordsInv, TailKnown;
    var pc := s.producers[p];
    assert TailKnown(s.q, pc);
    hide TailsInv;
    var pc' := if pc.Helping? then LoadingTail(pc.buf, pc.me) else CountingUp;
    var ps := s.producers[p := pc'];
    CasTailCase(s.q, pc);
    NoTailKnown(s.q, pc');
    NodesThread(s.q, s.producers, s.consumer, p, pc');
    TailsThread(s.q, s.producers, p, pc');
    OwnersThread(s.q, s.buffers, s.producers, s.consumer, p, pc');
    CountThread(s.q, s.count, s.event, s.producers, s.consumer, p, pc');
    StartThread(s.ready, s.event, s.producers, s.consumer, s.h, s.h, p, pc');
    PrintsHistory(s.monitor, s.producers, ps, s.h, s.h);
    if s.q.tail == pc.tail {
      var r := if pc.Helping? then pc.next else pc.me;
      MovedTailKeeps(s, ps, r);
      CountQueue(s.q, s.q.(tail := r), s.count, s.event, ps, s.consumer);
    }
  }

  lemma CountingUpKeepsInv(s: State, p: nat)
    requires Inv(s) && p < |s.producers| && s.producers[p].CountingUp?
    ensures Inv(ProducerStep(s, p))
  {
    hide QueueInv, NodesInv, TailsInv, ConsumerInv, OwnersInv, CountInv, StartInv, PipelineInv, PrintsInv, RecordsInv,
      TailKnown;
    var h', ps := ProducerStep(s, p).h, s.producers[p := Signalling];
    NoTailKnown(s.q, Signalling);
    NodesThread(s.q, s.producers, s.consumer, p, Signalling);
    TailsThread(s.q, s.producers, p, Signalling);
    OwnersThread(s.q, s.buffers, s.producers, s.consumer, p, Signalling);
    CountUp(s.q, s.count, s.event, s.producers, s.consumer, p);
    StartCountUp(s.ready, s.event, s.producers, s.consumer, s.h, p);
    PipelineHistory(s.q, s.buffers, s.monitor, s.consumer, s.h, h');
    PrintsHistory(s.monitor, s.producers, ps, s.h, h');
    RecordsHistory(s.q, s.buffers, s.h, h');
  }

  lemma SignallingKeepsInv(s: State, p: nat)
    requires Inv(s) && p < |s.producers| && s.producers[p].Signalling?
    ensures Inv(ProducerStep(s, p))
  {
    hide QueueInv, NodesInv, TailsInv, ConsumerInv, OwnersInv, CountInv, StartInv, PipelineInv, PrintsInv, RecordsInv,
      TailKnown;
    var h', ps := ProducerStep(s, p).h, s.producers[p := Idle];
    NoTailKnown(s.q, Idle);
    NodesThread(s.q, s.producers, s.consumer, p, Idle);
    TailsThread(s.q, s.producers, p, Idle);
    OwnersThread(s.q, s.buffers, s.producers, s.consumer, p, Idle);
    CountSignal(s.q, s.count, s.event, s.producers, s.consumer, p);
    StartSignal(s.ready, s.event, s.producers, s.consumer, s.h, p);
    PipelineHistory(s.q, s.buffers, s.monitor, s.consumer, s.h, h');
    PrintsHistory(s.monitor, s.producers, ps, s.h, h');
    RecordsHistory(s.q, s.buffers, s.h, h');
  }

  lemma ProducerKeepsInv(s: State, p: nat)
    requires Inv(s) && Safe(s, Produce(p))
    ensures Inv(Apply(s, Produce(p)))
  {
    hide Inv;
    match s.producers[p]
    case Entering(_) => ReadingKeepsInv(s, p);
    case LoadingTail(_, _) => ReadingKeepsInv(s, p);
    case Linking(_, _, tail) =>
      if NextOf(s.q, tail) == NULL {
        LinkingKeepsInv(s, p);
      } else {
        ReadingKeepsInv(s, p);
      }
    case HelpLoading(_, _, _) => ReadingKeepsInv(s, p);
    case Helping(_, _, _, _) => CasTailKeepsInv(s, p);
    case SwingingTail(_, _) => CasTailKeepsInv(s, p);
    case CountingUp => CountingUpKeepsInv(s, p);
    case Signalling => SignallingKeepsInv(s, p);
  }

  // ---- Steps of the consumer ----

  predicate Reads(c: Consumer) {
    c.Checking? || c.LoadingHead? || c.LoadingHeadTail? || c.LoadingNext? || c.Deciding? || c.LoadingData?
  }

  lemma CountingReads(s: State)
    requires CountInv(s.q, s.count, s.event, s.producers, s.consumer)
    requires Reads(s.consumer)
    ensures CountInv(s.q, s.count, s.event, s.producers, ConsumerStep(s).consumer)
  {
    UncountedNonNegative(s.producers);
    hide Queued;
  }

  lemma KnowingReads(s: State)
    requires ListsInv(s.q) && ConsumerInv(s.q, s.consumer)
    requires Reads(s.consumer)
    ensures ConsumerInv(s.q, ConsumerStep(s).consumer)
  {
    if s.consumer.LoadingNext? {
      HeadPlaced(s.q);
      TailBehindHead(s.q);
      hide ListsInv, Placed;
      KnowingNext(s);
    } else {
      hide ListsInv;
      KnowingOther(s);
    }
  }

  lemma KnowingNext(s: State)
    requires s.consumer.LoadingNext? && ConsumerInv(s.q, s.consumer)
    requires |s.q.chain| >= 2 ==> NextOf(s.q, s.q.head) == s.q.chain[1]
    requires s.q.tail != s.q.head ==> |s.q.chain| >= 2
    ensures ConsumerInv(s.q, ConsumerStep(s).consumer)
  {
    hide NextOf;
  }

  lemma KnowingOther(s: State)
    requires Reads(s.consumer) && !s.consumer.LoadingNext? && ConsumerInv(s.q, s.consumer)
    ensures ConsumerInv(s.q, ConsumerStep(s).consumer)
  {
    hide NextOf, DataOf;
  }

  lemma TailBehindHead(q: Queue)
    requires ListsInv(q)
    ensures q.tail != q.head ==> |q.chain| >= 2
  {
  }

  /** A consumer step that only reads. */
  lemma ReadsKeepInv(s: State)
    requires Inv(s) && Reads(s.consumer)
    ensures Inv(ConsumerStep(s))
  {
    hide ListsInv, PoolInv, BirthInv, NodesInv, TailsInv, ConsumerInv, OwnersInv, CountInv, PipelineInv, PrintsInv,
      RecordsInv;
    CountingReads(s);
    KnowingReads(s);
    var s' := ConsumerStep(s);
    ReadsNothing(s);
    hide ConsumerStep;
    NodesConsumer(s.q, s.producers, s.consumer, s'.consumer);
    OwnersConsumer(s.q, s.buffers, s.producers, s.consumer, s'.consumer);
    PipelineConsumer(s.q, s.buffers, s.monitor, s.consumer, s'.consumer, s.h);
    PipelineHistory(s.q, s.buffers, s.monitor, s'.consumer, s.h, s'.h);
    PrintsHistory(s.monitor, s.producers, s.producers, s.h, s'.h);
    RecordsHistory(s.q, s.buffers, s.h, s'.h);
  }

  lemma ReadsNothing(s: State)
    requires Reads(s.consumer)
    ensures
      var s' := ConsumerStep(s);
      && s' == s.(consumer := s'.consumer, h := s.h.(dequeues := s'.h.dequeues)) && s.h.dequeues <= s'.h.dequeues
      && !ConsumerHolds(s'.consumer)
  {
  }

  lemma WakingKeepsInv(s: State)
    requires Inv(s) && s.consumer.Waiting? && s.event
    ensures Inv(ConsumerStep(s))
  {
    hide QueueInv, NodesInv, TailsInv, OwnersInv, PipelineInv, PrintsInv, RecordsInv, Queued;
    var h' := ConsumerStep(s).h;
    NodesConsumer(s.q, s.producers, s.consumer, Checking);
    OwnersConsumer(s.q, s.buffers, s.producers, s.consumer, Checking);
    PipelineConsumer(s.q, s.buffers, s.monitor, s.consumer, Checking, s.h);
    PipelineHistory(s.q, s.buffers, s.monitor, Checking, s.h, h');
    PrintsHistory(s.monitor, s.producers, s.producers, s.h, h');
    RecordsHistory(s.q, s.buffers, s.h, h');
  }

  /** What taking the next node does to the queue and its accounts. */
  lemma TakingKeepsQueue(s: State)
    requires Inv(s) && s.consumer.SwingingHead?
    ensures
      var c := s.consumer;
      var q' := TakeHead(s.q, c.next);
      && s.q.head == c.head && |s.q.chain| >= 2 && c.next == s.q.chain[1] && c.buf == DataOf(s.q, c.next)
      && QueueInv(q') && NodesInv(q', s.producers, FreeingNode(c.head, c.buf)) && TailsInv(q', s.producers)
      && 0 <= Queued(q') == Queued(s.q) - 1
  {
    var c := s.consumer;
    hide ListsInv, PoolInv, BirthInv, NodesInv, TailsInv, OwnersInv, CountInv, StartInv, PipelineInv, PrintsInv,
      RecordsInv;
    ListsTake(s.q);
    PoolTake(s.q);
    BirthTake(s.q);
    hide ConsumerInv;
    NodesTake(s.q, s.producers, c, c.buf);
    TailsTake(s.q, s.producers);
    ChainFits(s.q);
    HeadPlaced(s.q);
    hide Queued;
    QueuedTake(s.q, c.next);
  }

  lemma TakingKeepsInv(s: State)
    requires Inv(s) && s.consumer.SwingingHead?
    ensures Inv(ConsumerStep(s))
  {
    hide ListsInv, PoolInv, BirthInv, NodesInv, TailsInv, ConsumerInv, OwnersInv, CountInv, StartInv, PipelineInv,
      PrintsInv, RecordsInv;
    var c := s.consumer;
    TakingKeepsQueue(s);
    var q', c' := TakeHead(s.q, c.next), FreeingNode(c.head, c.buf);
    hide TakeHead, Queued;
    KnowsNothing(q', c');
    OwnersTake(s.q, s.buffers, s.producers, c);
    CountTake(s.q, q', s.count, s.event, s.producers, c, c');
    PipelineTake(s.q, s.buffers, s.monitor, c, s.h);
    StartTaking(s);
    TakenRecords(s);
  }

  lemma StartTaking(s: State)
    requires StartInv(s.ready, s.event, s.producers, s.consumer, s.h) && s.consumer.SwingingHead?
    ensures StartInv(s.ready, s.event, s.producers, FreeingNode(s.consumer.head, s.consumer.buf), s.h)
  {
  }

  lemma TakenRecords(s: State)
    requires ListsInv(s.q) && OwnersInv(s.q, s.buffers, s.producers, s.consumer) && RecordsInv(s.q, s.buffers, s.h)
    requires |s.q.chain| >= 2
    ensures
      var buf := DataOf(s.q, s.q.chain[1]);
      RecordsInv(TakeHead(s.q, s.q.chain[1]), NewOwner(s.buffers, buf, ConsumerHand), s.h)
  {
    hide RecordsInv, SlotsOwned;
    assert Linked(s.q, 0, ListAt(s.q, 0));
    assert Placed(s.q, s.q.chain[0].addr, 0) && Placed(s.q, s.q.chain[1].addr, 0);
    FirstSlot(s.q, s.buffers);
    hide ListsInv, OwnersInv, TakeHead;
    RecordsTake(s.q, s.buffers, s.h, DataOf(s.q, s.q.chain[1]));
  }

  lemma KnowsNothing(q: Queue, c: Consumer)
    requires c.FreeingNode? || c.CountingDown? || c.Writing? || c.Deleting? || c.Checking?
    ensures ConsumerInv(q, c)
  {
  }

  lemma FreeingKeepsInv(s: State)
    requires Inv(s) && s.consumer.FreeingNode?
    ensures Inv(ConsumerStep(s))
  {
    hide ListsInv, PoolInv, BirthInv, TailsInv, ConsumerInv, OwnersInv, CountInv, PipelineInv, PrintsInv, RecordsInv,
      Queued;
    var c := s.consumer;
    assert Retired(s.q, c.head.addr);
    hide NodesInv;
    var q', c' := FreeNode(s.q, c.head.addr), CountingDown(c.buf);
    ListsFree(s.q, c.head.addr);
    NodesFree(s.q, s.producers, c);
    TailsFree(s.q, s.producers, c.head.addr);
    KnowsNothing(q', c');
    SameQueueData(s.q, q');
    OwnersConsumer(s.q, s.buffers, s.producers, c, c');
    OwnersQueue(s.q, q', s.buffers, s.producers, c');
    CountFree(s.q, s.count, s.event, s.producers, c);
    PipelineQueue(s.q, q', s.buffers, s.monitor, c, s.h);
    PipelineConsumer(q', s.buffers, s.monitor, c, c', s.h);
    RecordsFree(s.q, s.buffers, s.h, c.head.addr);
  }

  lemma RecordsFree(q: Queue, buffers: map<nat, Buffer>, h: History, addr: nat)
    requires RecordsInv(q, buffers, h)
    ensures RecordsInv(FreeNode(q, addr), buffers, h)
  {
    assert forall b :: Pending(FreeNode(q, addr), buffers, b) <==> Pending(q, buffers, b);
    PendingLive(q, buffers);
    hide RecordsInv, Pending;
    RecordsSame(q, FreeNode(q, addr), buffers, buffers, h, h);
  }

  lemma CountFree(q: Queue, count: nat, event: bool, producers: seq<Producer>, c: Consumer)
    requires CountInv(q, count, event, producers, c) && c.FreeingNode?
    ensures CountInv(FreeNode(q, c.head.addr), count, event, producers, CountingDown(c.buf))
  {
  }

  lemma PipelineConsumer(q: Queue, buffers: map<nat, Buffer>, monitor: seq<Chunk>, c: Consumer, c': Consumer,
                         h: History)
    requires PipelineInv(q, buffers, monitor, c, h) && InHand(buffers, c') == InHand(buffers, c)
    ensures PipelineInv(q, buffers, monitor, c', h)
  {
    hide QueueMessages, AsyncPart;
  }

  lemma CountDownKeeps(q: Queue, count: nat, event: bool, producers: seq<Producer>, c: Consumer)
    requires CountInv(q, count, event, producers, c) && c.CountingDown?
    ensures CountInv(q, (count - 1) % TWO_POW_32, event, producers, Writing(c.buf))
  {
    UncountedNonNegative(producers);
    hide Queued;
  }

  lemma CountingDownKeepsInv(s: State)
    requires Inv(s) && s.consumer.CountingDown?
    ensures Inv(ConsumerStep(s))
  {
    hide QueueInv, NodesInv, TailsInv, ConsumerInv, OwnersInv, CountInv, PipelineInv, PrintsInv, RecordsInv;
    var c := s.consumer;
    var c' := Writing(c.buf);
    NodesConsumer(s.q, s.producers, c, c');
    KnowsNothing(s.q, c');
    OwnersConsumer(s.q, s.buffers, s.producers, c, c');
    CountDownKeeps(s.q, s.count, s.event, s.producers, c);
    PipelineConsumer(s.q, s.buffers, s.monitor, c, c', s.h);
  }

  lemma CountIdle(q: Queue, count: nat, event: bool, producers: seq<Producer>, c: Consumer, c': Consumer)
    requires CountInv(q, count, event, producers, c) && (c.Writing? || c.Deleting?)
    requires c'.Deleting? || c'.Checking?
    ensures CountInv(q, count, event, producers, c')
  {
  }

  lemma WritingKeepsInv(s: State)
    requires Inv(s) && s.consumer.Writing?
    ensures Inv(ConsumerStep(s))
  {
    hide QueueInv, NodesInv, TailsInv, ConsumerInv, OwnersInv, CountInv, PipelineInv, PrintsInv, RecordsInv;
    var c := s.consumer;
    var c' := Deleting(c.buf);
    NodesConsumer(s.q, s.producers, c, c');
    KnowsNothing(s.q, c');
    OwnersConsumer(s.q, s.buffers, s.producers, c, c');
    CountIdle(s.q, s.count, s.event, s.producers, c, c');
    PipelineWrite(s.q, s.buffers, s.monitor, c, s.h);
    PrintsWrite(s.monitor, s.producers, s.h, TextOf(s.buffers, c.buf));
  }

  lemma DeletingKeepsInv(s: State)
    requires Inv(s) && s.consumer.Deleting?
    ensures Inv(ConsumerStep(s))
  {
    hide QueueInv, NodesInv, TailsInv, ConsumerInv, OwnersInv, CountInv, PipelineInv, PrintsInv, RecordsInv;
    var c := s.consumer;
    NodesConsumer(s.q, s.producers, c, Checking);
    KnowsNothing(s.q, Checking);
    OwnersDelete(s.q, s.buffers, s.producers, c);
    CountIdle(s.q, s.count, s.event, s.producers, c, Checking);
    DeletedUnseen(s);
    DeletedRecords(s);
  }

  lemma DeletedUnseen(s: State)
    requires OwnersInv(s.q, s.buffers, s.producers, s.consumer) && s.consumer.Deleting?
    requires PipelineInv(s.q, s.buffers, s.monitor, s.consumer, s.h)
    ensures PipelineInv(s.q, s.buffers - {s.consumer.buf}, s.monitor, Checking, s.h)
  {
    hide PipelineInv;
    var buffers' := s.buffers - {s.consumer.buf};
    assert SlotsOwned(s.q, s.buffers, ListAt(s.q, 0));
    forall i | 1 <= i < |s.q.chain|
      ensures TextOf(buffers', DataOf(s.q, s.q.chain[i])) == TextOf(s.buffers, DataOf(s.q, s.q.chain[i]))
    {
      assert OwnedBy(s.buffers, DataOf(s.q, s.q.chain[i]), Slot(s.q.chain[i].addr));
    }
    hide OwnersInv;
    PipelineBuffers(s.q, s.buffers, buffers', s.monitor, s.consumer, Checking, s.h);
  }

  lemma DeletedRecords(s: State)
    requires OwnersInv(s.q, s.buffers, s.producers, s.consumer) && s.consumer.Deleting?
      && RecordsInv(s.q, s.buffers, s.h)
    ensures RecordsInv(s.q, s.buffers - {s.consumer.buf}, s.h)
  {
    var buffers' := s.buffers - {s.consumer.buf};
    assert OwnedBy(s.buffers, s.consumer.buf, ConsumerHand);
    hide OwnersInv, RecordsInv;
    assert forall b :: Pending(s.q, buffers', b) <==> Pending(s.q, s.buffers, b);
    RecordsSame(s.q, s.q, s.buffers, buffers', s.h, s.h);
  }

  lemma ConsumerKeepsInv(s: State)
    requires Inv(s) && Enabled(s, Consume)
    ensures Inv(ConsumerStep(s))
  {
    hide Inv, ConsumerStep;
    if Reads(s.consumer) {
      ReadsKeepInv(s);
    } else {
      match s.consumer
      case Waiting => WakingKeepsInv(s);
      case SwingingHead(_, _, _) => TakingKeepsInv(s);
      case FreeingNode(_, _) => FreeingKeepsInv(s);
      case CountingDown(_) => CountingDownKeepsInv(s);
      case Writing(_) => WritingKeepsInv(s);
      case Deleting(_) => DeletingKeepsInv(s);
    }
  }

  /** Every safe step, of any thread, keeps the invariant. */
  lemma StepKeepsInv(s: State, a: Action)
    requires Inv(s) && Safe(s, a)
    ensures Inv(Apply(s, a))
  {
    hide Inv, Apply;
    match a
    case StaticInit => StaticInitKeepsInv(s);
    case Call(_, _, _) => CallKeepsInv(s, a);
    case Print(_, _) => PrintKeepsInv(s, a);
    case Alloc(_, _) => AllocKeepsInv(s, a);
    case Produce(p) => ProducerKeepsInv(s, p);
    case Consume =>
      ConsumerKeepsInv(s);
      ConsumeIsStep(s);
  }

  lemma ConsumeIsStep(s: State)
    requires Enabled(s, Consume)
    ensures Apply(s, Consume) == ConsumerStep(s)
  {
    hide ConsumerStep;
  }

  lemma StaticInitKeepsInv(s: State)
    requires Inv(s) && Enabled(s, StaticInit)
    ensures Inv(Apply(s, StaticInit))
  {
    hide QueueInv, NodesInv, TailsInv, ConsumerInv, OwnersInv, CountInv, PipelineInv, PrintsInv, RecordsInv;
  }

  lemma SafePrefix(n: nat, states: seq<State>)
    requires SafeRun(n, states) && |states| > 1
    ensures SafeRun(n, states[..|states| - 1]) && SafeStep(states[|states| - 2], states[|states| - 1])
  {
    var before, k := states[..|states| - 1], |states| - 1;
    assert SafeStep(states[k - 1], states[k]);
    forall i | 0 < i < |before|
      ensures SafeStep(before[i - 1], before[i])
    {
      assert SafeStep(states[i - 1], states[i]);
    }
  }

  /** The invariant holds after every safe run. */
  lemma {:induction false} RunKeepsInv(n: nat, states: seq<State>)
    requires SafeRun(n, states)
    ensures states != [] && Inv(states[|states| - 1])
    ensures |states[|states| - 1].producers| == n
    decreases |states|
  {
    hide Inv, Apply;
    if |states| == 1 {
      InitInv(n);
    } else {
      SafePrefix(n, states);
      RunKeepsInv(n, states[..|states| - 1]);
      hide SafeRun;
      var a :| Safe(states[|states| - 2], a) && states[|states| - 1] == Apply(states[|states| - 2], a);
      StepKeepsInv(states[|states| - 2], a);
      SameThreads(states[|states| - 2], a);
    }
  }

  lemma SameThreads(s: State, a: Action)
    requires Enabled(s, a)
    ensures |Apply(s, a).producers| == |s.producers|
  {
    hide LinkNode, AllocNode, Messages, TakeHead, FreeNode, NewOwner, CasTail;
  }
}
