/** Progress of the asynchronous logger: without new calls every schedule ends, and it ends with
    everything written. */
module AsyncLogProgress {
  import opened AsyncLogModel
  import opened AsyncLogInvariant
  import opened AsyncLogLedger
  import opened AsyncLogSteps
  import opened AsyncLogOrder
  import opened AsyncLogTheorems
  import opened Sums

  /** No thread can move without a new call. */
  ghost predicate Quiescent(s: State) {
    forall a :: Enabled(s, a) ==> IsCall(a)
  }

  lemma QuiescentPlaces(s: State)
    requires Quiescent(s)
    ensures s.consumer.Waiting? && !s.event
    ensures forall p :: 0 <= p < |s.producers| ==> s.producers[p].Idle?
  {
    assert !Enabled(s, Consume);
    forall p | 0 <= p < |s.producers|
      ensures s.producers[p].Idle?
    {
      assert !Enabled(s, Produce(p));
      if s.producers[p].HavingId? {
        var addr := Fresh(s.q.heap.Keys);
        assert Enabled(s, Alloc(p, if s.q.pool == [] then addr else s.q.pool[|s.q.pool| - 1]));
      }
    }
  }

  lemma Fresh(used: set<nat>) returns (addr: nat)
    ensures addr > 0 && addr !in used
  {
    if used == {} {
      addr := 1;
    } else {
      var top := Largest(used);
      addr := top + 1;
    }
  }

  lemma {:induction false} Largest(xs: set<nat>) returns (top: nat)
    requires xs != {}
    ensures top in xs && forall x :: x in xs ==> x <= top
    decreases |xs|
  {
    var some :| some in xs;
    var rest := xs - {some};
    assert forall x :: x in xs ==> x == some || x in rest;
    if rest == {} {
      top := some;
    } else {
      var other := Largest(rest);
      top := if other > some then other else some;
    }
  }

  /** Nothing is queued, no buffer is alive, and every record ever asked for is in the file exactly once. */
  ghost predicate AllWritten(s: State) {
    && Queued(s.q) == 0 && |s.q.chain| == 1 && s.buffers == map[]
    && AsyncPart(s.monitor) == s.h.linked
    && (forall p, no :: 0 <= p < |s.h.calls| && 0 <= no < |s.h.calls[p]| ==> OnceAmong(AsyncPart(s.monitor), p, no))
  }

  /** When nothing can move after a safe run, everything has been written. */
  lemma QuiescentIsDrained(s: State)
    requires Inv(s) && Quiescent(s)
    ensures AllWritten(s)
  {
    hide Inv, ListsInv, Queued, QueueMessages;
    QuiescentPlaces(s);
    hide Quiescent;
    CountOf(s);
    QueueEmpty(s);
    OwnersOf(s);
    NothingHangs(s);
    NothingAlive(s);
    UnderWayIsRest(s);
    NothingUnderWay(s);
    assert AsyncPart(s.monitor) == s.h.linked;
    forall p, no | 0 <= p < |s.h.calls| && 0 <= no < |s.h.calls[p]|
      ensures OnceAmong(AsyncPart(s.monitor), p, no)
    {
      OnePlace(s, p, no);
      assert forall b :: !Holding(s, b, p, no);
    }
  }

  lemma QueueEmpty(s: State)
    requires CountInv(s.q, s.count, s.event, s.producers, s.consumer) && ListsInv(s.q)
    requires s.consumer.Waiting? && !s.event && forall p :: 0 <= p < |s.producers| ==> s.producers[p].Idle?
    ensures Queued(s.q) == 0 && |s.q.chain| == 1
  {
    SumZero(s.producers, Uncounted);
    SumZero(s.producers, Signallers);
    ChainFits(s.q);
  }

  /** With no Enqueue unfinished, no node hangs outside the chain. */
  lemma NothingHangs(s: State)
    requires Inv(s) && forall p :: 0 <= p < |s.producers| ==> s.producers[p].Idle?
    ensures s.q.sides == map[]
  {
    hide QueueInv, TailsInv, ConsumerInv, OwnersInv, CountInv, StartInv, PipelineInv, PrintsInv, RecordsInv;
    assert forall k :: k in s.q.sides ==> SideOwned(s.producers, k);
  }

  lemma NothingAlive(s: State)
    requires OwnersInv(s.q, s.buffers, s.producers, s.consumer) && |s.q.chain| == 1 && s.q.sides == map[]
      && s.consumer.Waiting?
    requires forall p :: 0 <= p < |s.producers| ==> s.producers[p].Idle?
    ensures s.buffers == map[]
  {
    forall b: nat, owner
      ensures !OwnerHolds(s.q, s.producers, s.consumer, b, owner)
    {
    }
    assert forall b :: b !in s.buffers;
  }

  lemma NothingUnderWay(s: State)
    requires |s.q.chain| == 1 && s.consumer.Waiting?
    ensures UnderWay(s) == []
  {
  }

  /** If the order of the calls was kept, each thread's records are there in that order. */
  ghost predicate WrittenInOrder(s: State) {
    |s.h.calls| == |s.producers| && forall p :: 0 <= p < |s.producers| ==> By(AsyncPart(s.monitor), p) == s.h.calls[p]
  }

  lemma QuiescentInOrder(s: State)
    requires Inv(s) && Quiescent(s) && CallOrder(s)
    ensures AllWritten(s) && WrittenInOrder(s)
  {
    hide Inv, AllWritten;
    QuiescentPlaces(s);
    QuiescentIsDrained(s);
    assert AsyncPart(s.monitor) == s.h.linked by {
      WrittenIsLinked(s);
    }
    hide Quiescent, AsyncPart, By, OnceAmong;
    forall p | 0 <= p < |s.producers|
      ensures By(s.h.linked, p) == s.h.calls[p]
    {
      assert By(s.h.linked, p) + Unsent(s.buffers, s.producers[p]) == s.h.calls[p];
    }
  }

  lemma WrittenIsLinked(s: State)
    requires AllWritten(s)
    ensures AsyncPart(s.monitor) == s.h.linked
  {
  }

  // ---- The measure ----

  /** Compared lexicographically. `unlinked` threads have a record not yet in the queue, `lag` is 1
      while mTail is behind, `unsignalled` threads have linked and not yet signalled. `work` ranks
      where each thread is, given those. */
  datatype Measure = Measure(unlinked: nat, lag: nat, queued: nat, unsignalled: nat, event: nat, work: nat)

  predicate Less(m: Measure, m': Measure) {
    || m.unlinked < m'.unlinked
    || (m.unlinked == m'.unlinked && (
        || m.lag < m'.lag
        || (m.lag == m'.lag && (
            || m.queued < m'.queued
            || (m.queued == m'.queued && (
                || m.unsignalled < m'.unsignalled
                || (m.unsignalled == m'.unsignalled && (
                    || m.event < m'.event
                    || (m.event == m'.event && m.work < m'.work)))))))))
  }

  /** Steps left before the thread has to see the queue change; a thread whose localMyTail is no
      longer mTail has a retry ahead of it. */
  function Work(pc: Producer, tail: Ref): nat {
    match pc
    case Idle => 0
    case Entering(_) => 9
    case HavingId(_, _) => 8
    case LoadingTail(_, _) => 4
    case Linking(_, _, t) => if t == tail then 3 else 7
    case HelpLoading(_, _, t) => if t == tail then 2 else 6
    case Helping(_, _, t, _) => if t == tail then 1 else 5
    case SwingingTail(_, _) => 3
    case CountingUp => 2
    case Signalling => 1
  }

  function ConsumerWork(c: Consumer, tail: Ref): nat {
    match c
    case Waiting => 0
    case SwingingHead(_, _, _) => 1
    case LoadingData(_, _) => 2
    case Deciding(_, t, _) => if t == tail then 3 else 8
    case LoadingNext(_, t) => if t == tail then 4 else 9
    case LoadingHeadTail(_) => 5
    case LoadingHead => 6
    case Checking => 10
    case Deleting(_) => 11
    case Writing(_) => 12
    case CountingDown(_) => 13
    case FreeingNode(_, _) => 14
  }

  function TotalWork(producers: seq<Producer>, tail: Ref): nat {
    if producers == [] then 0 else
    TotalWork(producers[..|producers| - 1], tail) + Work(producers[|producers| - 1], tail)
  }

  lemma {:induction false} TotalWorkUpdate(producers: seq<Producer>, tail: Ref, p: nat, pc: Producer)
    requires p < |producers|
    ensures TotalWork(producers[p := pc], tail) == TotalWork(producers, tail) - Work(producers[p], tail) + Work(pc,
      tail)
  {
    var n := |producers| - 1;
    if p == n {
      assert producers[p := pc][..n] == producers[..n];
    } else {
      assert producers[p := pc][..n] == producers[..n][p := pc];
      TotalWorkUpdate(producers[..n], tail, p, pc);
    }
  }

  function Count(producers: seq<Producer>, weight: Producer -> int): nat
    requires forall pc :: weight(pc) >= 0
  {
    SumNonNegative(producers, weight);
    Sum(producers, weight)
  }

  function Progress(s: State): Measure {
    Measure(Count(s.producers, Unlinked),
            if AtEnd(s.q) then 0 else 1,
            |s.q.chain|,
            Count(s.producers, Announced),
            if s.event then 1 else 0,
            TotalWork(s.producers, s.q.tail) + ConsumerWork(s.consumer, s.q.tail))
  }

  lemma CountUpdate(producers: seq<Producer>, p: nat, pc: Producer)
    requires p < |producers|
    ensures Count(producers[p := pc], Unlinked) == Count(producers, Unlinked) - Unlinked(producers[p]) + Unlinked(pc)
    ensures Count(producers[p := pc], Announced) == Count(producers,
      Announced) - Announced(producers[p]) + Announced(pc)
  {
    SumUpdate(producers, p, pc, Unlinked);
    SumUpdate(producers, p, pc, Announced);
  }

  predicate AtEnd(q: Queue) { q.chain != [] && q.tail == Last(q.chain) }

  /** What a thread's step does to each part of the measure. */
  predicate Moves(s: State, s': State, p: nat)
    requires p < |s.producers| == |s'.producers|
  {
    var pc, pc' := s.producers[p], s'.producers[p];
    && s'.producers == s.producers[p := pc'] && s'.consumer == s.consumer
    && (|| Unlinked(pc') < Unlinked(pc)
        || (Unlinked(pc') == Unlinked(pc) && s'.q.chain == s.q.chain
            && (|| (!AtEnd(s.q) && AtEnd(s'.q))
                || (s'.q.tail == s.q.tail && Advances(pc, pc', s.q.tail, s.event, s'.event)))))
  }

  predicate Advances(pc: Producer, pc': Producer, tail: Ref, event: bool, event': bool) {
    || Announced(pc') < Announced(pc)
    || (Announced(pc') == Announced(pc) && event' == event && Work(pc', tail) < Work(pc, tail))
  }

  lemma MovesIsProgress(s: State, s': State, p: nat)
    requires p < |s.producers| == |s'.producers| && Moves(s, s', p)
    ensures Less(Progress(s'), Progress(s))
  {
    CountUpdate(s.producers, p, s'.producers[p]);
    TotalWorkUpdate(s.producers, s.q.tail, p, s'.producers[p]);
    hide TotalWork, Count;
  }

  lemma CasTailMoves(s: State, p: nat)
    requires ListsInv(s.q) && TailsInv(s.q, s.producers) && TailNear(s.q)
    requires p < |s.producers| && (s.producers[p].Helping? || s.producers[p].SwingingTail?)
    ensures Moves(s, ProducerStep(s, p), p)
  {
    var pc := s.producers[p];
    assert TailKnown(s.q, pc);
    hide ListsInv, TailsInv, TailKnown, MovesOn;
    CasTailCase(s.q, pc);
    if s.q.tail == pc.tail {
      var r := if pc.Helping? then pc.next else pc.me;
      MovesToLast(s.q, r);
      TailLeft(s.q, r);
    }
  }

  lemma LinkingMoves(s: State, p: nat)
    requires p < |s.producers| && s.producers[p].Linking?
    ensures Moves(s, ProducerStep(s, p), p)
  {
  }

  lemma OtherMoves(s: State, a: Action)
    requires Enabled(s, a) && (a.Alloc? || a.Produce?)
    requires !HoldsTail(s.producers[a.p]) || s.producers[a.p].HelpLoading?
    ensures |Apply(s, a).producers| == |s.producers| && Moves(s, Apply(s, a), a.p)
  {
  }

  lemma ProducerMoves(s: State, a: Action)
    requires ListsInv(s.q) && TailsInv(s.q, s.producers) && TailNear(s.q)
    requires Enabled(s, a) && (a.Alloc? || a.Produce?)
    ensures |Apply(s, a).producers| == |s.producers| && Moves(s, Apply(s, a), a.p)
  {
    hide ListsInv, TailsInv, TailNear, Moves;
    var pc := s.producers[a.p];
    if pc.Linking? {
      LinkingMoves(s, a.p);
    } else if pc.Helping? || pc.SwingingTail? {
      CasTailMoves(s, a.p);
    } else {
      OtherMoves(s, a);
    }
  }

  lemma ProducerProgress(s: State, a: Action)
    requires ListsInv(s.q) && TailsInv(s.q, s.producers) && TailNear(s.q)
    requires Enabled(s, a) && (a.Alloc? || a.Produce?)
    ensures Less(Progress(Apply(s, a)), Progress(s))
  {
    hide ListsInv, TailsInv, TailNear, Moves, Progress, Less;
    ProducerMoves(s, a);
    MovesIsProgress(s, Apply(s, a), a.p);
  }

  /** In tame runs the retry in TryDequeue only happens when mTail has moved since it was read. */
  lemma RetryIsStale(s: State)
    requires Steady(s) && s.consumer.Deciding?
    ensures s.consumer.tail == s.consumer.head ==> s.count == 0 || s.consumer.tail != s.q.tail
    ensures s.consumer.tail != s.consumer.head ==> s.consumer.next.addr != 0
  {
    hide Inv, ListsInv, Queued, TailNear, LinkingInv, LagInv;
    SteadyParts(s);
    CountOf(s);
    SinglesQueued(s.q);
    UncountedNonNegative(s.producers);
    if s.consumer.tail != s.consumer.head {
      HeadPlaced(s.q);
      SecondUsed(s.q);
    } else if s.consumer.tail == s.q.tail && s.count > 0 {
      TailAtHead(s.q, s.producers);
    }
  }

  lemma SecondUsed(q: Queue)
    requires ListsInv(q) && |q.chain| >= 2
    ensures q.chain[1].addr != 0
  {
    assert Linked(q, 0, ListAt(q, 0));
    assert Placed(q, q.chain[1].addr, 0);
  }

  /** When mTail is the first node, every record in the chain is one not yet counted. */
  lemma TailAtHead(q: Queue, producers: seq<Producer>)
    requires ListsInv(q) && TailNear(q) && LagInv(q, producers) && q.head == q.tail
    ensures |q.chain| - 1 <= Sum(producers, Uncounted)
  {
    UncountedNonNegative(producers);
    assert Linked(q, 0, ListAt(q, 0));
    hide ListsInv;
    assert forall i :: 1 <= i < |q.chain| ==> q.chain[i] != q.chain[0];
    if q.tail != Last(q.chain) {
      assert |q.chain| == 2;
      var p :| 0 <= p < |producers| && producers[p].SwingingTail? && producers[p].tail == q.tail;
      SumCounts(producers, p);
    }
  }

  lemma SumCounts(producers: seq<Producer>, p: nat)
    requires p < |producers| && producers[p].SwingingTail?
    ensures Sum(producers, Uncounted) >= 1
  {
    SumBoundsEach(producers, Uncounted, p);
  }

  lemma ConsumerProgress(s: State)
    requires Steady(s) && Enabled(s, Consume)
    ensures Less(Progress(ConsumerStep(s)), Progress(s))
  {
    hide Steady;
    if s.consumer.Deciding? {
      RetryIsStale(s);
    } else if s.consumer.SwingingHead? {
      SteadyParts(s);
      hide Inv, QueueInv, NodesInv, TailsInv, HandsOwned, OwnersInv;
      SwingSucceeds(s.q, s.consumer);
    }
    ConsumerMoves(s);
  }

  lemma ConsumerMoves(s: State)
    requires Enabled(s, Consume)
    requires s.consumer.Deciding? ==>
      && (s.consumer.tail == s.consumer.head ==> s.count == 0 || s.consumer.tail != s.q.tail)
      && (s.consumer.tail != s.consumer.head ==> s.consumer.next.addr != 0)
    requires s.consumer.SwingingHead? ==>
      s.q.head == s.consumer.head && |s.q.chain| >= 2 && AtEnd(TakeHead(s.q, s.consumer.next)) == AtEnd(s.q)
    ensures Less(Progress(ConsumerStep(s)), Progress(s))
  {
    hide Count, TotalWork, AtEnd;
    if !s.consumer.SwingingHead? {
      SameEnd(s);
    }
  }

  lemma SameEnd(s: State)
    requires Enabled(s, Consume) && !s.consumer.SwingingHead?
    ensures AtEnd(ConsumerStep(s).q) == AtEnd(s.q) && ConsumerStep(s).q.chain == s.q.chain
      && ConsumerStep(s).q.tail == s.q.tail
  {
  }

  lemma SwingSucceeds(q: Queue, c: Consumer)
    requires ListsInv(q) && ConsumerInv(q, c) && c.SwingingHead?
    ensures q.head == c.head && |q.chain| >= 2
    ensures AtEnd(TakeHead(q, c.next)) == AtEnd(q)
  {
    hide ListsInv;
  }

  /** Every tame step that is not a call brings the logger closer to quiescence. */
  lemma StepProgress(s: State, a: Action)
    requires Steady(s) && Tame(s, a) && !IsCall(a)
    ensures Less(Progress(Apply(s, a)), Progress(s))
  {
    hide Steady, Less, Progress, Queued, NewTag, Released, ConsumerStep;
    if a.Consume? {
      ConsumerProgress(s);
    } else {
      SteadyParts(s);
      TailNearOf(s);
      ProducerProgress(s, a);
    }
  }

  lemma TailNearOf(s: State)
    requires Steady(s)
    ensures TailNear(s.q)
  {
    hide Inv;
  }

  /** A tame step that starts no new work. */
  ghost predicate Continues(s: State, s': State) {
    exists a :: Tame(s, a) && !IsCall(a) && s' == Apply(s, a)
  }

  lemma ContinuingProgress(s: State, s': State)
    requires Steady(s) && Continues(s, s')
    ensures Steady(s') && Less(Progress(s'), Progress(s)) && s'.h.calls == s.h.calls
    ensures CallOrder(s) ==> CallOrder(s')
  {
    hide Steady, CallOrder, Progress, Apply, Queued, NewTag, Released;
    var a :| Tame(s, a) && !IsCall(a) && s' == Apply(s, a);
    TameIsEnabled(s, a);
    OnlyCallsAsk(s, a);
    StepProgress(s, a);
    StepKeepsSteady(s, a);
  }

  lemma OnlyCallsAsk(s: State, a: Action)
    requires Enabled(s, a) && !IsCall(a)
    ensures Apply(s, a).h.calls == s.h.calls
  {
    hide LinkNode, AllocNode, Messages, TakeHead, FreeNode, NewOwner, CasTail;
  }

  // ---- When the next step is tame ----

  /** Records queued or still to be queued, and the dummy node. Only a call adds to them. */
  function Outstanding(s: State): int {
    Queued(s.q) + 1 + Count(s.producers, Unlinked)
  }

  /** The node on top of the pool can be given to a thread with this identifier without danger: nobody is
      about to CAS its Next, and nobody remembers the tagged pointer. */
  ghost predicate TopIsFree(s: State, tag: nat) {
    s.q.pool == [] ||
      var top := s.q.pool[|s.q.pool| - 1]; Released(s.producers, top) && NewTag(s.producers, Ref(top, tag))
  }

  /** Exactly when a step is tame, if fewer than 2^32 records are outstanding: always, but for an
      allocation, and for that exactly when the pool is empty or its top node is free of danger. The pool
      gives a thread no choice. */
  lemma NextStepTame(s: State, a: Action)
    requires Inv(s) && Enabled(s, a) && !IsCall(a) && Outstanding(s) < TWO_POW_32
    ensures Tame(s, a) <==> (a.Alloc? ==> TopIsFree(s, s.producers[a.p].tag))
  {
    hide Inv;
    QueuedAtMost(s, a);
    if a.Alloc? && s.q.pool == [] {
      FreshIsFree(s, a.addr, s.producers[a.p].tag);
    }
  }

  lemma FreshIsFree(s: State, addr: nat, tag: nat)
    requires Inv(s) && addr !in s.q.heap
    ensures Released(s.producers, addr) && NewTag(s.producers, Ref(addr, tag))
  {
    hide QueueInv, NodesInv, ConsumerInv, OwnersInv, CountInv, StartInv, PipelineInv, PrintsInv, RecordsInv;
    assert forall p :: 0 <= p < |s.producers| ==> TailKnown(s.q, s.producers[p]);
  }

  lemma QueuedAtMost(s: State, a: Action)
    requires Inv(s) && Enabled(s, a) && !IsCall(a) && Outstanding(s) < TWO_POW_32
    ensures Queued(Apply(s, a).q) + 1 < TWO_POW_32
  {
    CountOf(s);
    hide Count;
    if a.Alloc? {
      AllocApart(s, a);
      QueuedAlloc(s.q, Ref(a.addr, s.producers[a.p].tag), s.producers[a.p].buf);
      hide Inv, Queued, AllocNode;
    } else if a.Consume? {
      hide Queued;
      QueuedConsume(s);
    } else if s.producers[a.p].Linking? && NextOf(s.q, s.producers[a.p].tail) == NULL {
      var pc := s.producers[a.p];
      CanLinkOf(s, a.p);
      QueuedLink(s.q, pc.me, pc.tail);
      SumBoundsEachUnlinked(s.producers, a.p);
      hide Inv, Queued, LinkNode;
    } else {
      hide Inv, Queued;
      QueuedQuiet(s, a.p);
    }
  }

  lemma AllocApart(s: State, a: Action)
    requires Inv(s) && Enabled(s, a) && a.Alloc?
    ensures a.addr !in s.q.home && a.addr !in s.q.sides
  {
    hide ListsInv, PoolInv, BirthInv, NodesInv, TailsInv, ConsumerInv, OwnersInv, CountInv, StartInv, PipelineInv,
      PrintsInv, RecordsInv;
    AllocOutside(s.q, a.addr);
  }

  lemma CanLinkOf(s: State, p: nat)
    requires Inv(s) && p < |s.producers| && s.producers[p].Linking? && NextOf(s.q, s.producers[p].tail) == NULL
    ensures CanLink(s.q, s.producers[p].me, s.producers[p].tail)
  {
    hide ListsInv, PoolInv, BirthInv, NodesInv, TailsInv, ConsumerInv, OwnersInv, CountInv, StartInv, PipelineInv,
      PrintsInv, RecordsInv;
    LinkKeepsQueue(s, p);
  }

  lemma QueuedConsume(s: State)
    requires Inv(s) && Enabled(s, Consume)
    ensures Queued(ConsumerStep(s).q) <= Queued(s.q)
  {
    if s.consumer.SwingingHead? {
      hide Inv, Queued, ConsumerStep, QueueInv, NodesInv, TailsInv;
      TakingKeepsQueue(s);
      TakingIsTake(s);
    } else {
      hide Inv;
      QueuedRead(s);
    }
  }

  lemma TakingIsTake(s: State)
    requires s.consumer.SwingingHead? && s.q.head == s.consumer.head
    ensures ConsumerStep(s).q == TakeHead(s.q, s.consumer.next)
  {
    hide TakeHead;
  }

  lemma QueuedRead(s: State)
    requires Enabled(s, Consume) && !s.consumer.SwingingHead?
    ensures Queued(ConsumerStep(s).q) == Queued(s.q)
  {
    assert ConsumerStep(s).q.home == s.q.home && ConsumerStep(s).q.sides == s.q.sides;
    hide ConsumerStep;
  }

  lemma SumBoundsEachUnlinked(producers: seq<Producer>, p: nat)
    requires p < |producers| && producers[p].Linking?
    ensures Count(producers, Unlinked) >= 1
  {
    SumBoundsEach(producers, Unlinked, p);
  }

  lemma QueuedQuiet(s: State, p: nat)
    requires Enabled(s, Produce(p)) && (s.producers[p].Linking? ==> NextOf(s.q, s.producers[p].tail) != NULL)
    ensures Queued(ProducerStep(s, p).q) == Queued(s.q)
  {
    hide Queued, LinkNode, Messages, NewOwner, NextOf;
    var q' := ProducerStep(s, p).q;
    if s.producers[p].Helping? || s.producers[p].SwingingTail? {
      assert q' == s.q || q' == s.q.(tail := q'.tail);
      hide ProducerStep;
      QueuedAnyTail(s.q, q'.tail);
    } else {
      assert q' == s.q;
    }
  }

  lemma QueuedAnyTail(q: Queue, tail: Ref)
    ensures Queued(q.(tail := tail)) == Queued(q)
  {
  }

  // ---- Draining ----

  /** The schedules considered: as long as any thread can move without a new call, one does, and its step
      is tame; after that nothing happens. */
  ghost predicate Scheduled(s: State, s': State) {
    Continues(s, s') || (s' == s && Quiescent(s))
  }

  /** Everything asked for has been written, and nothing is alive. */
  ghost predicate Drained(s: State, calls: seq<seq<string>>) {
    Quiescent(s) && AllWritten(s) && s.h.calls == calls
  }

  /** From any steady state, as tame runs reach, every such schedule comes to rest with all records written
      exactly once; and in the order of each thread's calls, if that order was kept before. */
  lemma {:induction false} EveryScheduleDrains(run: nat -> State, i: nat)
    requires Steady(run(i))
    requires forall k: nat :: Scheduled(run(k), run(k + 1))
    ensures exists k: nat :: k >= i && Drained(run(k), run(i).h.calls) && (CallOrder(run(i)) ==> WrittenInOrder(run(k)))
    decreases Progress(run(i)).unlinked, Progress(run(i)).lag, Progress(run(i)).queued,
              Progress(run(i)).unsignalled, Progress(run(i)).event, Progress(run(i)).work
  {
    hide Steady, CallOrder, Progress, Continues, Quiescent, AllWritten, WrittenInOrder;
    assert Scheduled(run(i), run(i + 1));
    if Continues(run(i), run(i + 1)) {
      ContinuingProgress(run(i), run(i + 1));
      EveryScheduleDrains(run, i + 1);
    } else {
      RestIsDrained(run(i));
    }
  }

  lemma RestIsDrained(s: State)
    requires Steady(s) && Quiescent(s)
    ensures Drained(s, s.h.calls) && (CallOrder(s) ==> WrittenInOrder(s))
  {
    hide Inv, OrderInv, CallOrder, Quiescent, AllWritten, WrittenInOrder;
    QuiescentIsDrained(s);
    if CallOrder(s) {
      QuiescentInOrder(s);
    }
  }
}
