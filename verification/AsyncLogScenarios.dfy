/** Real runs with two threads. In one the pool gives a node to a thread while another is about to CAS its
    Next: the other's later record overtakes its earlier one, and the writer stalls. In another TryDequeue
    answers "empty" wrongly. */
module AsyncLogScenarios {
  import opened AsyncLogModel
  import opened AsyncLogLedger
  import opened AsyncLogSteps
  import opened AsyncLogOrder
  import opened AsyncLogTheorems
  import opened AsyncLogProgress
  import opened AsyncLogReuse
  import opened AsyncLogRuns
  import opened LogText
  import opened Sums

  const D: Ref := Ref(1, 0)
  const M: Ref := Ref(2, 1)
  const N: Ref := Ref(3, 2)

  /** With few nodes and threads, few records are outstanding. */
  lemma FewOutstanding(s: State)
    requires |s.q.home| <= 10 && |s.producers| <= 3
    ensures Outstanding(s) + 1 < TWO_POW_32
  {
    SumUpperBound(s.producers, Unlinked, 1);
  }

  function Ready(n: nat): State { Init(n).(ready := true) }

  lemma ReadyReachable(n: nat)
    requires n <= 3
    ensures Reachable(n, true, Ready(n))
  {
    hide Reachable, Outstanding;
    InitReachable(n);
    FewOutstanding(Init(n));
    var s := Go(n, true, Init(n), StaticInit);
  }

  // ---- Thread 0 about to link behind the dummy node ----

  function Poised(m: string): State {
    Prepared(Ready(2), 0, m, 0, 2).(producers := [Linking(0, M, D), Idle])
  }

  /** The queue then: node 2 is thread 0's own. */
  function PoisedQueue(): Queue {
    Queue(map[1 := Node(NULL, 0), 2 := Node(NULL, 0)], [], D, D, [D], map[2 := [M]], map[1 := 0, 2 := 2],
          map[1 := 0, 2 := 1], 2)
  }

  lemma PoisedIs(m: string)
    ensures var s := Poised(m);
      s.q == PoisedQueue() && s.id == 1 && s.count == 0 && !s.event && s.ready && s.consumer == Waiting
      && s.buffers == map[0 := Buffer(Message(0, 0, MonitorRecord(m)), Hand(0))] && s.monitor == []
      && s.h.calls == [[MonitorRecord(m)], []] && s.h.linked == [] && s.producers == [Linking(0, M, D), Idle]
      && Prepared(Ready(2), 0, m, 0, 2).producers == [LoadingTail(0, M), Idle]
  {
    hide MonitorRecord;
    var r := MonitorRecord(m);
    assert Init(2).producers == [Idle, Idle] && Init(2).h.calls == [[], []];
    var none: seq<string> := [];
    assert none + [r] == [r];
    assert AllocNode(InitQueue(), M, 0) == PoisedQueue();
  }

  lemma PoisedReachable(m: string)
    ensures Reachable(2, true, Poised(m))
  {
    hide Reachable, Outstanding, MonitorRecord;
    ReadyReachable(2);
    FewOutstanding(Ready(2));
    Prepares(2, true, Ready(2), 0, m, 0, 2);
    PoisedIs(m);
    var s := Prepared(Ready(2), 0, m, 0, 2);
    var s' := Go(2, true, s, Produce(0));
    assert s' == Poised(m);
  }

  // ---- The writer takes a record and waits again ----

  function Woken(s: State): State { s.(event := false, consumer := Checking, h := s.h.(wakes := s.h.wakes + 1)) }

  function Asleep(s: State): State { s.(consumer := Waiting, h := s.h.(dequeues := s.h.dequeues + 1)) }

  function Written(s: State): State { Taken(Woken(s)) }

  lemma WrittenReachable(n: nat, tame: bool, s: State)
    requires Reachable(n, tame, s) && s.consumer.Waiting? && s.event && CanTake(Woken(s)) && Outstanding(s) < TWO_POW_32
    ensures Reachable(n, tame, Written(s))
  {
    hide Reachable, Outstanding;
    var s1 := Go(n, tame, s, Consume);
    Unmoved(s, s1);
    TakeReaches(n, tame, s1);
  }

  lemma AsleepReachable(n: nat, tame: bool, s: State)
    requires Reachable(n, tame, s) && s.consumer.Checking? && s.count == 0 && Outstanding(s) < TWO_POW_32
    ensures Reachable(n, tame, Asleep(s))
  {
    hide Reachable, Outstanding;
    var s1 := Go(n, tame, s, Consume);
  }

  // ---- A node given out too early ----

  /** Thread 1 has logged m1 and the writer has written it. */
  function Freed(m: string, m1: string): State { Asleep(Written(Called(Poised(m), 1, m1, 1, 3))) }

  function FreedQueue(): Queue {
    Queue(map[1 := Node(N, 0), 2 := Node(NULL, 0), 3 := Node(NULL, 1)], [1], N, N, [N], map[2 := [M]],
          map[2 := 2, 3 := 0], map[1 := 0, 2 := 1, 3 := 2], 3)
  }

  function LinkedQueue(): Queue {
    Queue(map[1 := Node(N, 0), 2 := Node(NULL, 0), 3 := Node(NULL, 1)], [], D, N, [D, N], map[2 := [M]],
          map[1 := 0, 2 := 2, 3 := 0], map[1 := 0, 2 := 1, 3 := 2], 3)
  }

  lemma LinkedQueueIs()
    ensures LinkNode(AllocNode(PoisedQueue(), N, 1), N, D).(tail := N) == LinkedQueue()
  {
    var q := AllocNode(PoisedQueue(), N, 1);
    var q' := LinkNode(q, N, D);
    assert q'.home == map[1 := 0, 2 := 2, 3 := 0];
    assert q'.sides == map[2 := [M]];
    assert q'.heap == map[1 := Node(N, 0), 2 := Node(NULL, 0), 3 := Node(NULL, 1)];
  }

  lemma FreedQueueIs()
    ensures FreeNode(TakeHead(LinkedQueue(), N), 1) == FreedQueue()
  {
    assert TakeHead(LinkedQueue(), N).home == map[2 := 2, 3 := 0];
    assert TakeHead(LinkedQueue(), N).chain == [N];
  }

  /** What is common to the next few states: thread 0 poised, thread 1 idle after its call. */
  predicate Stage(s: State, m: string, m1: string) {
    && s.producers == [Linking(0, M, D), Idle] && s.id == 2 && s.ready
    && s.h.linked == [Message(1, 0, MonitorRecord(m1))] && s.h.calls == [[MonitorRecord(m)], [MonitorRecord(m1)]]
    && 0 in s.buffers && s.buffers[0] == Buffer(Message(0, 0, MonitorRecord(m)), Hand(0))
  }

  lemma CalledStage(m: string, m1: string)
    ensures var s := Called(Poised(m), 1, m1, 1, 3);
      && Reachable(2, true, s) && Stage(s, m, m1) && s.q == LinkedQueue() && s.count == 1 && s.event
          && s.consumer.Waiting?
      && s.buffers.Keys == {0, 1}
  {
    hide Reachable, Outstanding, MonitorRecord, LinkNode, AllocNode;
    var s0 := Poised(m);
    PoisedReachable(m);
    PoisedIs(m);
    FewOutstanding(s0);
    CallReaches(2, true, s0, 1, m1, 1, 3);
    hide Poised;
    CalledIs(s0, m, m1);
  }

  /** What the call leaves. */
  lemma CalledIs(s: State, m: string, m1: string)
    requires s.q == PoisedQueue() && s.producers == [Linking(0, M, D), Idle] && s.id == 1 && s.ready && s.count == 0
    requires s.h.linked == [] && s.h.calls == [[MonitorRecord(m)], []] && s.consumer.Waiting?
    requires s.buffers == map[0 := Buffer(Message(0, 0, MonitorRecord(m)), Hand(0))]
    ensures var s' := Called(s, 1, m1, 1, 3);
      && Stage(s', m, m1) && s'.q == LinkedQueue() && s'.count == 1 && s'.event && s'.consumer.Waiting?
      && s'.buffers.Keys == {0, 1}
  {
    hide MonitorRecord, LinkNode, AllocNode;
    LinkedQueueIs();
    var none: seq<string> := [];
    assert none + [MonitorRecord(m1)] == [MonitorRecord(m1)];
  }

  lemma WrittenStage(s: State, m: string, m1: string)
    requires Reachable(2, true, s) && Stage(s, m, m1) && s.q == LinkedQueue() && s.count == 1 && s.event
      && s.consumer.Waiting?
    requires s.buffers.Keys == {0, 1}
    ensures var s' := Asleep(Written(s));
      && Reachable(2, true, s') && Stage(s', m, m1) && s'.q == FreedQueue() && s'.count == 0 && s'.consumer.Waiting?
      && s'.buffers.Keys == {0}
  {
    hide Reachable, Outstanding, MonitorRecord, TakeHead, FreeNode, Asleep;
    FewOutstanding(s);
    WrittenReachable(2, true, s);
    FreedQueueIs();
    var s' := Written(s);
    assert s'.q == FreedQueue();
    FewOutstanding(s');
    AsleepReachable(2, true, s');
    AsleepIs(s');
  }

  lemma AsleepIs(s: State)
    ensures Asleep(s) == s.(consumer := Waiting, h := Asleep(s).h)
    ensures Asleep(s).h == s.h.(dequeues := Asleep(s).h.dequeues)
  {
  }

  lemma FreedReachable(m: string, m1: string)
    ensures var s := Freed(m, m1);
      && Reachable(2, true, s) && Stage(s, m, m1) && s.q == FreedQueue() && s.count == 0 && s.consumer.Waiting?
      && s.buffers.Keys == {0}
  {
    hide Reachable, Called, Written, Asleep, Poised, Stage;
    PoisedIs(m);
    CalledStage(m, m1);
    WrittenStage(Called(Poised(m), 1, m1, 1, 3), m, m1);
  }

  /** Thread 1 then calls again: the pool has only node 1 to give it, and thread 0 is about to CAS its Next. */
  function Endangered(m: string, m1: string, m2: string): State {
    var s := Freed(m, m1);
    s.(id := 3, producers := [Linking(0, M, D), HavingId(1, 3)],
       buffers := s.buffers[1 := Buffer(Message(1, 1, MonitorRecord(m2)), Hand(1))],
       h := s.h.(calls := [[MonitorRecord(m)], [MonitorRecord(m1), MonitorRecord(m2)]]))
  }

  lemma EndangeredIs(m: string, m1: string, m2: string)
    ensures var s := Endangered(m, m1, m2);
      && s.producers == [Linking(0, M, D), HavingId(1, 3)] && s.q == FreedQueue() && s.buffers.Keys == {0, 1}
      && s.h.linked == [Message(1, 0, MonitorRecord(m1))]
      && s.h.calls == [[MonitorRecord(m)], [MonitorRecord(m1), MonitorRecord(m2)]]
      && s.ready && s.count == 0 && s.consumer.Waiting? && s.id == 3
  {
    hide Reachable, Freed, MonitorRecord;
    FreedReachable(m, m1);
  }

  lemma EndangeredReachable(m: string, m1: string, m2: string)
    ensures Reachable(2, true, Endangered(m, m1, m2))
  {
    hide Reachable, Outstanding, MonitorRecord, Freed, Apply;
    FreedReachable(m, m1);
    var s := Freed(m, m1);
    FewOutstanding(s);
    CallBegins(s, m, m1, m2);
    var s1 := Go(2, true, s, Call(1, m2, 1));
    FewOutstanding(s1);
    var s2 := Go(2, true, s1, Produce(1));
  }

  lemma CallBegins(s: State, m: string, m1: string, m2: string)
    requires s == Freed(m, m1) && Stage(s, m, m1) && s.q == FreedQueue() && s.buffers.Keys == {0}
    ensures Enabled(s, Call(1, m2, 1)) && |Apply(s, Call(1, m2, 1)).q.home| <= 10
      && |Apply(s, Call(1, m2, 1)).producers| == 2
    ensures Enabled(Apply(s, Call(1, m2, 1)), Produce(1))
    ensures Apply(Apply(s, Call(1, m2, 1)), Produce(1)) == Endangered(m, m1, m2)
  {
    hide Freed, MonitorRecord;
    var s1 := Apply(s, Call(1, m2, 1));
    assert [MonitorRecord(m1)] + [MonitorRecord(m2)] == [MonitorRecord(m1), MonitorRecord(m2)];
    assert s1.h.calls == [[MonitorRecord(m)], [MonitorRecord(m1), MonitorRecord(m2)]];
    assert s1.producers == [Linking(0, M, D), Entering(1)];
    assert ProducerStep(s1, 1).producers == [Linking(0, M, D), HavingId(1, 3)];
  }

  lemma EndangeredEnabled(m: string, m1: string, m2: string)
    ensures var s := Endangered(m, m1, m2);
      && Enabled(s, Alloc(1, 1)) && AboutToLink(s.producers[0], 1) && AtEnd(s.q) && s.q.pool == [1]
      && NewTag(s.producers, Ref(1, 3)) && Outstanding(s) < TWO_POW_32 && |s.producers| == 2
          && s.producers[1] == HavingId(1, 3)
  {
    hide Endangered, Outstanding, MonitorRecord;
    EndangeredIs(m, m1, m2);
    FewOutstanding(Endangered(m, m1, m2));
  }

  /** So the pool really gives out such a node, and the call of the thread about to link returns before its
      record can be reached, its order is broken, and mTail stays behind. */
  lemma EarlyReturnHappens(m: string, m1: string, m2: string)
    ensures var s := Endangered(m, m1, m2);
      && Reachable(2, true, s) && s.q.pool == [1]
      && ReturnsEarly(s, 1, 0, 1) && BreaksCallOrder(s, 1, 0, 1) && LeavesTailBehind(s, 1, 0, 1)
  {
    hide Reachable, Inv, Steady, CallOrder, ReturnsEarly, BreaksCallOrder, LeavesTailBehind, Endangered, Outstanding,
      AtEnd, NewTag;
    var s := Endangered(m, m1, m2);
    EndangeredReachable(m, m1, m2);
    EndangeredEnabled(m, m1, m2);
    ReachableInv(2, true, s);
    EarlyReturnExactly(s, 1, 0, 1);
    OrderBreaksExactly(s, 1, 0, 1);
    TailStaysBehindExactly(s, 1, 0, 1);
  }

  /** The state after the early return of thread 0's call. */
  lemma HungReachable(m: string, m1: string, m2: string)
    ensures var s := Endangered(m, m1, m2);
      && LinksAtOnce(s, 1, 0, 1) && Reachable(2, false, AfterBoth(s, 1, 0, 1))
          && Outstanding(AfterBoth(s, 1, 0, 1)) < TWO_POW_32
  {
    hide Reachable, Outstanding, Inv, Steady, CallOrder, Endangered, NewTag, AtEnd, Apply, Finish;
    var s := Endangered(m, m1, m2);
    EndangeredReachable(m, m1, m2);
    EndangeredEnabled(m, m1, m2);
    ReachableInv(2, true, s);
    SteadyIsInv(s);
    HangsOn(s, 1, 0, 1);
    TameIsReachable(2, s);
    AllocReaches(2, false, s, 1, 1);
    FinishesLink(2, false, Apply(s, Alloc(1, 1)), 0);
  }

  /** The writer really can stall: no thread is in a call, a record is queued, and without a new call it is
      never written. */
  lemma StallHappens() returns (s: State)
    ensures Reachable(2, false, s) && Stalled(s)
  {
    var e := Endangered("", "", "");
    HungReachable("", "", "");
    EarlyReturnHappens("", "", "");
    var s2 := AfterBoth(e, 1, 0, 1);
    hide Reachable, Outstanding, Inv, Endangered, AtEnd, Finish, FinishCall, Mover, ReturnsEarly, BreaksCallOrder;
    FinishesCall(2, false, s2, 1);
    s := FinishCall(s2, 1);
    ReachableInv(2, false, s);
    IdleAfter(e, s2);
  }

  lemma IdleAfter(e: State, s2: State)
    requires e == Endangered("", "", "") && LinksAtOnce(e, 1, 0, 1) && s2 == AfterBoth(e, 1, 0, 1)
    requires 1 < |s2.producers| && s2.producers[1].LoadingTail? && NextOf(s2.q, s2.q.tail) == NULL
    ensures AllIdle(FinishCall(s2, 1).producers)
  {
    hide Finish, FinishCall, Endangered;
    EndangeredEnabled("", "", "");
    FinishOutcome(Apply(e, Alloc(1, 1)), 0);
    FinishCallOutcome(s2, 1);
  }

  // ---- Overtaking ----

  const P: Ref := Ref(1, 3)
  const R: Ref := Ref(4, 4)

  /** The queue after the early return: thread 0's node hangs on thread 1's. */
  function HungQueue(): Queue {
    Queue(map[1 := Node(M, 1), 2 := Node(NULL, 0), 3 := Node(NULL, 1)], [], N, N, [N], map[1 := [P, M]],
          map[1 := 1, 2 := 1, 3 := 0], map[1 := 3, 2 := 1, 3 := 2], 4)
  }

  lemma HungQueueIs()
    ensures CasTail(LinkNode(AllocNode(FreedQueue(), P, 1), M, D), D, M) == HungQueue()
    ensures HomeOf(AllocNode(FreedQueue(), P, 1), 1) == 1
  {
    GivenAgain();
    HungLinks();
  }

  /** The queue after the allocation: node 1 is on a list of its own. */
  function GivenQueue(): Queue {
    Queue(map[1 := Node(NULL, 1), 2 := Node(NULL, 0), 3 := Node(NULL, 1)], [], N, N, [N], map[1 := [P], 2 := [M]],
          map[1 := 1, 2 := 2, 3 := 0], map[1 := 3, 2 := 1, 3 := 2], 4)
  }

  lemma GivenAgain()
    ensures AllocNode(FreedQueue(), P, 1) == GivenQueue()
  {
    GivenHeap();
    GivenLists();
    GivenBorn();
    hide AllocNode;
    AllocRest(FreedQueue(), P, 1);
  }

  lemma AllocRest(q: Queue, me: Ref, buf: nat)
    ensures
      var q' := AllocNode(q, me, buf);
      && q'.pool == (if q.pool == [] then [] else q.pool[..|q.pool| - 1]) && q'.head == q.head && q'.tail == q.tail
      && q'.chain == q.chain && q'.allocs == q.allocs + 1
  {
  }

  lemma GivenHeap()
    ensures AllocNode(FreedQueue(), P, 1).heap == GivenQueue().heap
  {
  }

  lemma GivenLists()
    ensures AllocNode(FreedQueue(), P, 1).home == GivenQueue().home
      && AllocNode(FreedQueue(), P, 1).sides == GivenQueue().sides
  {
  }

  lemma GivenBorn()
    ensures AllocNode(FreedQueue(), P, 1).born == GivenQueue().born
  {
  }

  lemma HungLinks()
    ensures CasTail(LinkNode(GivenQueue(), M, D), D, M) == HungQueue()
  {
    HungHeap();
    HungHomes();
    HungSides();
    hide LinkNode;
    LinkRest(GivenQueue(), M, D);
  }

  lemma LinkRest(q: Queue, me: Ref, tail: Ref)
    ensures
      var q' := LinkNode(q, me, tail);
      && q'.pool == q.pool && q'.head == q.head && q'.tail == q.tail && q'.born == q.born && q'.allocs == q.allocs
      && (HomeOf(q, tail.addr) != 0 ==> q'.chain == q.chain)
  {
  }

  lemma HungHeap()
    ensures LinkNode(GivenQueue(), M, D).heap == HungQueue().heap
  {
  }

  lemma HungHomes()
    ensures LinkNode(GivenQueue(), M, D).home == HungQueue().home
  {
  }

  lemma HungSides()
    ensures LinkNode(GivenQueue(), M, D).sides == HungQueue().sides
  {
    assert [P] + [M] == [P, M];
  }

  /** The queue after another call of thread 0. */
  function RaceQueue(): Queue {
    Queue(map[1 := Node(M, 1), 2 := Node(NULL, 0), 3 := Node(R, 1), 4 := Node(NULL, 2)], [], N, R, [N, R],
      map[1 := [P, M]],
          map[1 := 1, 2 := 1, 3 := 0, 4 := 0], map[1 := 3, 2 := 1, 3 := 2, 4 := 4], 5)
  }

  lemma RaceQueueIs()
    ensures LinkNode(AllocNode(HungQueue(), R, 2), R, N).(tail := R) == RaceQueue()
  {
    var q := AllocNode(HungQueue(), R, 2);
    var q' := LinkNode(q, R, N);
    assert q'.home == map[1 := 1, 2 := 1, 3 := 0, 4 := 0];
    assert q'.sides == map[1 := [P, M]];
    assert q'.heap == map[1 := Node(M, 1), 2 := Node(NULL, 0), 3 := Node(R, 1), 4 := Node(NULL, 2)];
  }

  /** Thread 0 idle after its early return, thread 1 about to read mTail; the messages both hold. */
  predicate Racing(s: State, m: string, m1: string, m2: string) {
    && s.producers == [Idle, LoadingTail(1, P)] && s.ready
    && s.buffers.Keys == {0, 1} && s.buffers[0].message == Message(0, 0, MonitorRecord(m))
    && s.buffers[1].message == Message(1, 1, MonitorRecord(m2))
  }

  lemma HungIs(m: string, m1: string, m2: string)
    ensures var e := Endangered(m, m1, m2);
      LinksAtOnce(e, 1, 0, 1) && Reachable(2, false, AfterBoth(e, 1, 0, 1))
    ensures var s := AfterBoth(Endangered(m, m1, m2), 1, 0, 1);
      && Racing(s, m, m1, m2) && s.q == HungQueue() && s.id == 3
      && s.h.linked == [Message(1, 0, MonitorRecord(m1))]
      && s.h.calls == [[MonitorRecord(m)], [MonitorRecord(m1), MonitorRecord(m2)]]
  {
    hide Reachable, Outstanding, Finish, MonitorRecord, LinkNode, AllocNode;
    HungReachable(m, m1, m2);
    EndangeredBuffers(m, m1, m2);
    hide Endangered;
    EndangeredIs(m, m1, m2);
    var e := Endangered(m, m1, m2);
    FinishOutcome(Apply(e, Alloc(1, 1)), 0);
    HungQueueIs();
  }

  lemma EndangeredBuffers(m: string, m1: string, m2: string)
    ensures var s := Endangered(m, m1, m2);
      && s.buffers.Keys == {0, 1} && s.buffers[0].message == Message(0, 0, MonitorRecord(m))
      && s.buffers[1].message == Message(1, 1, MonitorRecord(m2))
  {
    hide Freed, MonitorRecord, Reachable;
    FreedReachable(m, m1);
  }

  /** Order really is lost: thread 0 has logged m and then m3, both calls have returned, and m3 is linked,
      and so will be written, before m. */
  lemma OvertakingHappens(m: string, m1: string, m2: string, m3: string) returns (s: State)
    ensures Reachable(2, false, s) && AllIdle(s.producers) && |s.h.calls| == 2
    ensures s.h.calls[0] == [MonitorRecord(m), MonitorRecord(m3)]
    ensures By(s.h.linked, 0) == [MonitorRecord(m3), MonitorRecord(m)]
  {
    hide Reachable, MonitorRecord, Finish, FinishCall, By, Racing, LinksAtOnce;
    var s3 := Overtakes(m, m1, m2, m3);
    s := FinishesRace(s3, m, m1, m2, m3);
    LinkedByThread0(MonitorRecord(m1), MonitorRecord(m3), MonitorRecord(m2), MonitorRecord(m));
  }

  /** Thread 0 logs m3 while its record m still hangs on thread 1's node. */
  lemma Overtakes(m: string, m1: string, m2: string, m3: string) returns (s: State)
    ensures Reachable(2, false, s) && Racing(s.(buffers := s.buffers - {2}), m, m1, m2) && s.q == RaceQueue()
    ensures s.h.linked == [Message(1, 0, MonitorRecord(m1)), Message(0, 1, MonitorRecord(m3))]
    ensures |s.h.calls| == 2 && s.h.calls[0] == [MonitorRecord(m), MonitorRecord(m3)]
  {
    hide Reachable, MonitorRecord, Endangered, Finish, LinksAtOnce, Racing, Called, HungQueue, RaceQueue;
    HungIs(m, m1, m2);
    s := OvertakesFrom(AfterBoth(Endangered(m, m1, m2), 1, 0, 1), m, m1, m2, m3);
  }

  lemma OvertakesFrom(s2: State, m: string, m1: string, m2: string, m3: string) returns (s: State)
    requires Reachable(2, false, s2) && Racing(s2, m, m1, m2) && s2.q == HungQueue() && s2.id == 3
    requires s2.h.linked == [Message(1, 0, MonitorRecord(m1))]
    requires s2.h.calls == [[MonitorRecord(m)], [MonitorRecord(m1), MonitorRecord(m2)]]
    ensures Reachable(2, false, s) && Racing(s.(buffers := s.buffers - {2}), m, m1, m2) && s.q == RaceQueue()
    ensures s.h.linked == [Message(1, 0, MonitorRecord(m1)), Message(0, 1, MonitorRecord(m3))]
    ensures |s.h.calls| == 2 && s.h.calls[0] == [MonitorRecord(m), MonitorRecord(m3)]
  {
    hide Reachable, MonitorRecord, LinkNode, AllocNode, CanCall, AtEnd, HungQueue, RaceQueue;
    Thread0CanCall(s2, m, m1, m2);
    RaceQueueIs();
    CallReaches(2, false, s2, 0, m3, 2, 4);
    s := Called(s2, 0, m3, 2, 4);
    assert [MonitorRecord(m)] + [MonitorRecord(m3)] == [MonitorRecord(m), MonitorRecord(m3)];
  }

  lemma Thread0CanCall(s: State, m: string, m1: string, m2: string)
    requires Racing(s, m, m1, m2) && s.q == HungQueue() && |s.h.calls| == 2 && s.id == 3
    ensures CanCall(s, 0, 2, 4, false) && AtEnd(s.q) && s.q.tail == N && NextRef(s, 4) == R
  {
    hide Outstanding, MonitorRecord;
    FewOutstanding(s);
  }

  lemma FinishesRace(s3: State, m: string, m1: string, m2: string, m3: string) returns (s: State)
    requires Reachable(2, false, s3) && Racing(s3.(buffers := s3.buffers - {2}), m, m1, m2) && s3.q == RaceQueue()
    requires s3.h.linked == [Message(1, 0, MonitorRecord(m1)), Message(0, 1, MonitorRecord(m3))]
    ensures Reachable(2, false, s) && AllIdle(s.producers) && s.h.calls == s3.h.calls
    ensures s.h.linked == [Message(1, 0, MonitorRecord(m1)), Message(0, 1, MonitorRecord(m3)),
                           Message(1, 1, MonitorRecord(m2)), Message(0, 0, MonitorRecord(m))]
  {
    hide Reachable, Outstanding, MonitorRecord, LinkNode, Messages, SideOf, FinishCall;
    FewOutstanding(s3);
    FinishesCall(2, false, s3, 1);
    FinishSteps(s3, 1);
    s := FinishCall(s3, 1);
    OvertakenMessages(s3, m, m2);
  }

  lemma OvertakenMessages(s: State, m: string, m2: string)
    requires s.q == RaceQueue() && 0 in s.buffers && s.buffers[0].message == Message(0, 0, MonitorRecord(m))
    requires 1 in s.buffers && s.buffers[1].message == Message(1, 1, MonitorRecord(m2))
    ensures Messages(s.q, s.buffers, SideOf(s.q, P)) == [Message(1, 1, MonitorRecord(m2)),
      Message(0, 0, MonitorRecord(m))]
  {
    hide MonitorRecord;
    assert SideOf(s.q, P) == [P, M];
  }

  lemma LinkedByThread0(a: string, b: string, c: string, d: string)
    ensures By([Message(1, 0, a), Message(0, 1, b), Message(1, 1, c), Message(0, 0, d)], 0) == [b, d]
  {
    var one, two, three, four := Message(1, 0, a), Message(0, 1, b), Message(1, 1, c), Message(0, 0, d);
    var none: seq<Message> := [];
    assert none + [one] == [one];
    ByAppend([], one);
    assert [one] + [two] == [one, two];
    ByAppend([one], two);
    assert [one, two] + [three] == [one, two, three];
    ByAppend([one, two], three);
    assert [one, two, three] + [four] == [one, two, three, four];
    ByAppend([one, two, three], four);
    hide By;
    assert By([], 0) == [] by { ByNothing(); }
  }

  lemma ByNothing()
    ensures By([], 0) == []
  {
  }

  // ---- A false "empty" ----

  function CountingQueue(): Queue {
    Queue(map[1 := Node(M, 0), 2 := Node(NULL, 0)], [], D, M, [D, M], map[], map[1 := 0, 2 := 0], map[1 := 0, 2 := 1],
      2)
  }

  /** Thread 0 has linked its node and moved mTail, but not yet counted. */
  lemma CountingReachable(m: string) returns (s: State)
    ensures Reachable(2, true, s) && s.q == CountingQueue() && s.producers == [CountingUp, Idle] && s.ready
    ensures s.count == 0 && s.id == 1 && s.consumer.Waiting? && s.buffers.Keys == {0} && |s.h.calls| == 2
      && s.h.calls[1] == []
  {
    PoisedReachable(m);
    PoisedIs(m);
    hide Reachable, Outstanding, MonitorRecord, Poised;
    s := Counting(Poised(m));
  }

  lemma Counting(s: State) returns (s': State)
    requires Reachable(2, true, s) && s.q == PoisedQueue() && s.producers == [Linking(0, M, D), Idle] && s.ready
    requires s.count == 0 && s.id == 1 && s.consumer.Waiting? && s.buffers.Keys == {0} && |s.h.calls| == 2
      && s.h.calls[1] == []
    ensures Reachable(2, true, s') && s'.q == CountingQueue() && s'.producers == [CountingUp, Idle] && s'.ready
    ensures s'.count == 0 && s'.id == 1 && s'.consumer.Waiting? && s'.buffers.Keys == {0} && |s'.h.calls| == 2
    ensures s'.h.calls[1] == []
  {
    hide Reachable, Outstanding, LinkNode, Messages;
    FewOutstanding(s);
    CountingQueueIs();
    var s1 := Go(2, true, s, Produce(0));
    assert s1.producers == [SwingingTail(M, D), Idle];
    FewOutstanding(s1);
    s' := Go(2, true, s1, Produce(0));
  }

  lemma CountingQueueIs()
    ensures
      var q := LinkNode(PoisedQueue(), M, D);
      q.tail == D && q.(tail := M) == CountingQueue() && |q.home| <= 10 && HomeOf(PoisedQueue(), 1) == 0
  {
    var q := LinkNode(PoisedQueue(), M, D);
    assert q.home == map[1 := 0, 2 := 0];
    assert q.sides == map[];
    assert q.heap == map[1 := Node(M, 0), 2 := Node(NULL, 0)];
    assert q.chain == [D, M];
  }

  function BothQueue(): Queue {
    Queue(map[1 := Node(M, 0), 2 := Node(N, 0), 3 := Node(NULL, 1)], [], D, N, [D, M, N], map[],
          map[1 := 0, 2 := 0, 3 := 0], map[1 := 0, 2 := 1, 3 := 2], 3)
  }

  lemma BothQueueIs()
    ensures LinkNode(AllocNode(CountingQueue(), N, 1), N, M).(tail := N) == BothQueue()
  {
    var q := AllocNode(CountingQueue(), N, 1);
    var q' := LinkNode(q, N, M);
    assert q'.home == map[1 := 0, 2 := 0, 3 := 0];
    assert q'.sides == map[];
    assert q'.heap == map[1 := Node(M, 0), 2 := Node(N, 0), 3 := Node(NULL, 1)];
  }

  /** In a real run TryDequeue answers "empty" although thread 1's call has returned, its record is
      in the queue, and nothing else is: thread 0's record was taken before it was counted, which
      used up the count of thread 1's. */
  lemma FalseEmptyAnswer(m: string, m1: string) returns (s: State)
    ensures Reachable(2, true, s) && AnswersEmpty(s) && s.producers == [CountingUp, Idle]
    ensures QueueMessages(s.q, s.buffers) == [Message(1, 0, MonitorRecord(m1))]
  {
    hide Reachable, Outstanding, MonitorRecord, QueueMessages, Written, CanTake, AnswersEmpty;
    var s1 := BothLinked(m, m1);
    FewOutstanding(s1);
    TakesFirst(s1);
    WrittenReachable(2, true, s1);
    s := Written(s1);
    RestQueue(s1);
  }

  /** Both records are in the queue, only thread 1's is counted. */
  lemma BothLinked(m: string, m1: string) returns (s: State)
    ensures Reachable(2, true, s) && s.producers == [CountingUp, Idle] && s.q == BothQueue() && s.count == 1 && s.event
    ensures s.consumer.Waiting? && 1 in s.buffers && s.buffers[1].message == Message(1, 0, MonitorRecord(m1))
  {
    var s0 := CountingReachable(m);
    hide Reachable, Outstanding, MonitorRecord, LinkNode, AllocNode;
    Thread1CanCall(s0);
    BothQueueIs();
    hide CanCall, AtEnd, CountingQueue, BothQueue;
    CallReaches(2, true, s0, 1, m1, 1, 3);
    s := Called(s0, 1, m1, 1, 3);
  }

  lemma Thread1CanCall(s: State)
    requires s.q == CountingQueue() && s.producers == [CountingUp, Idle] && s.ready && |s.h.calls| == 2
      && s.buffers.Keys == {0}
    requires s.id == 1
    ensures CanCall(s, 1, 1, 3, true) && AtEnd(s.q) && s.q.tail == M && NextRef(s, 3) == N
  {
    hide Outstanding;
    FewOutstanding(s);
  }

  lemma TakesFirst(s: State)
    requires s.producers == [CountingUp, Idle] && s.q == BothQueue() && s.count == 1 && s.event && s.consumer.Waiting?
    ensures CanTake(Woken(s)) && AnswersEmpty(Written(s)) && Written(s).producers == s.producers
  {
    hide TakeHead, FreeNode, TextOf;
  }

  lemma RestQueue(s: State)
    requires s.q == BothQueue() && 1 in s.buffers
    ensures QueueMessages(Written(s).q, Written(s).buffers) == [s.buffers[1].message]
  {
    assert TakeHead(BothQueue(), M).chain == [M, N];
    assert [M, N][1..] == [N];
  }
}
