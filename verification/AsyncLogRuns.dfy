/** Runs built from whole calls and whole dequeues with nothing in between. A call that finds mTail at the
    end adds its record to the end of the queue and sets the event, whatever the other threads are doing:
    LoggerProgram uses the queue in this form. */
module AsyncLogRuns {
  import opened AsyncLogModel
  import opened AsyncLogInvariant
  import opened AsyncLogLedger
  import opened AsyncLogSteps
  import opened AsyncLogOrder
  import opened AsyncLogTheorems
  import opened AsyncLogProgress
  import opened AsyncLogReuse
  import opened LogText

  /** The states that safe runs, or tame runs, with n threads lead to. */
  ghost predicate Reachable(n: nat, tame: bool, s: State) {
    exists states :: RunTo(n, tame, states, s)
  }

  ghost predicate RunTo(n: nat, tame: bool, states: seq<State>, s: State) {
    (if tame then TameRun(n, states) else SafeRun(n, states)) && states[|states| - 1] == s
  }

  ghost predicate Allowed(tame: bool, s: State, a: Action) { if tame then Tame(s, a) else Safe(s, a) }

  lemma InitReachable(n: nat)
    ensures Reachable(n, true, Init(n))
  {
    assert RunTo(n, true, [Init(n)], Init(n));
  }

  lemma TameIsReachable(n: nat, s: State)
    requires Reachable(n, true, s)
    ensures Reachable(n, false, s)
  {
    hide TameRun, SafeRun;
    var states :| RunTo(n, true, states, s);
    TameNonEmpty(n, states);
    TameRunIsSafe(n, states);
    assert RunTo(n, false, states, s);
  }

  lemma TameNonEmpty(n: nat, states: seq<State>)
    requires TameRun(n, states)
    ensures states != []
  {
  }

  lemma StepReachable(n: nat, tame: bool, s: State, a: Action)
    requires Reachable(n, tame, s) && Allowed(tame, s, a)
    ensures Reachable(n, tame, Apply(s, a))
  {
    hide Apply, Queued, NewTag, Released;
    var states :| RunTo(n, tame, states, s);
    var longer := states + [Apply(s, a)];
    if tame {
      assert TameStep(s, Apply(s, a));
      TameLonger(n, states, Apply(s, a));
    } else {
      assert SafeStep(s, Apply(s, a));
      SafeLonger(n, states, Apply(s, a));
    }
    assert RunTo(n, tame, longer, Apply(s, a));
  }

  lemma TameLonger(n: nat, states: seq<State>, s': State)
    requires TameRun(n, states) && TameStep(states[|states| - 1], s')
    ensures TameRun(n, states + [s'])
  {
    hide TameStep;
    var longer := states + [s'];
    forall i | 0 < i < |longer|
      ensures TameStep(longer[i - 1], longer[i])
    {
      assert i < |states| ==> TameStep(states[i - 1], states[i]);
    }
  }

  lemma SafeLonger(n: nat, states: seq<State>, s': State)
    requires SafeRun(n, states) && SafeStep(states[|states| - 1], s')
    ensures SafeRun(n, states + [s'])
  {
    hide SafeStep;
    var longer := states + [s'];
    forall i | 0 < i < |longer|
      ensures SafeStep(longer[i - 1], longer[i])
    {
      assert i < |states| ==> SafeStep(states[i - 1], states[i]);
    }
  }

  lemma ReachableInv(n: nat, tame: bool, s: State)
    requires Reachable(n, tame, s)
    ensures Inv(s) && |s.producers| == n && (tame ==> Orderly(s))
  {
    hide Inv, Steady, CallOrder, TameRun, SafeRun;
    var states :| RunTo(n, tame, states, s);
    if tame {
      RunKeepsOrder(n, states);
      SteadyIsInv(s);
    } else {
      RunKeepsInv(n, states);
    }
  }

  lemma SteadyIsInv(s: State)
    requires Steady(s)
    ensures Inv(s)
  {
    hide Inv;
  }

  /** A step other than an allocation, with fewer than 2^32 records outstanding. */
  lemma Go(n: nat, tame: bool, s: State, a: Action) returns (s': State)
    requires Reachable(n, tame, s) && Enabled(s, a) && !a.Alloc? && Outstanding(s) < TWO_POW_32
    ensures Reachable(n, tame, s') && s' == Apply(s, a)
  {
    hide Reachable, Inv, Orderly, Outstanding;
    ReachableInv(n, tame, s);
    RoomFor(s, a);
    StepReachable(n, tame, s, a);
    s' := Apply(s, a);
  }

  lemma RoomFor(s: State, a: Action)
    requires Inv(s) && Enabled(s, a) && Outstanding(s) < TWO_POW_32
    ensures Queued(Apply(s, a).q) + 1 < TWO_POW_32
  {
    if IsCall(a) {
      CountOf(s);
      hide Inv;
    } else {
      hide Inv, Queued;
      QueuedAtMost(s, a);
    }
  }

  lemma GoAlloc(n: nat, tame: bool, s: State, p: nat, addr: nat) returns (s': State)
    requires Reachable(n, tame, s) && Enabled(s, Alloc(p, addr)) && Outstanding(s) < TWO_POW_32
    requires NewTag(s.producers, Ref(addr, s.producers[p].tag)) && (tame ==> Released(s.producers, addr))
    ensures Reachable(n, tame, s') && s' == Apply(s, Alloc(p, addr))
  {
    hide Reachable, Inv, Orderly, Outstanding;
    ReachableInv(n, tame, s);
    RoomFor(s, Alloc(p, addr));
    StepReachable(n, tame, s, Alloc(p, addr));
    s' := Apply(s, Alloc(p, addr));
  }

  // ---- A whole call ----

  function NextId(s: State): nat { (s.id + 1) % TWO_POW_32 }

  /** The tagged pointer the next Enqueue makes of a node. */
  function NextRef(s: State, addr: nat): Ref { Ref(addr, NextId(s) % TWO_POW_16) }

  /** The state in which thread p's record is built and its node set up. */
  function Prepared(s: State, p: nat, message: string, buf: nat, addr: nat): State
    requires p < |s.producers| && p < |s.h.calls|
  {
    var record, me := MonitorRecord(message), NextRef(s, addr);
    s.(id := NextId(s), q := AllocNode(s.q, me, buf), producers := s.producers[p := LoadingTail(buf, me)],
       buffers := s.buffers[buf := Buffer(Message(p, |s.h.calls[p]|, record), Hand(p))],
       h := s.h.(calls := s.h.calls[p := s.h.calls[p] + [record]]))
  }

  /** The state after the whole call, its record linked behind mTail. */
  function Called(s: State, p: nat, message: string, buf: nat, addr: nat): State
    requires p < |s.producers| && p < |s.h.calls|
  {
    var record, me := MonitorRecord(message), NextRef(s, addr);
    var m := Message(p, |s.h.calls[p]|, record);
    s.(id := NextId(s), q := LinkNode(AllocNode(s.q, me, buf), me, s.q.tail).(tail := me),
       buffers := s.buffers[buf := Buffer(m, Slot(addr))], count := (s.count + 1) % TWO_POW_32, event := true,
       h := s.h.(calls := s.h.calls[p := s.h.calls[p] + [record]], linked := s.h.linked + [m],
                 enqueues := s.h.enqueues + 1, signals := s.h.signals + 1))
  }

  /** Thread p can make its call alone. */
  ghost predicate CanCall(s: State, p: nat, buf: nat, addr: nat, tame: bool) {
    && s.ready && p < |s.producers| && p < |s.h.calls| && s.producers[p].Idle? && buf !in s.buffers
        && CanAlloc(s.q, addr)
    && NewTag(s.producers, NextRef(s, addr)) && (tame ==> Released(s.producers, addr))
    && Outstanding(s) + 1 < TWO_POW_32
  }

  lemma OutstandingCall(s: State, s': State, p: nat)
    requires p < |s.producers| && s.producers[p].Idle? && s'.q == s.q && |s'.producers| == |s.producers|
    requires s'.producers == s.producers[p := s'.producers[p]]
      && (s'.producers[p].Entering? || s'.producers[p].HavingId?)
    ensures Outstanding(s') == Outstanding(s) + 1
  {
    CountUpdate(s.producers, p, s'.producers[p]);
    hide Count, Queued;
  }

  lemma OutstandingAlloc(s: State, s': State, p: nat)
    requires p < |s.producers| && |s'.producers| == |s.producers| && s'.producers == s.producers[p := s'.producers[p]]
    requires Unlinked(s'.producers[p]) <= Unlinked(s.producers[p]) && Queued(s'.q) == Queued(s.q)
    ensures Outstanding(s') <= Outstanding(s)
  {
    CountUpdate(s.producers, p, s'.producers[p]);
    hide Count, Queued;
  }

  lemma Prepares(n: nat, tame: bool, s: State, p: nat, message: string, buf: nat, addr: nat)
    requires Reachable(n, tame, s) && CanCall(s, p, buf, addr, tame)
    ensures Reachable(n, tame, Prepared(s, p, message, buf, addr))
    ensures Outstanding(Prepared(s, p, message, buf, addr)) < TWO_POW_32
  {
    hide Reachable, MonitorRecord, Outstanding, CanAlloc, NewTag, Released;
    OutstandingMore(s);
    var s1 := Go(n, tame, s, Call(p, message, buf));
    OutstandingCall(s, s1, p);
    var s2 := Go(n, tame, s1, Produce(p));
    OutstandingCall(s, s2, p);
    OnlyMe(s, s2, p, NextRef(s, addr));
    AllocReaches(n, tame, s2, p, addr);
    assert Prepared(s, p, message, buf, addr) == Apply(s2, Alloc(p, addr));
  }

  lemma OutstandingMore(s: State)
    ensures Outstanding(s) + 1 < TWO_POW_32 ==> Outstanding(s) < TWO_POW_32
  {
    hide Outstanding;
  }

  lemma OnlyMe(s: State, s': State, p: nat, me: Ref)
    requires p < |s.producers| && |s'.producers| == |s.producers| && s'.producers == s.producers[p := s'.producers[p]]
    requires s'.producers[p].HavingId?
    ensures NewTag(s.producers, me) ==> NewTag(s'.producers, me)
    ensures Released(s.producers, me.addr) ==> Released(s'.producers, me.addr)
  {
  }

  lemma AllocReaches(n: nat, tame: bool, s: State, p: nat, addr: nat)
    requires Reachable(n, tame, s) && Enabled(s, Alloc(p, addr)) && Outstanding(s) < TWO_POW_32
    requires NewTag(s.producers, Ref(addr, s.producers[p].tag)) && (tame ==> Released(s.producers, addr))
    ensures Reachable(n, tame, Apply(s, Alloc(p, addr)))
    ensures Outstanding(Apply(s, Alloc(p, addr))) < TWO_POW_32
  {
    hide Reachable, Outstanding, NewTag, Released, Inv, CanAlloc, Queued;
    var s' := GoAlloc(n, tame, s, p, addr);
    ReachableInv(n, tame, s);
    AllocApart(s, Alloc(p, addr));
    QueuedAlloc(s.q, Ref(addr, s.producers[p].tag), s.producers[p].buf);
    OutstandingAlloc(s, s', p);
  }

  /** The five steps from reading mTail at the end to the return of the call. */
  lemma FinishesCall(n: nat, tame: bool, s: State, p: nat)
    requires Reachable(n, tame, s) && Outstanding(s) < TWO_POW_32
    requires p < |s.producers| && s.producers[p].LoadingTail? && NextOf(s.q, s.q.tail) == NULL
    ensures Reachable(n, tame, FinishCall(s, p))
  {
    hide Reachable, Outstanding;
    var s1 := Go(n, tame, s, Produce(p));
    OutstandingAlloc(s, s1, p);
    FinishesLink(n, tame, s1, p);
  }

  /** The four steps from the CAS of Next. */
  lemma FinishesLink(n: nat, tame: bool, s: State, p: nat)
    requires Reachable(n, tame, s) && Outstanding(s) < TWO_POW_32
    requires p < |s.producers| && s.producers[p].Linking? && NextOf(s.q, s.producers[p].tail) == NULL
    ensures Reachable(n, tame, Finish(s, p)) && Outstanding(Finish(s, p)) <= Outstanding(s)
  {
    hide Reachable, Outstanding, Finish;
    var s1 := LinkReaches(n, tame, s, p);
    SwingReaches(n, tame, s1, p);
    FinishIs(s, p);
  }

  lemma FinishIs(s: State, p: nat)
    requires p < |s.producers| && s.producers[p].Linking? && NextOf(s.q, s.producers[p].tail) == NULL
    ensures ProducerStep(s, p).producers[p].SwingingTail?
    ensures Finish(s, p) == FinishSwing(ProducerStep(s, p), p)
  {
    hide LinkNode, Messages;
  }

  function FinishSwing(s: State, p: nat): State
    requires p < |s.producers| && s.producers[p].SwingingTail?
  {
    ProducerStep(ProducerStep(ProducerStep(s, p), p), p)
  }

  lemma LinkReaches(n: nat, tame: bool, s: State, p: nat) returns (s1: State)
    requires Reachable(n, tame, s) && Outstanding(s) < TWO_POW_32
    requires p < |s.producers| && s.producers[p].Linking? && NextOf(s.q, s.producers[p].tail) == NULL
    ensures Reachable(n, tame, s1) && s1 == ProducerStep(s, p) && Outstanding(s1) == Outstanding(s)
    ensures p < |s1.producers| && s1.producers[p].SwingingTail?
  {
    hide Reachable, Outstanding, LinkNode, Messages, Inv;
    s1 := Go(n, tame, s, Produce(p));
    ReachableInv(n, tame, s);
    OutstandingLink(s, p);
  }

  lemma SwingReaches(n: nat, tame: bool, s: State, p: nat)
    requires Reachable(n, tame, s) && Outstanding(s) < TWO_POW_32 && p < |s.producers| && s.producers[p].SwingingTail?
    ensures Reachable(n, tame, FinishSwing(s, p)) && Outstanding(FinishSwing(s, p)) <= Outstanding(s)
  {
    hide Reachable, Outstanding;
    var s1 := Go(n, tame, s, Produce(p));
    SameQueued(s, s1);
    OutstandingAlloc(s, s1, p);
    var s2 := Go(n, tame, s1, Produce(p));
    OutstandingAlloc(s1, s2, p);
    var s3 := Go(n, tame, s2, Produce(p));
    OutstandingAlloc(s2, s3, p);
  }

  lemma SameQueued(s: State, s': State)
    requires s'.q.home == s.q.home && s'.q.sides == s.q.sides
    ensures Queued(s'.q) == Queued(s.q)
  {
  }

  lemma OutstandingLink(s: State, p: nat)
    requires Inv(s) && p < |s.producers| && s.producers[p].Linking? && NextOf(s.q, s.producers[p].tail) == NULL
    ensures Outstanding(ProducerStep(s, p)) == Outstanding(s)
  {
    hide Inv;
    var pc := s.producers[p];
    CanLinkOf(s, p);
    QueuedLink(s.q, pc.me, pc.tail);
    CountUpdate(s.producers, p, SwingingTail(pc.me, pc.tail));
    hide Count, Queued, LinkNode, CanLink;
  }

  /** A thread's whole call, with nothing in between, when mTail is at the end of the queue. */
  lemma CallReaches(n: nat, tame: bool, s: State, p: nat, message: string, buf: nat, addr: nat)
    requires Reachable(n, tame, s) && CanCall(s, p, buf, addr, tame) && AtEnd(s.q)
    ensures Reachable(n, tame, Called(s, p, message, buf, addr))
  {
    hide Reachable, Outstanding, MonitorRecord, Inv, AtEnd, ListsInv, CanAlloc, NewTag, Released;
    ReachableInv(n, tame, s);
    CountOf(s);
    Prepares(n, tame, s, p, message, buf, addr);
    var s1 := Prepared(s, p, message, buf, addr);
    ReachableInv(n, tame, s1);
    CountOf(s1);
    hide AllocNode;
    SameEndAlloc(s.q, NextRef(s, addr), buf);
    EndHasNoNext(s1.q);
    FinishesCall(n, tame, s1, p);
    CalledIsFinished(s, p, message, buf, addr);
  }

  lemma SameEndAlloc(q: Queue, me: Ref, buf: nat)
    ensures AtEnd(AllocNode(q, me, buf)) == AtEnd(q)
  {
  }

  lemma CalledIsFinished(s: State, p: nat, message: string, buf: nat, addr: nat)
    requires p < |s.producers| && p < |s.h.calls| && s.producers[p].Idle? && buf !in s.buffers
    requires
      var q1 := AllocNode(s.q, NextRef(s, addr), buf);
      NextOf(q1, s.q.tail) == NULL && HomeOf(q1, s.q.tail.addr) == 0
    ensures FinishCall(Prepared(s, p, message, buf, addr), p) == Called(s, p, message, buf, addr)
  {
    hide MonitorRecord, LinkNode;
    var s1 := Prepared(s, p, message, buf, addr);
    var me := NextRef(s, addr);
    var q2 := LinkNode(s1.q, me, s.q.tail);
    LinkKeepsTail(s1.q, me, s.q.tail);
    assert Messages(s1.q, s1.buffers, [me]) == [TextOf(s1.buffers, buf)];
    hide AllocNode, Messages;
    assert SideOf(s1.q, me) == [me] by { SideOfNew(s.q, me, buf); }
    hide SideOf;
    FinishSteps(s1, p);
  }

  lemma SideOfNew(q: Queue, me: Ref, buf: nat)
    ensures SideOf(AllocNode(q, me, buf), me) == [me]
  {
  }

  lemma LinkKeepsTail(q: Queue, me: Ref, tail: Ref)
    ensures LinkNode(q, me, tail).tail == q.tail
  {
  }

  lemma FinishSteps(s: State, p: nat)
    requires p < |s.producers| && s.producers[p].LoadingTail? && NextOf(s.q, s.q.tail) == NULL
    ensures
      var pc := s.producers[p];
      FinishCall(s, p) == s.(q := LinkNode(s.q, pc.me, s.q.tail).(tail := pc.me), producers := s.producers[p := Idle],
        buffers := NewOwner(s.buffers, pc.buf, Slot(pc.me.addr)), count := (s.count + 1) % TWO_POW_32, event := true,
        h := s.h.(linked := if HomeOf(s.q, s.q.tail.addr) == 0
          then s.h.linked + Messages(s.q, s.buffers, SideOf(s.q, pc.me))
                            else s.h.linked,
                  enqueues := s.h.enqueues + 1, signals := s.h.signals + 1))
  {
    hide LinkNode, Messages, SideOf, NewOwner;
    LinkKeepsTail(s.q, s.producers[p].me, s.q.tail);
  }

  /** A call that runs alone, wherever the others are: its record joins the end of what is under way, and
      the event is set. */
  lemma LogMonitorAsyncAlone(n: nat, s: State, p: nat, message: string, buf: nat, addr: nat)
    requires Reachable(n, false, s) && CanCall(s, p, buf, addr, false) && AtEnd(s.q)
    ensures
      var s' := Called(s, p, message, buf, addr);
      && Reachable(n, false, s') && s'.event && s'.producers == s.producers && s'.monitor == s.monitor
      && UnderWay(s') == UnderWay(s) + [Message(p, |s.h.calls[p]|, MonitorRecord(message))]
  {
    hide Reachable, Inv, UnderWay, AsyncPart, MonitorRecord, AtEnd, Outstanding, LinkNode, AllocNode, CanAlloc, NewTag;
    CallReaches(n, false, s, p, message, buf, addr);
    var s' := Called(s, p, message, buf, addr);
    ReachableInv(n, false, s);
    ReachableInv(n, false, s');
    UnderWayIsRest(s);
    UnderWayIsRest(s');
    Cancel(AsyncPart(s.monitor), UnderWay(s'), UnderWay(s) + [Message(p, |s.h.calls[p]|, MonitorRecord(message))]);
  }

  lemma Cancel(a: seq<Message>, b: seq<Message>, c: seq<Message>)
    requires a + b == a + c
    ensures b == c
  {
    assert b == (a + b)[|a|..] && c == (a + c)[|a|..];
  }

  // ---- A whole dequeue ----

  /** The consumer, awake and about to call TryDequeue, takes and writes one record. */
  function Taken(s: State): State {
    var next := NextOf(s.q, s.q.head);
    var buf := DataOf(s.q, next);
    s.(q := FreeNode(TakeHead(s.q, next), s.q.head.addr), count := (s.count - 1) % TWO_POW_32,
       buffers := s.buffers - {buf}, monitor := s.monitor + [Async(TextOf(s.buffers, buf))], consumer := Checking,
       h := s.h.(dequeues := s.h.dequeues + 1))
  }

  predicate CanTake(s: State) {
    s.consumer.Checking? && s.count > 0 && s.q.tail != s.q.head && NextOf(s.q, s.q.head).addr != 0
  }

  /** The reads of TryDequeue, up to the CAS of mHead. */
  function Found(s: State): State {
    var next := NextOf(s.q, s.q.head);
    s.(consumer := SwingingHead(s.q.head, next, DataOf(s.q, next)), h := s.h.(dequeues := s.h.dequeues + 1))
  }

  lemma FindReaches(n: nat, tame: bool, s: State)
    requires Reachable(n, tame, s) && CanTake(s) && Outstanding(s) < TWO_POW_32
    ensures Reachable(n, tame, Found(s))
  {
    hide Reachable, Outstanding;
    var s1 := Go(n, tame, s, Consume);
    Unmoved(s, s1);
    var s2 := Go(n, tame, s1, Consume);
    Unmoved(s, s2);
    var s3 := Go(n, tame, s2, Consume);
    Unmoved(s, s3);
    DecideReaches(n, tame, s3);
  }

  lemma DecideReaches(n: nat, tame: bool, s: State)
    requires Reachable(n, tame, s) && Outstanding(s) < TWO_POW_32
    requires s.consumer == LoadingNext(s.q.head, s.q.tail) && s.q.tail != s.q.head && NextOf(s.q, s.q.head).addr != 0
    ensures
      var next := NextOf(s.q, s.q.head);
      Reachable(n, tame, s.(consumer := SwingingHead(s.q.head, next, DataOf(s.q, next))))
  {
    hide Reachable, Outstanding;
    var s1 := Go(n, tame, s, Consume);
    Unmoved(s, s1);
    var s2 := Go(n, tame, s1, Consume);
    Unmoved(s, s2);
    var s3 := Go(n, tame, s2, Consume);
  }

  lemma Unmoved(s: State, s': State)
    requires s'.q.home == s.q.home && s'.q.sides == s.q.sides && s'.producers == s.producers
    ensures Outstanding(s') == Outstanding(s)
  {
  }

  lemma TakeReaches(n: nat, tame: bool, s: State)
    requires Reachable(n, tame, s) && CanTake(s) && Outstanding(s) < TWO_POW_32
    ensures Reachable(n, tame, Taken(s))
  {
    hide Reachable, Outstanding, Inv, TakeHead, NewOwner;
    FindReaches(n, tame, s);
    var s0 := Found(s);
    Unmoved(s, s0);
    var s1 := SwingHeadReaches(n, tame, s0);
    TakeSteps(n, tame, s1);
    TakenOwner(s.buffers, DataOf(s.q, NextOf(s.q, s.q.head)));
    hide TextOf;
  }

  lemma SwingHeadReaches(n: nat, tame: bool, s: State) returns (s1: State)
    requires Reachable(n, tame, s) && Outstanding(s) < TWO_POW_32
    requires s.consumer.SwingingHead? && s.consumer.head == s.q.head
    ensures
      var c := s.consumer;
      s1 == s.(q := TakeHead(s.q, c.next), consumer := FreeingNode(c.head, c.buf),
        buffers := NewOwner(s.buffers, c.buf, ConsumerHand))
    ensures Reachable(n, tame, s1) && Outstanding(s1) < TWO_POW_32
  {
    hide Reachable, Outstanding, Inv, TakeHead, NewOwner, Queued;
    s1 := Go(n, tame, s, Consume);
    ReachableInv(n, tame, s);
    QueuedAtTake(s);
    Fewer(s, s1);
  }

  lemma TakenOwner(buffers: map<nat, Buffer>, buf: nat)
    ensures NewOwner(buffers, buf, ConsumerHand) - {buf} == buffers - {buf}
    ensures TextOf(NewOwner(buffers, buf, ConsumerHand), buf) == TextOf(buffers, buf)
  {
  }

  lemma QueuedAtTake(s: State)
    requires Inv(s) && s.consumer.SwingingHead?
    ensures Queued(ConsumerStep(s).q) <= Queued(s.q)
  {
    hide Inv;
    QueuedConsume(s);
  }

  lemma Fewer(s: State, s': State)
    requires Queued(s'.q) <= Queued(s.q) && s'.producers == s.producers
    ensures Outstanding(s') <= Outstanding(s)
  {
    hide Count, Queued;
  }

  /** The four steps after the CAS of mHead: free the node, count, write, delete. */
  lemma TakeSteps(n: nat, tame: bool, s: State)
    requires Reachable(n, tame, s) && s.consumer.FreeingNode? && Outstanding(s) < TWO_POW_32
    ensures
      var c := s.consumer;
      Reachable(n, tame, s.(q := FreeNode(s.q, c.head.addr), count := (s.count - 1) % TWO_POW_32,
                            buffers := s.buffers - {c.buf},
                            monitor := s.monitor + [Async(TextOf(s.buffers, c.buf))], consumer := Checking))
  {
    hide Reachable, Outstanding, TextOf;
    var s1 := Go(n, tame, s, Consume);
    Unmoved(s, s1);
    var s2 := Go(n, tame, s1, Consume);
    Unmoved(s, s2);
    var s3 := Go(n, tame, s2, Consume);
    Unmoved(s, s3);
    var s4 := Go(n, tame, s3, Consume);
  }
}
