/** Why the number of queued records is bounded: mCount has 32 bits, and with 2^32 records in the queue TryDequeue
    answers "empty", the writer goes back to its wait with the event unset, and nothing can move. */
module AsyncLogOverflow {
  import opened AsyncLogModel
  import opened AsyncLogInvariant
  import opened AsyncLogLedger
  import opened AsyncLogProgress
  import opened AsyncLogReuse
  import opened AsyncLogRuns
  import opened AsyncLogScenarios
  import opened AsyncLogReissue
  import opened LogText
  import opened Sums

  /** One thread has logged k records, and the writer has not run. */
  ghost predicate Pile(s: State, k: nat) {
    && s.ready && s.producers == [Idle] && s.consumer.Waiting? && |s.h.calls| == 1 && s.monitor == []
    && s.count == k % TWO_POW_32 && (k > 0 ==> s.event) && Queued(s.q) == k
    && ListsInv(s.q) && PoolInv(s.q) && s.q.pool == [] && AtEnd(s.q)
  }

  lemma {:induction false} NewNat(keys: set<nat>) returns (n: nat)
    ensures n > 0 && forall k :: k in keys ==> k < n
    decreases |keys|
  {
    if keys == {} {
      n := 1;
    } else {
      var k :| k in keys;
      var m := NewNat(keys - {k});
      n := if m <= k then k + 1 else m;
      assert forall j :: j in keys && j != k ==> j in keys - {k};
    }
  }

  /** A node and a buffer that are not in use. */
  lemma NewOnes(s: State, k: nat) returns (buf: nat, addr: nat)
    requires Pile(s, k)
    ensures buf !in s.buffers && CanAlloc(s.q, addr) && addr > 0
  {
    buf := NewNat(s.buffers.Keys);
    addr := NewNat(s.q.heap.Keys);
  }

  /** The queue after one more call. */
  lemma QueueGrows(q: Queue, me: Ref, buf: nat)
    requires ListsInv(q) && PoolInv(q) && q.pool == [] && AtEnd(q) && CanAlloc(q, me.addr) && me.addr > 0
    ensures
      var q1 := AllocNode(q, me, buf);
      && NextOf(q1, q.tail) == NULL && HomeOf(q1, q.tail.addr) == 0
      && var q' := LinkNode(q1, me, q.tail).(tail := me);
      && ListsInv(q') && PoolInv(q') && q'.pool == [] && AtEnd(q') && Queued(q') == Queued(q) + 1
  {
    hide ListsInv, PoolInv, AtEnd, LinkNode, AllocNode, NextOf, HomeOf, Queued, CanLink;
    AllocOutside(q, me.addr);
    var q1 := AllocNode(q, me, buf);
    ListsAlloc(q, me, buf);
    PoolAlloc(q, me, buf);
    QueuedAlloc(q, me, buf);
    SameEndAlloc(q, me, buf);
    NewStands(q, me, buf);
    EndHasNoNext(q1);
    CanLinkEnd(q1, me);
    ListsLink(q1, me, q1.tail);
    PoolLink(q1, me, q1.tail);
    QueuedLink(q1, me, q1.tail);
    LinkAtEnd(q1, me);
    LinkedEnd(q1, me);
  }

  lemma NewStands(q: Queue, me: Ref, buf: nat)
    ensures
      var q1 := AllocNode(q, me, buf);
      me.addr in q1.sides && q1.sides[me.addr] == [me] && q1.tail == q.tail && (q.pool == [] ==> q1.pool == [])
  {
  }

  lemma CanLinkEnd(q: Queue, me: Ref)
    requires ListsInv(q) && AtEnd(q) && me.addr > 0 && me.addr in q.sides && q.sides[me.addr] == [me]
    ensures CanLink(q, me, q.tail) && HomeOf(q, q.tail.addr) == 0
  {
    EndHasNoNext(q);
    hide ListsInv;
  }

  /** mTail is moved to the node just linked, the last. */
  lemma LinkedEnd(q: Queue, me: Ref)
    requires ListsInv(LinkNode(q, me, q.tail)) && q.sides.Keys >= {me.addr} && q.sides[me.addr] == [me]
    requires LinkNode(q, me, q.tail).chain == q.chain + q.sides[me.addr] && PoolInv(LinkNode(q, me, q.tail))
    ensures
      var q1 := LinkNode(q, me, q.tail);
      var q' := q1.(tail := me);
      ListsInv(q') && PoolInv(q') && AtEnd(q') && Queued(q') == Queued(q1) && q'.pool == q.pool
  {
    var q1 := LinkNode(q, me, q.tail);
    assert q1.pool == q.pool;
    hide LinkNode, ListsInv, PoolInv;
    assert me in q1.chain by { assert q1.chain[|q1.chain| - 1] == me; }
    ListsMoveTail(q1, me);
    PoolAnyTail(q1, me);
  }

  lemma PoolAnyTail(q: Queue, tail: Ref)
    requires PoolInv(q)
    ensures PoolInv(q.(tail := tail)) && Queued(q.(tail := tail)) == Queued(q)
  {
  }

  lemma PileGrows(s: State, k: nat, buf: nat, addr: nat)
    requires Pile(s, k) && buf !in s.buffers && CanAlloc(s.q, addr) && addr > 0
    ensures Pile(Called(s, 0, "", buf, addr), k + 1)
  {
    hide LinkNode, AllocNode, ListsInv, PoolInv, AtEnd, Queued, MonitorRecord, CanAlloc, NextOf, HomeOf;
    QueueGrows(s.q, NextRef(s, addr), buf);
    CountUp(k);
  }

  lemma CountUp(k: nat)
    ensures (k % TWO_POW_32 + 1) % TWO_POW_32 == (k + 1) % TWO_POW_32
  {
  }

  /** As many records as safe steps can pile up. */
  lemma {:induction false} Piles(k: nat) returns (s: State)
    requires k + 1 < TWO_POW_32
    ensures Reachable(1, false, s) && Pile(s, k)
  {
    hide Reachable, Pile;
    if k == 0 {
      ReadyReachable(1);
      TameIsReachable(1, Ready(1));
      s := Ready(1);
      ReadyPile(s);
    } else {
      var s1 := Piles(k - 1);
      var buf, addr := NewOnes(s1, k - 1);
      PileCanCall(s1, k - 1, buf, addr);
      CallReaches(1, false, s1, 0, "", buf, addr);
      PileGrows(s1, k - 1, buf, addr);
      s := Called(s1, 0, "", buf, addr);
    }
  }

  lemma ReadyPile(s: State)
    requires s == Ready(1) && Reachable(1, false, s)
    ensures Pile(s, 0)
  {
    hide Reachable;
    ReachableInv(1, false, s);
    assert s.producers == [Idle] && |s.h.calls| == 1;
  }

  lemma PileCanCall(s: State, k: nat, buf: nat, addr: nat)
    requires Pile(s, k) && k + 2 < TWO_POW_32 && buf !in s.buffers && CanAlloc(s.q, addr)
    ensures CanCall(s, 0, buf, addr, false) && AtEnd(s.q) && |s.producers| == 1 && |s.h.calls| == 1
  {
    hide ListsInv, PoolInv, AtEnd, Queued;
    NoneUnlinked(s.producers);
  }

  lemma NoneUnlinked(producers: seq<Producer>)
    requires producers == [Idle]
    ensures Count(producers, Unlinked) == 0
  {
    SumUpperBound(producers, Unlinked, 0);
  }

  /** One more call, safe or not. */
  lemma CallLeads(o: State, s: State, k: nat, buf: nat, addr: nat)
    requires Leads(o, s) && Pile(s, k) && buf !in s.buffers && CanAlloc(s.q, addr) && addr > 0
    ensures |s.producers| == 1 && |s.h.calls| == 1 && Leads(o, Called(s, 0, "", buf, addr))
  {
    QueueGrows(s.q, NextRef(s, addr), buf);
    hide Leads, ListsInv, PoolInv, AtEnd, Queued, LinkNode, MonitorRecord, CanAlloc, HomeOf, NextOf;
    PrepareLeads(o, s, buf, addr);
    var s1 := Prepared(s, 0, "", buf, addr);
    AllocTail(s.q, NextRef(s, addr), buf);
    hide AllocNode;
    CallEnds(o, s1, 0);
    CalledIsFinished(s, 0, "", buf, addr);
  }

  lemma PrepareLeads(o: State, s: State, buf: nat, addr: nat)
    requires Leads(o, s) && s.ready && s.producers == [Idle] && |s.h.calls| == 1 && buf !in s.buffers
      && CanAlloc(s.q, addr)
    ensures Leads(o, Prepared(s, 0, "", buf, addr))
  {
    hide Leads, MonitorRecord, CanAlloc, AllocNode;
    var s1 := Then(o, s, Call(0, "", buf));
    assert s1.producers == [Entering(buf)];
    var s2 := Then(o, s1, Produce(0));
    assert s2.producers == [HavingId(buf, NextId(s) % TWO_POW_16)];
    var s3 := Then(o, s2, Alloc(0, addr));
    assert s3.producers == [LoadingTail(buf, NextRef(s, addr))];
    assert s3 == Prepared(s, 0, "", buf, addr);
  }

  /** Two calls more than safe steps allow, and the count is zero. */
  lemma Wraps(s: State) returns (s': State)
    requires Pile(s, TWO_POW_32 - 2)
    ensures Leads(s, s') && Pile(s', TWO_POW_32)
  {
    hide Leads, Pile;
    LeadsHere(s);
    var s1 := CallsOnce(s, s, TWO_POW_32 - 2);
    s' := CallsOnce(s, s1, TWO_POW_32 - 1);
  }

  lemma CallsOnce(o: State, s: State, k: nat) returns (s': State)
    requires Leads(o, s) && Pile(s, k)
    ensures Leads(o, s') && Pile(s', k + 1)
  {
    hide Leads, Pile;
    var buf, addr := NewOnes(s, k);
    CallLeads(o, s, k, buf, addr);
    PileGrows(s, k, buf, addr);
    s' := Called(s, 0, "", buf, addr);
  }

  /** The writer wakes, reads zero and waits again. */
  lemma ReadsZero(o: State, s: State) returns (s': State)
    requires Leads(o, s) && Pile(s, TWO_POW_32)
    ensures Leads(o, s') && Quiescent(s') && Queued(s'.q) == TWO_POW_32 && s'.monitor == []
  {
    hide Leads, ListsInv, PoolInv, AtEnd, Queued;
    var s1 := Then(o, s, Consume);
    s' := Then(o, s1, Consume);
    assert s'.consumer.Waiting? && !s'.event && s'.producers == [Idle];
  }

  /** The bound is there for a reason: a safe run piles up 2^32 - 2 records; two more calls and a turn of the writer
      later nothing can move without a new call, and 2^32 records are in the queue, none of them written. */
  lemma CountWraps() returns (before: State, after: State)
    ensures Reachable(1, false, before) && Queued(before.q) == TWO_POW_32 - 2
    ensures Leads(before, after) && Quiescent(after) && Queued(after.q) == TWO_POW_32 && after.monitor == []
  {
    hide Reachable, Leads, Quiescent, ListsInv, PoolInv, AtEnd, Queued;
    before := Piles(TWO_POW_32 - 2);
    var s := Wraps(before);
    after := ReadsZero(before, s);
  }
}
