/** What happens when the pool hands out a node whose Next another thread is about to CAS. The CAS hangs
    that thread's node on one that is not linked yet, and its call returns before its record can be reached.
    Nothing is lost: the record comes in with the node it hangs on. But the order of the calls is broken,
    and mTail is left behind with nobody to move it, so that the writer spins until the next call. */
module AsyncLogReuse {
  import opened AsyncLogModel
  import opened AsyncLogInvariant
  import opened AsyncLogLedger
  import opened AsyncLogSteps
  import opened AsyncLogOrder
  import opened AsyncLogTheorems
  import opened AsyncLogProgress

  // ---- What is in the queue ----

  /** A walk along the Next pointers, from the head. */
  ghost predicate Path(q: Queue, path: seq<Ref>) {
    && path != [] && path[0] == q.head
    && forall i :: 0 < i < |path| ==> path[i] == NextOf(q, path[i - 1]) && path[i] != NULL
  }

  ghost predicate Reaches(q: Queue, r: Ref) {
    exists path :: Path(q, path) && path[|path| - 1] == r
  }

  /** The successor of a node of the chain. */
  lemma ChainNext(q: Queue, k: nat)
    requires ListsInv(q) && k < |q.chain|
    ensures NextOf(q, q.chain[k]) == (if k + 1 < |q.chain| then q.chain[k + 1] else NULL)
    ensures k + 1 < |q.chain| ==> q.chain[k + 1] != NULL
  {
    assert Linked(q, 0, ListAt(q, 0));
    hide ListsInv;
    if k + 1 < |q.chain| {
      HasNext(q, 0, q.chain, k);
    }
  }

  lemma {:induction false} PathStaysInChain(q: Queue, path: seq<Ref>)
    requires ListsInv(q) && Path(q, path)
    ensures |path| <= |q.chain| && path[|path| - 1] == q.chain[|path| - 1]
    decreases |path|
  {
    hide ListsInv, NextOf;
    HeadIsFirst(q);
    if |path| > 1 {
      var before, k := path[..|path| - 1], |path| - 2;
      assert Path(q, before);
      PathStaysInChain(q, before);
      assert path[k + 1] == NextOf(q, path[k + 1 - 1]) && path[k + 1] != NULL;
      ChainNext(q, k);
    }
  }

  lemma {:induction false} ChainIsPath(q: Queue, k: nat)
    requires ListsInv(q) && k < |q.chain|
    ensures Path(q, q.chain[..k + 1])
  {
    hide ListsInv, NextOf;
    HeadIsFirst(q);
    forall i | 0 < i < k + 1
      ensures q.chain[i] == NextOf(q, q.chain[i - 1]) && q.chain[i] != NULL
    {
      ChainNext(q, i - 1);
    }
  }

  /** The history `chain` is the real content of the queue: the nodes the Next pointers reach. */
  lemma ReachesIsChain(q: Queue, r: Ref)
    requires ListsInv(q)
    ensures Reaches(q, r) <==> r in q.chain
  {
    hide ListsInv;
    if r in q.chain {
      var k :| 0 <= k < |q.chain| && q.chain[k] == r;
      ChainIsPath(q, k);
      assert q.chain[..k + 1][|q.chain[..k + 1]| - 1] == r;
    }
    if Reaches(q, r) {
      var path :| Path(q, path) && path[|path| - 1] == r;
      PathStaysInChain(q, path);
    }
  }

  // ---- A call that returns early ----

  /** The four steps that end thread r's call: link, swing, count, signal. */
  function Finish(s: State, r: nat): State
    requires r < |s.producers| && s.producers[r].Linking? && NextOf(s.q, s.producers[r].tail) == NULL
  {
    ProducerStep(ProducerStep(ProducerStep(ProducerStep(s, r), r), r), r)
  }

  lemma FinishOutcome(s: State, r: nat)
    requires r < |s.producers| && s.producers[r].Linking? && NextOf(s.q, s.producers[r].tail) == NULL
    ensures
      var pc, s' := s.producers[r], Finish(s, r);
      && s'.q == CasTail(LinkNode(s.q, pc.me, pc.tail), pc.tail, pc.me)
      && s'.producers == s.producers[r := Idle] && s'.buffers == NewOwner(s.buffers, pc.buf, Slot(pc.me.addr))
      && s'.h.calls == s.h.calls && s'.consumer == s.consumer && s'.monitor == s.monitor && s'.ready == s.ready
          && s'.id == s.id
      && s'.h.linked == if HomeOf(s.q, pc.tail.addr) == 0 then s.h.linked + Messages(s.q, s.buffers, SideOf(s.q, pc.me))
          else s.h.linked
  {
    hide LinkNode, NewOwner, Messages, SideOf;
  }

  /** Thread p is given the node at addr; thread r, about to link, can then end its call at once. */
  ghost predicate LinksAtOnce(s: State, p: nat, r: nat, addr: nat) {
    && Enabled(s, Alloc(p, addr)) && r < |s.producers| && s.producers[r].Linking?
    && var s1 := Apply(s, Alloc(p, addr));
    r < |s1.producers| && s1.producers[r] == s.producers[r] && NextOf(s1.q, s1.producers[r].tail) == NULL
  }

  function AfterBoth(s: State, p: nat, r: nat, addr: nat): State
    requires LinksAtOnce(s, p, r, addr)
  {
    Finish(Apply(s, Alloc(p, addr)), r)
  }

  /** Thread r's call has then returned, and its record cannot be reached. */
  ghost predicate ReturnsEarly(s: State, p: nat, r: nat, addr: nat) {
    && LinksAtOnce(s, p, r, addr)
    && AfterBoth(s, p, r, addr).producers[r].Idle? && !Reaches(AfterBoth(s, p, r, addr).q, s.producers[r].me)
  }

  /** The queue after the allocation: a list of its own for the new node, the rest as before. */
  lemma Given(s: State, p: nat, addr: nat)
    requires Inv(s) && Enabled(s, Alloc(p, addr))
    ensures
      var me := Ref(addr, s.producers[p].tag);
      var q' := AllocNode(s.q, me, s.producers[p].buf);
      && addr !in s.q.home && addr !in s.q.sides && addr > 0 && ListsInv(q')
      && Apply(s, Alloc(p, addr)) == s.(q := q', producers := s.producers[p := LoadingTail(s.producers[p].buf, me)])
  {
    hide ListsInv, PoolInv, BirthInv, NodesInv, TailsInv, ConsumerInv, OwnersInv, CountInv, StartInv, PipelineInv,
      PrintsInv, RecordsInv;
    var me := Ref(addr, s.producers[p].tag);
    AllocOutside(s.q, addr);
    ListsAlloc(s.q, me, s.producers[p].buf);
    hide AllocNode;
  }

  /** What is known of a thread about to link. */
  lemma AboutToLinkParts(s: State, r: nat)
    requires Inv(s) && r < |s.producers| && s.producers[r].Linking?
    ensures
      var pc := s.producers[r];
      && OwnSide(s.q, pc) && pc.me.addr in s.q.home && s.q.home[pc.me.addr] == pc.me.addr && pc.me.addr > 0
      && pc.tail.addr in s.q.heap && s.q.tail.addr in s.q.home && ListsInv(s.q) && s.q.tail in s.q.chain
  {
    hide PoolInv, BirthInv, ConsumerInv, OwnersInv, CountInv, StartInv, PipelineInv, PrintsInv, RecordsInv;
    var pc := s.producers[r];
    assert OwnSide(s.q, pc) && TailKnown(s.q, pc);
    hide NodesInv, TailsInv;
    assert Linked(s.q, pc.me.addr, ListAt(s.q, pc.me.addr)) && Placed(s.q, s.q.sides[pc.me.addr][0].addr, pc.me.addr);
    assert Linked(s.q, 0, ListAt(s.q, 0));
    var i :| 0 <= i < |s.q.chain| && s.q.chain[i] == s.q.tail;
    assert Placed(s.q, s.q.chain[i].addr, 0);
  }

  /** The node `given` was given out between q and q1, and from q1 to q2 a thread at pc hung its own on it. */
  ghost predicate Hung(q: Queue, q1: Queue, q2: Queue, pc: Producer, given: Ref)
    requires pc.Linking? && pc.me.addr in q.sides
  {
    && CanLink(q1, pc.me, pc.tail) && HomeOf(q1, pc.tail.addr) == given.addr != 0
    && q2 == LinkNode(q1, pc.me, pc.tail) && ListsInv(q2)
    && q2.chain == q.chain && q2.tail == q.tail
    && given.addr in q2.sides && q2.sides[given.addr] == [given] + q.sides[pc.me.addr]
  }

  /** A node given out that thread r is about to link to: r's node hangs on it. */
  lemma HangsOn(s: State, p: nat, r: nat, addr: nat)
    requires Inv(s) && Enabled(s, Alloc(p, addr)) && r < |s.producers| && AboutToLink(s.producers[r], addr)
    ensures LinksAtOnce(s, p, r, addr) && r != p && s.producers[p].HavingId? && s.producers[r].me.addr in s.q.sides
    ensures Hung(s.q, Apply(s, Alloc(p, addr)).q, AfterBoth(s, p, r, addr).q, s.producers[r],
      Ref(addr, s.producers[p].tag))
  {
    hide Inv, ListsInv;
    Given(s, p, addr);
    AboutToLinkParts(s, r);
    var pc, s1 := s.producers[r], Apply(s, Alloc(p, addr));
    hide Apply;
    assert CanLink(s1.q, pc.me, pc.tail);
    FinishOutcome(s1, r);
    ListsLink(s1.q, pc.me, pc.tail);
    HangOutcome(s.q, s1.q, pc.me, pc.tail, Ref(addr, s.producers[p].tag));
    assert s.q.tail.addr != addr;
  }

  lemma HangOutcome(q: Queue, q1: Queue, me: Ref, tail: Ref, next: Ref)
    requires q1.chain == q.chain && q1.sides == q.sides[next.addr := [next]] && q1.tail == q.tail
    requires CanLink(q1, me, tail) && q1.home[tail.addr] == next.addr > 0 && me.addr in q.sides && me.addr != next.addr
    ensures
      var q2 := LinkNode(q1, me, tail);
      q2.chain == q.chain && q2.tail == q.tail && next.addr in q2.sides
        && q2.sides[next.addr] == [next] + q.sides[me.addr]
  {
  }

  /** From q1 to q2 a thread at pc linked its node at the end of the chain and moved mTail to it. */
  ghost predicate Behind(q: Queue, q1: Queue, q2: Queue, pc: Producer)
    requires pc.Linking?
  {
    && q.chain != [] && pc.tail == q.tail == Last(q.chain) && SideOf(q1, pc.me) == [pc.me]
        && HomeOf(q1, pc.tail.addr) == 0
    && CanLink(q1, pc.me, pc.tail) && q2 == LinkNode(q1, pc.me, pc.tail).(tail := pc.me) && ListsInv(q2)
    && q2.chain == q.chain + [pc.me]
  }

  /** Any other node given out: a link that succeeds at once does so at the end of the chain. */
  lemma LinksBehind(s: State, p: nat, r: nat, addr: nat)
    requires Steady(s) && LinksAtOnce(s, p, r, addr) && !AboutToLink(s.producers[r], addr)
    ensures r != p
    ensures Behind(s.q, Apply(s, Alloc(p, addr)).q, AfterBoth(s, p, r, addr).q, s.producers[r])
  {
    hide Inv, ListsInv;
    Given(s, p, addr);
    AboutToLinkParts(s, r);
    var pc, s1 := s.producers[r], Apply(s, Alloc(p, addr));
    hide Apply;
    assert LinkingKnown(s.q, pc.tail);
    hide OrderInv;
    assert NextOf(s1.q, pc.tail) == NextOf(s.q, pc.tail);
    LinksAtEnd(s.q, pc.tail);
    SinglesOf(s);
    assert CanLink(s1.q, pc.me, pc.tail);
    FinishOutcome(s1, r);
    ListsLink(s1.q, pc.me, pc.tail);
    ChainOutcome(s1.q, pc.me, pc.tail);
    hide LinkNode;
    ListsMoveTail(LinkNode(s1.q, pc.me, pc.tail), pc.me);
  }

  lemma SinglesOf(s: State)
    requires Steady(s)
    ensures Singles(s.q)
  {
    hide Inv;
  }

  lemma ChainOutcome(q: Queue, me: Ref, tail: Ref)
    requires CanLink(q, me, tail) && q.home[tail.addr] == 0 && SideOf(q, me) == [me]
    ensures LinkNode(q, me, tail).chain == q.chain + [me] && LinkNode(q, me, tail).tail == q.tail
  {
  }

  lemma NotInChain(q: Queue, r: Ref)
    requires ListsInv(q) && r.addr in q.home && q.home[r.addr] != 0
    ensures r !in q.chain
  {
    assert Linked(q, 0, ListAt(q, 0));
    assert forall i :: 0 <= i < |q.chain| ==> Placed(q, q.chain[i].addr, 0);
  }

  /** Exactly when an allocation lets thread r's call return before its record can be reached: when the
      node is the one whose Next r is about to CAS. */
  lemma EarlyReturnExactly(s: State, p: nat, r: nat, addr: nat)
    requires Steady(s) && Enabled(s, Alloc(p, addr)) && r < |s.producers|
    ensures ReturnsEarly(s, p, r, addr) <==> AboutToLink(s.producers[r], addr)
  {
    hide Inv, ListsInv, OrderInv, Apply, Finish, Reaches, LinkNode;
    if AboutToLink(s.producers[r], addr) {
      HangsOn(s, p, r, addr);
      AboutToLinkParts(s, r);
      NotInChain(s.q, s.producers[r].me);
      ReachesIsChain(AfterBoth(s, p, r, addr).q, s.producers[r].me);
      FinishOutcome(Apply(s, Alloc(p, addr)), r);
    } else if LinksAtOnce(s, p, r, addr) {
      LinksBehind(s, p, r, addr);
      ReachesIsChain(AfterBoth(s, p, r, addr).q, s.producers[r].me);
    }
  }

  // ---- The record is not lost ----

  /** When a thread links its node in the chain, every record that hangs on it comes with it: its node can
      be reached, has its data, and is under way. */
  lemma HangingJoins(s: State, p: nat, r: Ref)
    requires Inv(s) && p < |s.producers| && s.producers[p].Linking? && NextOf(s.q, s.producers[p].tail) == NULL
    requires HomeOf(s.q, s.producers[p].tail.addr) == 0 && r in SideOf(s.q, s.producers[p].me)
    ensures
      var s' := ProducerStep(s, p);
      && Reaches(s'.q, r) && DataOf(s'.q, r) == DataOf(s.q, r)
      && s'.h.linked == s.h.linked + Messages(s.q, s.buffers, SideOf(s.q, s.producers[p].me))
  {
    hide ListsInv, PoolInv, BirthInv, NodesInv, TailsInv, ConsumerInv, OwnersInv, CountInv, StartInv, PipelineInv,
      PrintsInv, RecordsInv;
    LinkKeepsQueue(s, p);
    hide Inv;
    var pc := s.producers[p];
    LinkLists(s.q, pc.me, pc.tail);
    LinkData(s.q, pc.me, pc.tail);
    var q' := LinkNode(s.q, pc.me, pc.tail);
    assert q'.chain == s.q.chain + s.q.sides[pc.me.addr] by {
      assert ListAt(q', 0) == q'.chain && ListAt(s.q, 0) == s.q.chain;
    }
    hide LinkNode;
    ReachesIsChain(q', r);
  }

  // ---- But the order of the calls is broken ----

  /** Thread r's call has then returned, and its record is neither in the file nor under way: any record
      linked from now on, of its own next call too, will be in front of it. */
  ghost predicate BreaksCallOrder(s: State, p: nat, r: nat, addr: nat) {
    && LinksAtOnce(s, p, r, addr) && r < |s.h.calls|
    && var s2 := AfterBoth(s, p, r, addr);
    s2.producers[r].Idle? && By(s2.h.linked, r) != s2.h.calls[r]
  }

  /** Exactly when an allocation breaks the order of r's calls. */
  lemma OrderBreaksExactly(s: State, p: nat, r: nat, addr: nat)
    requires Orderly(s) && Enabled(s, Alloc(p, addr)) && r < |s.producers|
    ensures BreaksCallOrder(s, p, r, addr) <==> AboutToLink(s.producers[r], addr)
  {
    hide Inv, ListsInv, OrderInv, Apply, Finish, LinkNode, By;
    if LinksAtOnce(s, p, r, addr) || AboutToLink(s.producers[r], addr) {
      assert By(s.h.linked, r) + Unsent(s.buffers, s.producers[r]) == s.h.calls[r];
      WriterOf(s, r);
      Given(s, p, addr);
      if AboutToLink(s.producers[r], addr) {
        HangsOn(s, p, r, addr);
        FinishOutcome(Apply(s, Alloc(p, addr)), r);
      } else {
        LinksBehind(s, p, r, addr);
        FinishOutcome(Apply(s, Alloc(p, addr)), r);
        SideMessage(s, p, r, addr);
        ByAppend(s.h.linked, TextOf(s.buffers, s.producers[r].buf));
      }
    }
  }

  lemma WriterOf(s: State, r: nat)
    requires Inv(s) && r < |s.producers| && s.producers[r].Linking?
    ensures TextOf(s.buffers, s.producers[r].buf).writer == r
    ensures Unsent(s.buffers, s.producers[r]) == [TextOf(s.buffers, s.producers[r].buf).text]
  {
    hide QueueInv, NodesInv, TailsInv, ConsumerInv, CountInv, StartInv, PipelineInv, PrintsInv, RecordsInv, SlotsOwned,
      OwnerHolds;
    assert Unlinking(s.producers[r]) && OwnedBy(s.buffers, s.producers[r].buf, Hand(r));
  }

  lemma SideMessage(s: State, p: nat, r: nat, addr: nat)
    requires Inv(s) && Enabled(s, Alloc(p, addr)) && r < |s.producers| && s.producers[r].Linking?
    ensures
      var q1 := Apply(s, Alloc(p, addr)).q;
      Messages(q1, s.buffers, [s.producers[r].me]) == [TextOf(s.buffers, s.producers[r].buf)]
  {
    hide Inv;
    Given(s, p, addr);
    AboutToLinkParts(s, r);
  }

  // ---- And the writer may never finish ----

  /** The five steps of a call that finds mTail at the end. */
  function FinishCall(s: State, p: nat): State
    requires p < |s.producers| && s.producers[p].LoadingTail? && NextOf(s.q, s.q.tail) == NULL
  {
    ProducerStep(ProducerStep(ProducerStep(ProducerStep(ProducerStep(s, p), p), p), p), p)
  }

  lemma FinishCallOutcome(s: State, p: nat)
    requires p < |s.producers| && s.producers[p].LoadingTail? && NextOf(s.q, s.q.tail) == NULL
    ensures
      var me, s' := s.producers[p].me, FinishCall(s, p);
      s'.q == LinkNode(s.q, me, s.q.tail).(tail := me) && s'.producers == s.producers[p := Idle]
  {
    var s1 := ProducerStep(s, p);
    FinishOutcome(s1, p);
    assert FinishCall(s, p) == Finish(s1, p);
    var q' := LinkNode(s.q, s.producers[p].me, s.q.tail);
    assert q'.tail == s.q.tail;
    hide LinkNode;
  }

  /** Both calls have then returned, mTail is not at the end, and no thread is about to move it. */
  ghost predicate LeavesTailBehind(s: State, p: nat, r: nat, addr: nat) {
    && LinksAtOnce(s, p, r, addr)
    && var s2 := AfterBoth(s, p, r, addr);
    && p < |s2.producers| && s2.producers[p].LoadingTail? && NextOf(s2.q, s2.q.tail) == NULL
    && var s3 := FinishCall(s2, p);
    !AtEnd(s3.q) && !Mover(s3.q.tail, s3.producers)
  }

  lemma EndHasNoNext(q: Queue)
    requires ListsInv(q) && AtEnd(q)
    ensures NextOf(q, q.tail) == NULL && q.tail.addr in q.home && q.home[q.tail.addr] == 0
  {
    assert Linked(q, 0, ListAt(q, 0));
    assert Placed(q, q.chain[|q.chain| - 1].addr, 0);
  }

  /** Linking at the end of the chain brings the whole side list. */
  lemma LinkAtEnd(q: Queue, me: Ref)
    requires ListsInv(q) && AtEnd(q) && me.addr > 0 && me.addr in q.sides && q.sides[me.addr] != []
      && q.sides[me.addr][0] == me
    ensures LinkNode(q, me, q.tail).chain == q.chain + q.sides[me.addr]
  {
    EndHasNoNext(q);
  }

  /** Exactly when an allocation lets two calls return with mTail left behind: again when the node is one
      whose Next thread r is about to CAS. (While mTail lags before the allocation, some thread is about
      to move it; here it has.) */
  lemma TailStaysBehindExactly(s: State, p: nat, r: nat, addr: nat)
    requires Steady(s) && AtEnd(s.q) && Enabled(s, Alloc(p, addr)) && NewTag(s.producers, Ref(addr, s.producers[p].tag))
    requires r < |s.producers|
    ensures LeavesTailBehind(s, p, r, addr) <==> AboutToLink(s.producers[r], addr)
  {
    hide Inv, ListsInv, OrderInv, Apply, Finish, FinishCall, LinkNode;
    if AboutToLink(s.producers[r], addr) {
      TailLeftBehind(s, p, r, addr);
    } else if LinksAtOnce(s, p, r, addr) {
      TailCaughtUp(s, p, r, addr);
    }
  }

  lemma TailLeftBehind(s: State, p: nat, r: nat, addr: nat)
    requires Inv(s) && AtEnd(s.q) && Enabled(s, Alloc(p, addr)) && NewTag(s.producers, Ref(addr, s.producers[p].tag))
    requires r < |s.producers| && AboutToLink(s.producers[r], addr)
    ensures LeavesTailBehind(s, p, r, addr)
  {
    hide Inv, ListsInv, Apply, Finish, FinishCall, LinkNode, CanLink;
    HangsOn(s, p, r, addr);
    Given(s, p, addr);
    AboutToLinkParts(s, r);
    var me, s2 := Ref(addr, s.producers[p].tag), AfterBoth(s, p, r, addr);
    FinishOutcome(Apply(s, Alloc(p, addr)), r);
    assert s2.producers[p] == LoadingTail(s.producers[p].buf, me);
    EndHasNoNext(s2.q);
    FinishCallOutcome(s2, p);
    LinkAtEnd(s2.q, me);
    var s3 := FinishCall(s2, p);
    var side := s.q.sides[s.producers[r].me.addr];
    assert s3.q.chain == s.q.chain + ([me] + side);
    LastIsOther(s2.q, s3.q, addr, me, s.q.chain, side);
    forall k | 0 <= k < |s3.producers| && s3.producers[k].SwingingTail?
      ensures s3.producers[k].tail != me
    {
      assert s3.producers[k] == s.producers[k] && !Remembers(s.producers[k], me);
    }
  }

  /** The last node of the side list is not its first. */
  lemma LastIsOther(q: Queue, q': Queue, addr: nat, me: Ref, chain: seq<Ref>, side: seq<Ref>)
    requires ListsInv(q) && addr in q.sides && q.sides[addr] == [me] + side && side != []
    requires q'.chain == chain + ([me] + side) && q'.tail == me
    ensures !AtEnd(q')
  {
    assert Linked(q, addr, ListAt(q, addr));
    assert q.sides[addr][0].addr != q.sides[addr][|side|].addr;
  }

  lemma TailCaughtUp(s: State, p: nat, r: nat, addr: nat)
    requires Steady(s) && Enabled(s, Alloc(p, addr)) && LinksAtOnce(s, p, r, addr) && !AboutToLink(s.producers[r], addr)
    ensures !LeavesTailBehind(s, p, r, addr)
  {
    hide Inv, ListsInv, OrderInv, Apply, Finish, FinishCall, LinkNode, CanLink;
    LinksBehind(s, p, r, addr);
    Given(s, p, addr);
    AboutToLinkParts(s, r);
    var me, s2 := Ref(addr, s.producers[p].tag), AfterBoth(s, p, r, addr);
    FinishOutcome(Apply(s, Alloc(p, addr)), r);
    assert s2.producers[p] == LoadingTail(s.producers[p].buf, me);
    StillAlone(Apply(s, Alloc(p, addr)).q, s.producers[r].me, s.producers[r].tail, me);
    EndHasNoNext(s2.q);
    FinishCallOutcome(s2, p);
    LinkAtEnd(s2.q, me);
  }

  lemma StillAlone(q: Queue, me: Ref, tail: Ref, other: Ref)
    requires CanLink(q, me, tail) && q.home[tail.addr] == 0 && other.addr in q.sides && q.sides[other.addr] == [other]
    requires other.addr != me.addr
    ensures other.addr in LinkNode(q, me, tail).sides && LinkNode(q, me, tail).sides[other.addr] == [other]
  {
  }

  // ---- When the writer finishes ----

  ghost predicate AllIdle(producers: seq<Producer>) {
    forall p :: 0 <= p < |producers| ==> producers[p].Idle?
  }

  /** One step without a new call, if there is any. */
  ghost predicate MovesOrRests(s: State, s': State) {
    || (exists a :: Enabled(s, a) && !IsCall(a) && s' == Apply(s, a))
    || (s' == s && Quiescent(s))
  }

  lemma OnlyConsumes(s: State, s': State)
    requires Inv(s) && AllIdle(s.producers) && MovesOrRests(s, s')
    ensures (Safe(s, Consume) && s' == Apply(s, Consume)) || (s' == s && Quiescent(s))
  {
    hide Inv, Apply, Queued;
    if exists a :: Enabled(s, a) && !IsCall(a) && s' == Apply(s, a) {
      var a :| Enabled(s, a) && !IsCall(a) && s' == Apply(s, a);
      assert a == Consume;
      QueuedConsume(s);
      ConsumeIsStep(s);
      CountOf(s);
    }
  }

  /** No thread is in a call and mTail is behind: records are queued that the writer cannot pass. */
  ghost predicate Stalled(s: State) { Inv(s) && AllIdle(s.producers) && !AtEnd(s.q) }

  lemma {:induction false} StaysStalled(s: State, s': State)
    requires Stalled(s) && MovesOrRests(s, s')
    ensures Stalled(s')
  {
    hide Inv, Apply, Queued;
    OnlyConsumes(s, s');
    if s' != s {
      StepKeepsInv(s, Consume);
      StallStep(s);
      ConsumeIsStep(s);
    }
  }

  lemma StallStep(s: State)
    requires Inv(s) && Enabled(s, Consume) && !AtEnd(s.q)
    ensures ConsumerStep(s).producers == s.producers && !AtEnd(ConsumerStep(s).q)
  {
    if s.consumer.SwingingHead? {
      hide Inv, QueueInv, NodesInv, TailsInv, ConsumerStep, Queued, AtEnd, TakeHead;
      TakingKeepsQueue(s);
      TakingIsTake(s);
      TakeKeepsThreads(s);
      TakeKeepsEnd(s.q, s.consumer.next);
    } else {
      hide Inv, AtEnd;
      SameEnd(s);
      TakeKeepsThreads(s);
    }
  }

  lemma TakeKeepsEnd(q: Queue, next: Ref)
    requires |q.chain| >= 2
    ensures AtEnd(TakeHead(q, next)) == AtEnd(q)
  {
  }

  lemma TakeKeepsThreads(s: State)
    requires Enabled(s, Consume)
    ensures ConsumerStep(s).producers == s.producers
  {
  }

  lemma {:induction false} StalledForever(run: nat -> State, k: nat)
    requires Stalled(run(0)) && forall i: nat :: MovesOrRests(run(i), run(i + 1))
    ensures Stalled(run(k))
  {
    hide Stalled, MovesOrRests;
    if k > 0 {
      StalledForever(run, k - 1);
      assert MovesOrRests(run(k - 1), run(k - 1 + 1));
      StaysStalled(run(k - 1), run(k));
    }
  }

  lemma StalledIsNotDrained(s: State, calls: seq<seq<string>>)
    requires Stalled(s)
    ensures !Drained(s, calls)
  {
    hide Quiescent, Queued, AsyncPart, OnceAmong, NodesInv, TailsInv, ConsumerInv, OwnersInv, CountInv, StartInv,
      PipelineInv, PrintsInv, RecordsInv;
  }

  lemma AtRestIsSteady(s: State)
    requires Inv(s) && AllIdle(s.producers) && AtEnd(s.q)
    ensures Steady(s)
  {
    NothingHangs(s);
    hide Inv;
  }

  /** Only the writer moves, and all its steps are tame. */
  lemma {:induction false} StaysAtRest(run: nat -> State, k: nat)
    requires Inv(run(0)) && AllIdle(run(0).producers) && forall i: nat :: MovesOrRests(run(i), run(i + 1))
    ensures Inv(run(k)) && AllIdle(run(k).producers)
  {
    hide Inv, MovesOrRests, Apply, Queued;
    if k > 0 {
      StaysAtRest(run, k - 1);
      assert MovesOrRests(run(k - 1), run(k - 1 + 1));
      OnlyConsumes(run(k - 1), run(k));
      if Safe(run(k - 1), Consume) && run(k) == Apply(run(k - 1), Consume) {
        StepKeepsInv(run(k - 1), Consume);
        ConsumeIsStep(run(k - 1));
        TakeKeepsThreads(run(k - 1));
      }
    }
  }

  lemma RestIsScheduled(s: State, s': State)
    requires Inv(s) && AllIdle(s.producers) && MovesOrRests(s, s')
    ensures Scheduled(s, s')
  {
    hide Inv, Apply, Queued, Quiescent;
    OnlyConsumes(s, s');
    if Safe(s, Consume) && s' == Apply(s, Consume) {
      assert Tame(s, Consume);
    }
  }

  /** Exactly when the writer finishes: from a state with no call in progress, a schedule without new calls
      comes to rest with everything written if and only if mTail is at the end of the queue. */
  lemma DrainsExactly(run: nat -> State)
    requires Inv(run(0)) && AllIdle(run(0).producers)
    requires forall i: nat :: MovesOrRests(run(i), run(i + 1))
    ensures (exists k: nat :: Drained(run(k), run(0).h.calls)) <==> AtEnd(run(0).q)
  {
    hide Inv, Steady, MovesOrRests, Quiescent, Drained, AtEnd, AllIdle;
    if AtEnd(run(0).q) {
      AtRestIsSteady(run(0));
      forall k: nat
        ensures Scheduled(run(k), run(k + 1))
      {
        StaysAtRest(run, k);
        assert MovesOrRests(run(k), run(k + 1));
        RestIsScheduled(run(k), run(k + 1));
      }
      EveryScheduleDrains(run, 0);
    } else {
      forall k: nat
        ensures !Drained(run(k), run(0).h.calls)
      {
        StalledForever(run, k);
        StalledIsNotDrained(run(k), run(0).h.calls);
      }
    }
  }
}
